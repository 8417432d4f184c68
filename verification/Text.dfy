// String operations of the host language that several modules use.
module Text {

  // White space and line terminators, as String.trim removes them.
  predicate IsSpace(c: char) {
    || '\U{9}' <= c <= '\U{D}' || c == ' ' || c == '\U{A0}' || c == '\U{1680}' || '\U{2000}' <= c <= '\U{200A}'
    || c == '\U{2028}' || c == '\U{2029}' || c == '\U{202F}' || c == '\U{205F}' || c == '\U{3000}' || c == '\U{FEFF}'
  }

  function Trim(text: string): string {
    if text == [] then []
    else if IsSpace(text[0]) then Trim(text[1..])
    else if IsSpace(text[|text| - 1]) then Trim(text[..|text| - 1])
    else text
  }

  lemma {:induction false} TrimIdempotent(text: string)
    ensures Trim(Trim(text)) == Trim(text)
  {
    if text == [] {
    } else if IsSpace(text[0]) {
      TrimIdempotent(text[1..]);
    } else if IsSpace(text[|text| - 1]) {
      TrimIdempotent(text[..|text| - 1]);
    }
  }

  // String.toLowerCase, on the letters of ASCII.
  function Lower(text: string): string {
    seq(|text|, i requires 0 <= i < |text| =>
      if 'A' <= text[i] <= 'Z' then 'a' + (text[i] - 'A') else text[i])
  }

  // Only white space goes, from both ends, and none is left there.
  lemma {:induction false} TrimMeans(text: string) returns (before: string, after: string)
    ensures text == before + Trim(text) + after
    ensures (forall c :: c in before ==> IsSpace(c)) && (forall c :: c in after ==> IsSpace(c))
    ensures Trim(text) != "" ==> !IsSpace(Trim(text)[0]) && !IsSpace(Trim(text)[|Trim(text)| - 1])
  {
    before, after := "", "";
    if text == [] {
    } else if IsSpace(text[0]) {
      before, after := TrimMeans(text[1..]);
      before := [text[0]] + before;
      assert text == [text[0]] + text[1..];
    } else if IsSpace(text[|text| - 1]) {
      before, after := TrimMeans(text[..|text| - 1]);
      after := after + [text[|text| - 1]];
      assert text == text[..|text| - 1] + [text[|text| - 1]];
    }
  }

  lemma LowerMeans(text: string)
    ensures |Lower(text)| == |text| && Lower(Lower(text)) == Lower(text)
    ensures forall i :: 0 <= i < |text| ==>
              if 'A' <= text[i] <= 'Z' then Lower(text)[i] as int == text[i] as int + 32 else Lower(text)[i] == text[i]
  {
  }

  // White space around a text makes no difference.
  lemma {:induction false} TrimPadded(before: string, text: string, after: string)
    requires (forall c :: c in before ==> IsSpace(c)) && (forall c :: c in after ==> IsSpace(c))
    ensures Trim(before + text + after) == Trim(text)
    decreases |before| + |text| + |after|
  {
    if before != [] {
      assert (before + text + after)[1..] == before[1..] + text + after;
      assert before[0] in before && forall c :: c in before[1..] ==> c in before;
      TrimPadded(before[1..], text, after);
    } else if after == [] {
      assert before + text + after == text;
    } else if text == [] {
      assert before + text + after == after && after[0] in after && forall c :: c in after[1..] ==> c in after;
      assert [] + [] + after[1..] == after[1..];
      TrimPadded([], [], after[1..]);
    } else if IsSpace(text[0]) {
      assert (before + text + after)[1..] == [] + text[1..] + after;
      TrimPadded([], text[1..], after);
    } else {
      var shorter := after[..|after| - 1];
      assert (before + text + after)[..|text + after| - 1] == [] + text + shorter;
      assert after[|after| - 1] in after && forall c :: c in shorter ==> c in after;
      TrimPadded([], text, shorter);
    }
  }
}
