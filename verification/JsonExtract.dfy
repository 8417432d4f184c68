/**
 Finding a JSON object in a model's answer: raw, fenced, or embedded in text.
 */
module JsonExtract {
  import opened Json

  // ---- Bracket depth --------------------------------------------------------

  function Weight(c: char): int {
    if c == '{' then 1 else if c == '}' then -1 else 0
  }

  function Depth(text: string): int {
    if text == [] then 0 else Depth(text[..|text| - 1]) + Weight(text[|text| - 1])
  }

  // A text that opens with a brace and closes it with its last character, not before.
  predicate Balanced(text: string) {
    && text != [] && text[0] == '{' && Depth(text) == 0
    && forall n :: 0 < n < |text| ==> Depth(text[..n]) > 0
  }

  // Where `indexOf("{")` finds the first opening brace.
  predicate OpensAt(text: string, start: nat) {
    start < |text| && text[start] == '{' && '{' !in text[..start]
  }

  // The result the extraction owes: the balanced slice from the first opening brace, or none.
  predicate Extracts(text: string, slice: Option<string>) {
    match slice
    case Some(found) => exists start: nat, end: nat | start <= end <= |text| ::
                          OpensAt(text, start) && found == text[start..end] && Balanced(found)
    case None => forall start: nat, end: nat | start <= end <= |text| ::
                   OpensAt(text, start) ==> !Balanced(text[start..end])
  }

  // ---- extractOutermostObject -----------------------------------------------

  method IndexOfBrace(text: string) returns (start: int)
    ensures start == -1 <==> '{' !in text
    ensures start != -1 ==> 0 <= start && OpensAt(text, start)
  {
    for i := 0 to |text|
      invariant '{' !in text[..i]
    {
      if text[i] == '{' { return i; }
    }
    return -1;
  }

  method ExtractOutermostObject(text: string) returns (slice: Option<string>)
    ensures Extracts(text, slice)
  {
    var start := IndexOfBrace(text);
    if start == -1 { return None; }
    ghost var rest := text[start..];
    var depth := 0;
    for i := start to |text|
      invariant depth == Depth(rest[..i - start])
      invariant forall n :: 0 < n <= i - start ==> Depth(rest[..n]) > 0
    {
      assert rest[..i + 1 - start][..i - start] == rest[..i - start];
      if text[i] == '{' {
        depth := depth + 1;
      } else if text[i] == '}' {
        depth := depth - 1;
        if depth == 0 {
          var found := text[start..i + 1];
          assert found == rest[..i + 1 - start];
          assert forall n :: 0 < n < |found| ==> found[..n] == rest[..n];
          assert Balanced(found);
          return Some(found);
        }
      }
    }
    forall s: nat, end: nat | s <= end <= |text| && OpensAt(text, s) ensures !Balanced(text[s..end]) {
      assert text[s..end] == rest[..end - s];
    }
    return None;
  }

  // One balanced text is never a proper prefix of another: the slice is the
  // shortest that closes, and the only one.
  lemma BalancedUnique(text: string, m: nat, n: nat)
    requires m <= n <= |text| && Balanced(text[..m]) && Balanced(text[..n])
    ensures m == n
  {
    var longer := text[..n];
    assert longer[..m] == text[..m];
  }

  lemma OpensOnce(text: string, s: nat, t: nat)
    requires OpensAt(text, s) && OpensAt(text, t)
    ensures s == t
  {
  }

  // ---- What it returns for embedded text ------------------------------------

  lemma SliceAt(text: string, s: nat, m: nat)
    requires s <= m <= |text|
    ensures text[s..][..m - s] == text[s..m]
  {
  }

  // The specification determines the result.
  lemma ExtractsOnce(text: string, found: string, other: Option<string>)
    requires Extracts(text, Some(found)) && Extracts(text, other)
    ensures other == Some(found)
  {
    hide Balanced;
    var s: nat, m: nat :| s <= m <= |text| && OpensAt(text, s) && found == text[s..m] && Balanced(found);
    assert other.Some?;
    var t: nat, n: nat :| t <= n <= |text| && OpensAt(text, t) && other.value == text[t..n] && Balanced(other.value);
    OpensOnce(text, s, t);
    SliceAt(text, s, m);
    SliceAt(text, s, n);
    if m <= n { BalancedUnique(text[s..], m - s, n - s); } else { BalancedUnique(text[s..], n - s, m - s); }
  }

  lemma EmbeddedAt(prefix: string, text: string, suffix: string)
    requires text != [] && text[0] == '{' && '{' !in prefix
    ensures var whole := prefix + text + suffix;
            OpensAt(whole, |prefix|) && whole[|prefix|..|prefix| + |text|] == text
  {
    var whole := prefix + text + suffix;
    assert whole[..|prefix|] == prefix && whole[|prefix|] == text[0];
  }

  // For any text with an opening brace first, any prefix without one and any
  // suffix: extraction returns exactly that text when, and only when, it is balanced.
  lemma EmbeddedExtracted(prefix: string, text: string, suffix: string, slice: Option<string>)
    requires text != [] && text[0] == '{' && '{' !in prefix
    requires Extracts(prefix + text + suffix, slice)
    ensures slice == Some(text) <==> Balanced(text)
  {
    hide Balanced, OpensAt;
    EmbeddedAt(prefix, text, suffix);
    if Balanced(text) { ExtractsOnce(prefix + text + suffix, text, slice); }
  }

  // ---- JSON texts -----------------------------------------------------------

  // A JSON text as its grammar builds it (RFC 8259 sections 2 to 7): every way to
  // space it and to escape its strings. `gap` is the white space of an empty body.
  datatype Doc =
    | Word(text: string)
    | Quoted(pieces: seq<Piece>)
    | List(items: seq<Slot>, gap: string)
    | Record(members: seq<Member>, gap: string)

  datatype Slot = Slot(before: string, doc: Doc, after: string)

  datatype Member = Member(before: string, key: seq<Piece>, colon: string, slot: Slot)

  // One character of a string: itself, or an escape sequence for it.
  datatype Piece = Literal(c: char) | Escaped(raw: string, c: char)

  predicate BraceFree(text: string) { '{' !in text && '}' !in text }

  predicate Blank(text: string) { forall c | c in text :: c in " \t\n\r" }

  predicate IsHex(c: char) { '0' <= c <= '9' || 'a' <= c <= 'f' || 'A' <= c <= 'F' }

  predicate IsEscape(raw: string) {
    || (|raw| == 2 && raw[0] == '\\' && raw[1] in "\"\\/bfnrt")
    || (|raw| == 6 && raw[..2] == "\\u" && forall c | c in raw[2..] :: IsHex(c))
  }

  predicate PiecesFormed(pieces: seq<Piece>) {
    forall p | p in pieces :: p.Escaped? ==> IsEscape(p.raw)
  }

  // Null, the booleans and numbers are words, which hold no braces.
  predicate Formed(doc: Doc) {
    match doc
    case Word(text) => BraceFree(text)
    case Quoted(pieces) => PiecesFormed(pieces)
    case List(items, gap) => Blank(gap) && forall i | 0 <= i < |items| :: SlotFormed(items[i])
    case Record(members, gap) =>
      Blank(gap)
      && forall i | 0 <= i < |members| ::
           && Blank(members[i].before) && PiecesFormed(members[i].key) && Blank(members[i].colon)
           && SlotFormed(members[i].slot)
  }

  predicate SlotFormed(slot: Slot) {
    Blank(slot.before) && Formed(slot.doc) && Blank(slot.after)
  }

  // ---- ... as written

  function PiecesText(pieces: seq<Piece>): string {
    if pieces == [] then ""
    else (if pieces[0].Literal? then [pieces[0].c] else pieces[0].raw) + PiecesText(pieces[1..])
  }

  function QuotedText(pieces: seq<Piece>): string {
    "\"" + PiecesText(pieces) + "\""
  }

  function Text(doc: Doc): string {
    match doc
    case Word(text) => text
    case Quoted(pieces) => QuotedText(pieces)
    case List(items, gap) => "[" + (gap + ItemsText(items)) + "]"
    case Record(members, gap) => "{" + (gap + MembersText(members)) + "}"
  }

  function SlotText(slot: Slot): string {
    slot.before + Text(slot.doc) + slot.after
  }

  function ItemsText(items: seq<Slot>): string {
    if items == [] then ""
    else SlotText(items[0]) + ((if |items| == 1 then "" else ",") + ItemsText(items[1..]))
  }

  function MemberText(member: Member): string {
    member.before + QuotedText(member.key) + (member.colon + ":") + SlotText(member.slot)
  }

  function MembersText(members: seq<Member>): string {
    if members == [] then ""
    else MemberText(members[0]) + ((if |members| == 1 then "" else ",") + MembersText(members[1..]))
  }

  // ---- ... as meant

  function PiecesMeaning(pieces: seq<Piece>): string {
    if pieces == [] then "" else [pieces[0].c] + PiecesMeaning(pieces[1..])
  }

  function Meaning(doc: Doc): Value {
    match doc
    case Word(text) =>
      if text == "null" then Null
      else if text == "true" then Bool(true)
      else if text == "false" then Bool(false)
      else Number(text)
    case Quoted(pieces) => String(PiecesMeaning(pieces))
    case List(items, _) => Array(ItemsMeaning(items))
    case Record(members, _) => Object(MembersMeaning(members))
  }

  function ItemsMeaning(items: seq<Slot>): seq<Value> {
    if items == [] then [] else [Meaning(items[0].doc)] + ItemsMeaning(items[1..])
  }

  function MembersMeaning(members: seq<Member>): seq<Field> {
    if members == [] then []
    else [Field(PiecesMeaning(members[0].key), Meaning(members[0].slot.doc))] + MembersMeaning(members[1..])
  }

  // No string or key of the tree holds a brace.
  predicate Plain(value: Value) {
    match value
    case String(text) => BraceFree(text)
    case Array(items) => forall i | 0 <= i < |items| :: Plain(items[i])
    case Object(fields) => forall i | 0 <= i < |fields| :: BraceFree(fields[i].key) && Plain(fields[i].value)
    case _ => true
  }

  // ---- Depth of a text ------------------------------------------------------

  // No prefix closes more than it opened, and all is closed at the end.
  predicate Level(text: string) {
    Depth(text) == 0 && forall n :: 0 <= n <= |text| ==> Depth(text[..n]) >= 0
  }

  lemma {:induction false} DepthAppend(a: string, b: string)
    ensures Depth(a + b) == Depth(a) + Depth(b)
  {
    if b == [] {
      assert a + b == a;
    } else {
      assert (a + b)[..|a + b| - 1] == a + b[..|b| - 1];
      DepthAppend(a, b[..|b| - 1]);
    }
  }

  lemma LevelAppend(a: string, b: string)
    requires Level(a) && Level(b)
    ensures Level(a + b)
  {
    DepthAppend(a, b);
    forall n | 0 <= n <= |a + b| ensures Depth((a + b)[..n]) >= 0 {
      if n <= |a| {
        assert (a + b)[..n] == a[..n];
      } else {
        assert (a + b)[..n] == a + b[..n - |a|];
        DepthAppend(a, b[..n - |a|]);
      }
    }
  }

  lemma {:induction false} BraceFreeLevel(text: string)
    requires BraceFree(text)
    ensures Level(text)
  {
    if text != [] {
      var init := text[..|text| - 1];
      BraceFreeLevel(init);
      forall n | 0 <= n <= |text| ensures Depth(text[..n]) >= 0 {
        if n < |text| { assert text[..n] == init[..n]; } else { assert text[..n] == text; }
      }
    }
  }

  lemma BlankLevel(text: string)
    requires Blank(text)
    ensures Level(text)
  {
    assert '{' !in " \t\n\r" && '}' !in " \t\n\r";
    BraceFreeLevel(text);
  }

  lemma {:induction false} PiecesBraceFree(pieces: seq<Piece>)
    requires PiecesFormed(pieces) && BraceFree(PiecesMeaning(pieces))
    ensures BraceFree(PiecesText(pieces))
  {
    if pieces != [] {
      var p := pieces[0];
      assert p in pieces && forall q :: q in pieces[1..] ==> q in pieces;
      assert PiecesMeaning(pieces)[0] == p.c && PiecesMeaning(pieces)[1..] == PiecesMeaning(pieces[1..]);
      PiecesBraceFree(pieces[1..]);
      if p.Escaped? { EscapeBraceFree(p.raw); }
    }
  }

  lemma EscapeBraceFree(raw: string)
    requires IsEscape(raw)
    ensures BraceFree(raw)
  {
    if |raw| == 6 {
      assert raw == raw[..2] + raw[2..];
      assert raw[..2] == "\\u";
    }
  }

  lemma QuotedLevel(pieces: seq<Piece>)
    requires PiecesFormed(pieces) && BraceFree(PiecesMeaning(pieces))
    ensures Level(QuotedText(pieces))
  {
    PiecesBraceFree(pieces);
    BraceFreeLevel(QuotedText(pieces));
  }

  // Braces around a level text balance it.
  lemma WrapBalanced(text: string)
    requires Level(text)
    ensures Balanced("{" + text + "}") && Level("{" + text + "}")
  {
    var whole := "{" + text + "}";
    DepthAppend("{", text);
    DepthAppend("{" + text, "}");
    assert Depth("{") == 1 && Depth("}") == -1 by { assert "{"[..0] == "" && "}"[..0] == ""; }
    forall n | 0 < n < |whole| ensures Depth(whole[..n]) > 0 {
      assert whole[..n] == "{" + text[..n - 1];
      DepthAppend("{", text[..n - 1]);
    }
    assert whole[..|whole|] == whole && whole[..0] == "";
  }

  lemma LevelAppend3(a: string, b: string, c: string)
    requires Level(a) && Level(b) && Level(c)
    ensures Level(a + b + c)
  {
    LevelAppend(a, b);
    LevelAppend(a + b, c);
  }

  lemma {:induction false} TextLevel(doc: Doc)
    requires Formed(doc) && Plain(Meaning(doc))
    ensures Level(Text(doc))
    decreases doc, 0
  {
    match doc
    case Word(text) => BraceFreeLevel(text);
    case Quoted(pieces) => QuotedLevel(pieces);
    case List(items, gap) =>
      BlankLevel(gap);
      ItemsLevel(items);
      LevelAppend(gap, ItemsText(items));
      BraceFreeLevel("[");
      BraceFreeLevel("]");
      LevelAppend3("[", gap + ItemsText(items), "]");
    case Record(members, gap) =>
      BlankLevel(gap);
      MembersLevel(members);
      LevelAppend(gap, MembersText(members));
      WrapBalanced(gap + MembersText(members));
  }

  lemma SlotLevel(slot: Slot)
    requires SlotFormed(slot) && Level(Text(slot.doc))
    ensures Level(SlotText(slot))
  {
    BlankLevel(slot.before);
    BlankLevel(slot.after);
    LevelAppend3(slot.before, Text(slot.doc), slot.after);
  }

  lemma {:induction false} ItemsLevel(items: seq<Slot>)
    requires forall i | 0 <= i < |items| :: SlotFormed(items[i])
    requires Plain(Array(ItemsMeaning(items)))
    ensures Level(ItemsText(items))
    decreases items, 1
  {
    if items == [] {
      BraceFreeLevel("");
    } else {
      var rest := if |items| == 1 then "" else ",";
      assert ItemsMeaning(items)[0] == Meaning(items[0].doc) && ItemsMeaning(items)[1..] == ItemsMeaning(items[1..]);
      TextLevel(items[0].doc);
      SlotLevel(items[0]);
      ItemsLevel(items[1..]);
      BraceFreeLevel(rest);
      LevelAppend(rest, ItemsText(items[1..]));
      LevelAppend(SlotText(items[0]), rest + ItemsText(items[1..]));
    }
  }

  lemma MemberLevel(member: Member)
    requires Blank(member.before) && PiecesFormed(member.key) && BraceFree(PiecesMeaning(member.key))
             && Blank(member.colon)
    requires Level(SlotText(member.slot))
    ensures Level(MemberText(member))
  {
    BlankLevel(member.before);
    QuotedLevel(member.key);
    BlankLevel(member.colon);
    BraceFreeLevel(":");
    LevelAppend(member.colon, ":");
    LevelAppend3(member.before, QuotedText(member.key), member.colon + ":");
    LevelAppend(member.before + QuotedText(member.key) + (member.colon + ":"), SlotText(member.slot));
  }

  lemma {:induction false} MembersLevel(members: seq<Member>)
    requires forall i | 0 <= i < |members| ::
               && Blank(members[i].before) && PiecesFormed(members[i].key) && Blank(members[i].colon)
               && SlotFormed(members[i].slot)
    requires Plain(Object(MembersMeaning(members)))
    ensures Level(MembersText(members))
    decreases members, 1
  {
    if members == [] {
      BraceFreeLevel("");
    } else {
      var rest := if |members| == 1 then "" else ",";
      var fields := MembersMeaning(members);
      assert fields[0] == Field(PiecesMeaning(members[0].key), Meaning(members[0].slot.doc));
      assert fields[1..] == MembersMeaning(members[1..]);
      TextLevel(members[0].slot.doc);
      SlotLevel(members[0].slot);
      MemberLevel(members[0]);
      MembersLevel(members[1..]);
      BraceFreeLevel(rest);
      LevelAppend(rest, MembersText(members[1..]));
      LevelAppend(MemberText(members[0]), rest + MembersText(members[1..]));
    }
  }

  lemma RecordBalanced(doc: Doc)
    requires doc.Record? && Formed(doc) && Plain(Meaning(doc))
    ensures Balanced(Text(doc))
  {
    BlankLevel(doc.gap);
    MembersLevel(doc.members);
    LevelAppend(doc.gap, MembersText(doc.members));
    WrapBalanced(doc.gap + MembersText(doc.members));
  }

  // For every object tree without braces in its strings, every JSON text of it,
  // every prefix without an opening brace and every suffix, extraction returns
  // exactly that text.
  lemma ObjectTextExtracted(prefix: string, doc: Doc, suffix: string, slice: Option<string>)
    requires doc.Record? && Formed(doc) && Plain(Meaning(doc)) && '{' !in prefix
    requires Extracts(prefix + Text(doc) + suffix, slice)
    ensures slice == Some(Text(doc))
  {
    RecordBalanced(doc);
    EmbeddedExtracted(prefix, Text(doc), suffix, slice);
  }

  // The object whose one field holds a closing brace, written compactly.
  const CUT := Record([Member("", [Literal('a')], "", Slot("", Quoted([Literal('}')]), ""))], "")

  lemma CutText()
    ensures Text(CUT) == "{\"a\":\"}" + "\"}"
  {
    var key, value := [Literal('a')], [Literal('}')];
    assert PiecesText(key) == "a" by { assert key[1..] == []; }
    assert PiecesText(value) == "}" by { assert value[1..] == []; }
    var member := Member("", key, "", Slot("", Quoted(value), ""));
    assert MemberText(member) == "\"a\":\"}\"";
    assert MembersText([member]) == MemberText(member) by { assert [member][1..] == []; }
  }

  // A brace in a string is what breaks it.
  lemma BraceInStringCut(slice: Option<string>)
    requires Extracts(Text(CUT), slice)
    ensures slice == Some("{\"a\":\"}") && slice != Some(Text(CUT))
  {
    CutText();
    CutBalanced();
    assert [] + "{\"a\":\"}" + "\"}" == Text(CUT);
    EmbeddedExtracted([], "{\"a\":\"}", "\"}", slice);
  }

  lemma CutBalanced()
    ensures Balanced("{\"a\":\"}")
  {
    BraceFreeLevel("\"a\":\"");
    WrapBalanced("\"a\":\"");
    assert "{" + "\"a\":\"" + "}" == "{\"a\":\"}";
  }

  // ---- extractJson ----------------------------------------------------------

  // First position of three backticks at or after `from`.
  function FenceFrom(text: string, from: nat): (at: Option<nat>)
    ensures at.Some? ==> from <= at.value <= |text| - 3 && text[at.value..at.value + 3] == "```"
    decreases |text| - from
  {
    if from + 3 > |text| then None
    else if text[from..from + 3] == "```" then Some(from)
    else FenceFrom(text, from + 1)
  }

  // What the fence expression captures: from the first fence, without an
  // immediate "json", to the next one.
  function Fenced(text: string): Option<string> {
    var open := FenceFrom(text, 0);
    if open.None? then None
    else
      var close := FenceFrom(text, open.value + 3);
      if close.None? then None
      else
        var inner := text[open.value + 3..close.value];
        Some(if "json" <= inner then inner[4..] else inner)
  }

  predicate FenceAt(text: string, i: nat) {
    i + 3 <= |text| && text[i] == '`' && text[i + 1] == '`' && text[i + 2] == '`'
  }

  lemma {:induction false} FirstFence(text: string, from: nat)
    ensures match FenceFrom(text, from)
            case Some(at) => from <= at && FenceAt(text, at) && forall i :: from <= i < at ==> !FenceAt(text, i)
            case None => forall i :: from <= i ==> !FenceAt(text, i)
    decreases |text| - from
  {
    if from + 3 <= |text| && text[from..from + 3] != "```" {
      FirstFence(text, from + 1);
      assert text[from] != '`' || text[from + 1] != '`' || text[from + 2] != '`';
    }
  }

  lemma FenceFromFinds(text: string, from: nat, at: nat)
    requires from <= at && FenceAt(text, at) && forall i :: from <= i < at ==> !FenceAt(text, i)
    ensures FenceFrom(text, from) == Some(at)
  {
    FirstFence(text, from);
  }

  // The first fence, and the next one after it.
  predicate FencePair(text: string, open: nat, close: nat) {
    && open + 3 <= close <= |text| && FenceAt(text, open) && FenceAt(text, close)
    && (forall i | 0 <= i < open :: !FenceAt(text, i))
    && (forall i | open + 3 <= i < close :: !FenceAt(text, i))
  }

  // What stands between them, without a "json" right at its start.
  function Untagged(body: string): string {
    if "json" <= body then body[4..] else body
  }

  lemma UntaggedMeans(tag: string, inner: string)
    ensures tag == "json" || (tag == "" && !("json" <= inner)) ==> Untagged(tag + inner) == inner
  {
    if tag == "" { assert tag + inner == inner; }
  }

  lemma PairFenced(text: string, open: nat, close: nat)
    requires FencePair(text, open, close)
    ensures Fenced(text) == Some(Untagged(text[open + 3..close]))
  {
    FenceFromFinds(text, 0, open);
    FenceFromFinds(text, open + 3, close);
    FencedBetween(text, open, close);
  }

  lemma FencedBetween(text: string, open: nat, close: nat)
    requires FenceFrom(text, 0) == Some(open) && FenceFrom(text, open + 3) == Some(close)
    ensures Fenced(text) == Some(Untagged(text[open + 3..close]))
  {
  }

  // The fenced text lies between the first fence and the next one, if there are
  // two; there is none exactly if there are not.
  lemma FencedMeans(text: string)
    ensures Fenced(text).Some? <==> exists open: nat, close: nat :: FencePair(text, open, close)
    ensures forall open: nat, close: nat :: FencePair(text, open, close) ==>
              Fenced(text) == Some(Untagged(text[open + 3..close]))
  {
    forall open: nat, close: nat | FencePair(text, open, close)
      ensures Fenced(text) == Some(Untagged(text[open + 3..close]))
    {
      PairFenced(text, open, close);
    }
    if Fenced(text).Some? { PairFound(text); }
  }

  lemma PairFound(text: string)
    requires Fenced(text).Some?
    ensures exists open: nat, close: nat :: FencePair(text, open, close)
  {
    var open := FenceFrom(text, 0);
    var close := FenceFrom(text, open.value + 3);
    FirstFence(text, 0);
    FirstFence(text, open.value + 3);
    assert FencePair(text, open.value, close.value);
  }

  // A text with a fenced body.
  function FencedText(prefix: string, body: string, suffix: string): string {
    prefix + ("```" + (body + ("```" + suffix)))
  }

  // Where the fences of a fenced text are.
  lemma Fences(prefix: string, body: string, suffix: string)
    requires '`' !in prefix && '`' !in body
    ensures var text, open, close := FencedText(prefix, body, suffix), |prefix|, |prefix| + 3 + |body|;
            FencePair(text, open, close) && text[open + 3..close] == body
  {
    var rest := "```" + (body + ("```" + suffix));
    var text := prefix + rest;
    assert text[|prefix|..] == rest && rest[3..][..|body|] == body && rest[3 + |body|..] == "```" + suffix;
    forall i | 0 <= i < |prefix| ensures !FenceAt(text, i) { assert text[i] == prefix[i] && prefix[i] in prefix; }
    forall i | |prefix| + 3 <= i < |prefix| + 3 + |body| ensures !FenceAt(text, i) {
      assert text[i] == body[i - |prefix| - 3] && body[i - |prefix| - 3] in body;
    }
  }

  lemma FenceFound(prefix: string, tag: string, inner: string, suffix: string)
    requires '`' !in prefix && '`' !in inner && (tag == "json" || (tag == "" && !("json" <= inner)))
    ensures Fenced(FencedText(prefix, tag + inner, suffix)) == Some(inner)
  {
    hide *;
    Fences(prefix, tag + inner, suffix);
    PairFenced(FencedText(prefix, tag + inner, suffix), |prefix|, |prefix| + 3 + |tag + inner|);
    UntaggedMeans(tag, inner);
  }

  // A fenced JSON text, of an object or not, comes back as what it means, tagged or
  // not, whatever stands around it, as long as there is no other backtick before its end.
  lemma FencedReadBack(prefix: string, tag: string, inner: string, doc: Doc, suffix: string,
                       parse: string -> Option<Value>, trim: string -> string, value: Option<Value>)
    requires tag == "json" || (tag == "" && !("json" <= inner))
    requires '`' !in prefix && '`' !in inner
    requires trim(inner) == Text(doc) && parse(Text(doc)) == Some(Meaning(doc))
    ensures var text := FencedText(prefix, tag + inner, suffix);
            parse(text).None? && Answers(text, parse, trim, value) ==> value == Some(Meaning(doc))
  {
    hide Fenced, FencedText, Extracts, Text, Meaning;
    FenceFound(prefix, tag, inner, suffix);
  }

  // What the answer has to be: the whole text, else the fenced text, else the extracted object.
  ghost predicate Answers(text: string, parse: string -> Option<Value>, trim: string -> string, value: Option<Value>) {
    if parse(text).Some? then value == parse(text)
    else if Fenced(text).Some? && parse(trim(Fenced(text).value)).Some? then value == parse(trim(Fenced(text).value))
    else if value.Some? then exists slice :: Extracts(text, Some(slice)) && value == parse(slice)
    else forall slice :: Extracts(text, Some(slice)) ==> parse(slice).None?
  }

  // `parse` is JSON.parse, with None for a syntax error; `trim` is String.trim.
  method ExtractJson(text: string, parse: string -> Option<Value>, trim: string -> string)
    returns (value: Option<Value>)
    ensures Answers(text, parse, trim, value)
  {
    if parse(text).Some? { return parse(text); }
    var fenced := Fenced(text);
    if fenced.Some? && parse(trim(fenced.value)).Some? { return parse(trim(fenced.value)); }
    var extracted := ExtractOutermostObject(text);
    forall slice | Extracts(text, Some(slice)) ensures extracted == Some(slice) {
      ExtractsOnce(text, slice, extracted);
    }
    return if extracted.Some? then parse(extracted.value) else None;
  }

  // Embedded after any text without an opening brace and before any suffix, an
  // object comes back as the value its text means, whenever the parser reads the
  // text alone that way and the earlier attempts do not apply.
  lemma ObjectReadBack(prefix: string, doc: Doc, suffix: string,
                       parse: string -> Option<Value>, trim: string -> string, value: Option<Value>)
    requires doc.Record? && Formed(doc) && Plain(Meaning(doc)) && '{' !in prefix
    ensures var text := prefix + Text(doc) + suffix;
            && parse(Text(doc)) == Some(Meaning(doc)) && parse(text).None? && Fenced(text).None?
            && Answers(text, parse, trim, value)
            ==> value == Some(Meaning(doc))
  {
    var text, slice := prefix + Text(doc) + suffix, Text(doc);
    RecordBalanced(doc);
    assert text[|prefix|..|prefix| + |slice|] == slice && text[..|prefix|] == prefix && OpensAt(text, |prefix|);
    assert Extracts(text, Some(slice));
    forall other | Extracts(text, Some(other)) ensures other == slice { ExtractsOnce(text, other, Some(slice)); }
  }
}
