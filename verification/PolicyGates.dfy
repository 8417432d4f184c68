/**
 Collecting policy gates from a compiler awareness event: every gate object in
 any `policyGates` or `policyGateSummary` array, at any depth, once per id.
 */
module PolicyGates {
  import opened Json
  import opened Text

  // ---- Identity -------------------------------------------------------------

  function GateId(gate: Value): Option<string> {
    var id := Get(gate, "id");
    if id.Some? && id.value.String? && Trim(id.value.text) != [] then Some(Trim(id.value.text)) else None
  }

  datatype Gate = Gate(id: string, body: Value)

  // ---- Specification --------------------------------------------------------

  // The gate objects of one array, in order; entries that are not objects, or have no id, do not count.
  function GatesIn(items: seq<Value>): seq<Gate> {
    if items == [] then []
    else
      var id := GateId(items[0]);
      (if items[0].Object? && id.Some? then [Gate(id.value, items[0])] else []) + GatesIn(items[1..])
  }

  function GatesAt(value: Value, key: string): seq<Gate> {
    var found := Get(value, key);
    if found.Some? && found.value.Array? then GatesIn(found.value.items) else []
  }

  function OwnGates(value: Value): seq<Gate> {
    GatesAt(value, "policyGates") + GatesAt(value, "policyGateSummary")
  }

  // All gates of a tree in the order the traversal meets them.
  function Gates(value: Value): seq<Gate> {
    match value
    case Array(items) => GatesOfItems(items)
    case Object(fields) => OwnGates(value) + GatesOfFields(fields)
    case _ => []
  }

  function GatesOfItems(items: seq<Value>): seq<Gate> {
    if items == [] then [] else Gates(items[0]) + GatesOfItems(items[1..])
  }

  function GatesOfFields(fields: seq<Field>): seq<Gate> {
    if fields == [] then [] else Gates(fields[0].value) + GatesOfFields(fields[1..])
  }

  predicate Has(gates: seq<Gate>, id: string) {
    exists g | g in gates :: g.id == id
  }

  // A Map that keeps the first binding of each key, in order of insertion.
  function AddFirst(kept: seq<Gate>, gate: Gate): seq<Gate> {
    if Has(kept, gate.id) then kept else kept + [gate]
  }

  function AddAll(kept: seq<Gate>, gates: seq<Gate>): seq<Gate>
    decreases |gates|
  {
    if gates == [] then kept else AddAll(AddFirst(kept, gates[0]), gates[1..])
  }

  lemma {:induction false} AddAllAppend(kept: seq<Gate>, a: seq<Gate>, b: seq<Gate>)
    ensures AddAll(kept, a + b) == AddAll(AddAll(kept, a), b)
    decreases |a|
  {
    if a == [] {
      assert a + b == b;
    } else {
      assert (a + b)[1..] == a[1..] + b;
      AddAllAppend(AddFirst(kept, a[0]), a[1..], b);
    }
  }

  // ---- What a collected map is ----------------------------------------------

  predicate DistinctIds(gates: seq<Gate>) {
    forall i, j :: 0 <= i < j < |gates| ==> gates[i].id != gates[j].id
  }

  // The first gate of that id in the list.
  predicate IsFirst(gates: seq<Gate>, i: nat, id: string) {
    i < |gates| && gates[i].id == id && forall j :: 0 <= j < i ==> gates[j].id != id
  }

  // Adding all keeps what was there, and ids distinct.
  lemma {:induction false} AddAllDistinct(kept: seq<Gate>, gates: seq<Gate>)
    requires DistinctIds(kept)
    ensures kept <= AddAll(kept, gates) && DistinctIds(AddAll(kept, gates))
    decreases |gates|
  {
    if gates != [] {
      var next := AddFirst(kept, gates[0]);
      assert DistinctIds(next);
      AddAllDistinct(next, gates[1..]);
    }
  }

  lemma {:induction false} AddAllHas(kept: seq<Gate>, gates: seq<Gate>, id: string)
    ensures Has(AddAll(kept, gates), id) <==> Has(kept, id) || Has(gates, id)
    decreases |gates|
  {
    if gates != [] {
      AddAllHas(AddFirst(kept, gates[0]), gates[1..], id);
      assert gates == [gates[0]] + gates[1..];
      HasAppend([gates[0]], gates[1..], id);
      HasAppend(kept, [gates[0]], id);
      assert Has([gates[0]], id) <==> gates[0].id == id by { assert gates[0] in [gates[0]]; }
    }
  }

  // Every id that was not there is bound to its first occurrence.
  lemma {:induction false} AddAllFirst(kept: seq<Gate>, gates: seq<Gate>, g: Gate) returns (i: nat)
    requires DistinctIds(kept) && g in AddAll(kept, gates) && g !in kept
    ensures IsFirst(gates, i, g.id) && gates[i] == g
    decreases |gates|
  {
    assert gates != [];
    var next := AddFirst(kept, gates[0]);
    assert DistinctIds(next);
    if g in next {
      i := 0;
    } else {
      AddAllDistinct(next, gates[1..]);
      var j := AddAllFirst(next, gates[1..], g);
      FirstShifts(kept, gates, AddAll(next, gates[1..]), g, j);
      i := j + 1;
    }
  }

  lemma FirstShifts(kept: seq<Gate>, gates: seq<Gate>, r: seq<Gate>, g: Gate, i: nat)
    requires gates != [] && AddFirst(kept, gates[0]) <= r && DistinctIds(r)
    requires g in r && g !in AddFirst(kept, gates[0])
    requires IsFirst(gates[1..], i, g.id) && gates[1..][i] == g
    ensures i + 1 < |gates| && IsFirst(gates, i + 1, g.id) && gates[i + 1] == g
  {
    var next := AddFirst(kept, gates[0]);
    var at :| 0 <= at < |r| && r[at] == g;
    assert Has(next, gates[0].id) by { if !Has(kept, gates[0].id) { assert gates[0] in next; } }
    var other :| other in next && other.id == gates[0].id;
    var k :| 0 <= k < |next| && next[k] == other;
    assert r[k] == other && k < |next| <= at;
    assert gates[0].id != g.id;
    forall j | 0 <= j < i + 1 ensures gates[j].id != g.id {
      if j > 0 { assert gates[j] == gates[1..][j - 1]; }
    }
  }

  lemma HasAppend(a: seq<Gate>, b: seq<Gate>, id: string)
    ensures Has(a + b, id) <==> Has(a, id) || Has(b, id)
  {
  }

  // ---- Found anywhere -------------------------------------------------------

  // The value itself and everything inside it.
  function Subvalues(value: Value): set<Value> {
    match value
    case Array(items) => {value} + SubvaluesOfItems(items)
    case Object(fields) => {value} + SubvaluesOfFields(fields)
    case _ => {value}
  }

  function SubvaluesOfItems(items: seq<Value>): set<Value> {
    if items == [] then {} else Subvalues(items[0]) + SubvaluesOfItems(items[1..])
  }

  function SubvaluesOfFields(fields: seq<Field>): set<Value> {
    if fields == [] then {} else Subvalues(fields[0].value) + SubvaluesOfFields(fields[1..])
  }

  // `gate` is an object with an id in one of the two arrays of `holder`.
  predicate HoldsGate(holder: Value, gate: Gate) {
    exists key | key in {"policyGates", "policyGateSummary"} ::
      var found := Get(holder, key);
      && found.Some? && found.value.Array?
      && gate.body in found.value.items && gate.body.Object? && Names(gate.body, gate.id)
  }

  // The id is a string, and this is it without the white space around it.
  predicate Names(body: Value, id: string) {
    var named := Get(body, "id");
    id != "" && named.Some? && named.value.String? && Trim(named.value.text) == id
  }

  lemma {:induction false} GatesInItems(items: seq<Value>, gate: Gate)
    ensures gate in GatesIn(items) <==>
            gate.body in items && gate.body.Object? && Names(gate.body, gate.id)
  {
    if items != [] {
      GatesInItems(items[1..], gate);
      assert items == [items[0]] + items[1..];
    }
  }

  lemma OwnGatesHeld(value: Value, gate: Gate)
    requires value.Object?
    ensures gate in OwnGates(value) <==> HoldsGate(value, gate)
  {
    var a, b := Get(value, "policyGates"), Get(value, "policyGateSummary");
    if a.Some? && a.value.Array? { GatesInItems(a.value.items, gate); }
    if b.Some? && b.value.Array? { GatesInItems(b.value.items, gate); }
    assert "policyGates" in {"policyGates", "policyGateSummary"}
           && "policyGateSummary" in {"policyGates", "policyGateSummary"};
  }

  // The traversal meets exactly the gates held somewhere in the tree.
  lemma {:induction false} GatesAnywhere(value: Value, gate: Gate)
    ensures gate in Gates(value) <==> exists holder | holder in Subvalues(value) :: HoldsGate(holder, gate)
  {
    match value
    case Array(items) =>
      GatesAnywhereInItems(items, gate);
      assert !HoldsGate(value, gate);
    case Object(fields) =>
      GatesAnywhereInFields(fields, gate);
      OwnGatesHeld(value, gate);
      assert value in Subvalues(value);
    case _ =>
  }

  lemma {:induction false} GatesAnywhereInItems(items: seq<Value>, gate: Gate)
    ensures gate in GatesOfItems(items) <==>
            exists holder | holder in SubvaluesOfItems(items) :: HoldsGate(holder, gate)
  {
    if items != [] {
      GatesAnywhere(items[0], gate);
      GatesAnywhereInItems(items[1..], gate);
    }
  }

  lemma {:induction false} GatesAnywhereInFields(fields: seq<Field>, gate: Gate)
    ensures gate in GatesOfFields(fields) <==>
            exists holder | holder in SubvaluesOfFields(fields) :: HoldsGate(holder, gate)
  {
    if fields != [] {
      GatesAnywhere(fields[0].value, gate);
      GatesAnywhereInFields(fields[1..], gate);
    }
  }

  // ---- The traversal --------------------------------------------------------

  // The Map the traversal mutates.
  class GateMap {
    var entries: seq<Gate>

    constructor ()
      ensures entries == []
    {
      entries := [];
    }

    method AddArray(items: seq<Value>)
      modifies this
      ensures entries == AddAll(old(entries), GatesIn(items))
    {
      for i := 0 to |items|
        invariant AddAll(entries, GatesIn(items[i..])) == AddAll(old(entries), GatesIn(items))
      {
        var gate := items[i];
        var id := GateId(gate);
        assert items[i..][0] == gate && items[i..][1..] == items[i + 1..];
        ghost var own := if gate.Object? && id.Some? then [Gate(id.value, gate)] else [];
        assert GatesIn(items[i..]) == own + GatesIn(items[i + 1..]);
        AddAllAppend(entries, own, GatesIn(items[i + 1..]));
        if gate.Object? && id.Some? {
          if !Has(entries, id.value) { entries := entries + [Gate(id.value, gate)]; }
        }
      }
    }

    method AddProperty(value: Value, key: string)
      modifies this
      ensures entries == AddAll(old(entries), GatesAt(value, key))
    {
      var found := Get(value, key);
      if found.Some? && found.value.Array? { AddArray(found.value.items); }
    }

    // collectPolicyGatesFromValue
    method Collect(value: Value)
      modifies this
      ensures entries == AddAll(old(entries), Gates(value))
      decreases value
    {
      match value
      case Array(items) =>
        for i := 0 to |items|
          invariant AddAll(entries, GatesOfItems(items[i..])) == AddAll(old(entries), GatesOfItems(items))
        {
          assert items[i..][0] == items[i] && items[i..][1..] == items[i + 1..];
          AddAllAppend(entries, Gates(items[i]), GatesOfItems(items[i + 1..]));
          Collect(items[i]);
        }
      case Object(fields) =>
        AddAllAppend(entries, GatesAt(value, "policyGates"), GatesAt(value, "policyGateSummary"));
        AddAllAppend(entries, OwnGates(value), GatesOfFields(fields));
        AddProperty(value, "policyGates");
        AddProperty(value, "policyGateSummary");
        for i := 0 to |fields|
          invariant AddAll(entries, GatesOfFields(fields[i..])) == AddAll(old(entries), Gates(value))
        {
          assert fields[i..][0] == fields[i] && fields[i..][1..] == fields[i + 1..];
          AddAllAppend(entries, Gates(fields[i].value), GatesOfFields(fields[i + 1..]));
          if fields[i].value.Object? || fields[i].value.Array? { Collect(fields[i].value); }
        }
      case _ =>
    }
  }

  // ---- Summary --------------------------------------------------------------

  datatype Summary = Summary(gates: seq<Gate>, total: nat, blocked: nat, highRisk: nat, safeToAutoApply: nat)

  predicate IsTrue(value: Value, key: string) { Get(value, key) == Some(Bool(true)) }

  predicate Blocked(gate: Gate) {
    var capabilities := Get(gate.body, "stateCapabilities");
    capabilities.None? || (!IsTrue(capabilities.value, "dispatchable") && !IsTrue(capabilities.value, "manual"))
  }

  predicate HighRisk(gate: Gate) { Get(gate.body, "risk") == Some(String("high")) }

  predicate SafeToAutoApply(gate: Gate) { IsTrue(gate.body, "safeToAutoApply") }

  // What each of them says of a gate.
  lemma BlockedMeans(gate: Gate)
    ensures Blocked(gate) <==>
            forall capabilities: Value :: Get(gate.body, "stateCapabilities") == Some(capabilities) ==>
              && Get(capabilities, "dispatchable") != Some(Bool(true))
              && Get(capabilities, "manual") != Some(Bool(true))
    ensures HighRisk(gate) <==> exists risk :: Get(gate.body, "risk") == Some(String(risk)) && risk == "high"
    ensures SafeToAutoApply(gate) <==> exists safe :: Get(gate.body, "safeToAutoApply") == Some(Bool(safe)) && safe
  {
  }

  // The places of the gates that satisfy `p`.
  function Where(gates: seq<Gate>, p: Gate -> bool): set<nat> {
    set i: nat | i < |gates| && p(gates[i])
  }

  method Count(gates: seq<Gate>, p: Gate -> bool) returns (n: nat)
    ensures n == |Where(gates, p)| && n <= |gates|
  {
    n := 0;
    for i := 0 to |gates|
      invariant n == |Where(gates[..i], p)| && n <= i
    {
      assert Where(gates[..i + 1], p) == Where(gates[..i], p) + (if p(gates[i]) then {i} else {});
      if p(gates[i]) { n := n + 1; }
    }
    assert gates[..|gates|] == gates;
  }

  // The gates of a row: its decision first, then its candidates.
  function RowGates(decision: Option<Value>, candidates: Option<Value>): seq<Gate> {
    (if decision.Some? then Gates(decision.value) else []) + (if candidates.Some? then Gates(candidates.value) else [])
  }

  // compilerAwarenessEventPolicyGateSummary
  method Summarise(decision: Option<Value>, candidates: Option<Value>) returns (summary: Summary)
    ensures DistinctIds(summary.gates)
    // Exactly the ids held somewhere in the two trees, each with its first gate.
    ensures forall id :: Has(summary.gates, id) <==>
              exists gate: Gate, holder: Value ::
                gate.id == id && HoldsGate(holder, gate)
                && ((decision.Some? && holder in Subvalues(decision.value))
                    || (candidates.Some? && holder in Subvalues(candidates.value)))
    ensures forall g :: g in summary.gates ==>
              exists i | 0 <= i < |RowGates(decision, candidates)| ::
                IsFirst(RowGates(decision, candidates), i, g.id) && RowGates(decision, candidates)[i] == g
    ensures summary.total == |set g | g in summary.gates :: g.id|
    ensures summary.blocked == |Where(summary.gates, Blocked)| <= summary.total
    ensures summary.highRisk == |Where(summary.gates, HighRisk)| <= summary.total
    ensures summary.safeToAutoApply == |Where(summary.gates, SafeToAutoApply)| <= summary.total
  {
    var kept := new GateMap();
    ghost var a := if decision.Some? then Gates(decision.value) else [];
    ghost var b := if candidates.Some? then Gates(candidates.value) else [];
    if decision.Some? { kept.Collect(decision.value); }
    if candidates.Some? { kept.Collect(candidates.value); }
    AddAllAppend([], a, b);
    assert RowGates(decision, candidates) == a + b;
    AddAllDistinct([], a + b);
    var gates := kept.entries;
    forall g | g in gates ensures exists i | 0 <= i < |a + b| :: IsFirst(a + b, i, g.id) && (a + b)[i] == g {
      var i := AddAllFirst([], a + b, g);
    }
    forall id ensures Has(gates, id) <==> HeldIn(decision, candidates, id) {
      AddAllHas([], a + b, id);
      RowHolds(decision, candidates, id);
    }
    IdsCounted(gates);
    var blocked := Count(gates, Blocked);
    var highRisk := Count(gates, HighRisk);
    var safe := Count(gates, SafeToAutoApply);
    summary := Summary(gates, |gates|, blocked, highRisk, safe);
  }

  ghost predicate HeldIn(decision: Option<Value>, candidates: Option<Value>, id: string) {
    exists gate: Gate, holder: Value ::
      gate.id == id && HoldsGate(holder, gate)
      && ((decision.Some? && holder in Subvalues(decision.value))
          || (candidates.Some? && holder in Subvalues(candidates.value)))
  }

  lemma RowHolds(decision: Option<Value>, candidates: Option<Value>, id: string)
    ensures Has(RowGates(decision, candidates), id) <==> HeldIn(decision, candidates, id)
  {
    forall gate: Gate
      ensures gate in RowGates(decision, candidates) <==>
              (decision.Some? && gate in Gates(decision.value)) || (candidates.Some? && gate in Gates(candidates.value))
      ensures decision.Some? ==>
                (gate in Gates(decision.value) <==>
                    exists holder | holder in Subvalues(decision.value) :: HoldsGate(holder, gate))
      ensures candidates.Some? ==>
                (gate in Gates(candidates.value) <==>
                    exists holder | holder in Subvalues(candidates.value) :: HoldsGate(holder, gate))
    {
      if decision.Some? { GatesAnywhere(decision.value, gate); }
      if candidates.Some? { GatesAnywhere(candidates.value, gate); }
    }
  }

  // With distinct ids, there are as many ids as entries.
  lemma {:induction false} IdsCounted(gates: seq<Gate>)
    requires DistinctIds(gates)
    ensures |set g | g in gates :: g.id| == |gates|
  {
    if gates != [] {
      var init, last := gates[..|gates| - 1], gates[|gates| - 1];
      IdsCounted(init);
      assert gates == init + [last];
      assert (set g | g in gates :: g.id) == (set g | g in init :: g.id) + {last.id};
      assert last.id !in (set g | g in init :: g.id);
    }
  }
}
