/**
 Workflow definitions: gated promotion, rollback to an older version, and what
 any sequence of both keeps.
 */
module Definitions {
  import opened Json
  import opened Lifecycle
  import opened Confidence

  type Id = string

  // `confidence` in hundredths; `promotedAt` and `revokedAt` as set or not.
  datatype Definition = Definition(key: string, version: int, statusTerminal: bool, state: Status,
                                   scope: Option<string>, confidence: int, promoted: bool, revoked: bool)

  // How a definition last came into its promotion state.
  datatype Entry =
    | Created(initial: Status)
    | Promotion(errors: nat, score: real, coverage: real, minimumScore: real, minimumCoverage: real)
    | RollbackTarget(source: Id)
    | Withdrawn

  // What the validation pipeline reports on a definition.
  datatype Report = Report(errors: nat, score: real, coverage: real)

  // The metadata of a promotion state that enables reuse.
  datatype Policy = Policy(minimumScore: Option<real>, minimumCoverage: Option<real>, requiresScope: bool,
                           disallowed: set<string>)

  datatype Answer = Done | BadRequest | NotFound | Conflict | ServerError

  // ---- Versions -------------------------------------------------------------

  predicate SameKey(defs: map<Id, Definition>, a: Id, b: Id)
    requires a in defs && b in defs
  {
    defs[a].key == defs[b].key
  }

  function Others(defs: map<Id, Definition>, id: Id): set<Id>
    requires id in defs
  {
    set o | o in defs && o != id && SameKey(defs, o, id)
  }

  function Older(defs: map<Id, Definition>, id: Id): set<Id>
    requires id in defs
  {
    set o | o in defs && SameKey(defs, o, id) && defs[o].version < defs[id].version
  }

  function Newer(defs: map<Id, Definition>, id: Id): set<Id>
    requires id in defs
  {
    set o | o in defs && SameKey(defs, o, id) && defs[o].version > defs[id].version
  }

  // (definition_key, version) is unique.
  predicate VersionsUnique(defs: map<Id, Definition>) {
    forall a, b | a in defs && b in defs :: SameKey(defs, a, b) && defs[a].version == defs[b].version ==> a == b
  }

  predicate GreatestOlder(defs: map<Id, Definition>, id: Id, target: Id)
    requires id in defs
  {
    target in Older(defs, id) && forall o | o in Older(defs, id) :: defs[o].version <= defs[target].version
  }

  // ORDER BY version DESC LIMIT 5 over the other definitions of the key.
  predicate TopFive(defs: map<Id, Definition>, id: Id, rows: seq<Id>)
    requires id in defs
  {
    && (forall i :: 0 <= i < |rows| ==> rows[i] in Others(defs, id))
    && (forall i, j :: 0 <= i < j < |rows| ==> rows[i] != rows[j] && defs[rows[i]].version >= defs[rows[j]].version)
    && |rows| <= 5 && (|rows| < 5 ==> forall o :: o in Others(defs, id) ==> o in rows)
    && (forall o, i :: o in Others(defs, id) && o !in rows && 0 <= i < |rows| ==>
        defs[o].version <= defs[rows[i]].version)
  }

  // The first row that is older, else the first row, else none.
  function FirstOlder(defs: map<Id, Definition>, rows: seq<Id>, version: int): (target: Option<Id>)
    requires forall i :: 0 <= i < |rows| ==> rows[i] in defs
    ensures target.Some? ==> target.value in rows && defs[target.value].version < version
    ensures target.None? ==> forall o :: o in rows ==> defs[o].version >= version
  {
    if rows == [] then None
    else if defs[rows[0]].version < version then Some(rows[0])
    else
      assert forall o :: o in rows ==> o == rows[0] || o in rows[1..];
      FirstOlder(defs, rows[1..], version)
  }

  function SelectedTarget(defs: map<Id, Definition>, rows: seq<Id>, version: int): Option<Id>
    requires forall i :: 0 <= i < |rows| ==> rows[i] in defs
  {
    var older := FirstOlder(defs, rows, version);
    if older.Some? then older else if rows != [] then Some(rows[0]) else None
  }

  lemma {:induction false} FirstOlderGreatest(defs: map<Id, Definition>, rows: seq<Id>, version: int, o: Id)
    requires forall i :: 0 <= i < |rows| ==> rows[i] in defs
    requires forall i, j :: 0 <= i < j < |rows| ==> defs[rows[i]].version >= defs[rows[j]].version
    requires o in rows && defs[o].version < version
    ensures FirstOlder(defs, rows, version).Some?
            && defs[o].version <= defs[FirstOlder(defs, rows, version).value].version
  {
    if defs[rows[0]].version >= version {
      assert o in rows[1..];
      FirstOlderGreatest(defs, rows[1..], version, o);
    }
  }

  // A row of the window is older only when all newer versions fit before it.
  lemma WindowReachesOlder(defs: map<Id, Definition>, id: Id, rows: seq<Id>, o: Id)
    requires id in defs && VersionsUnique(defs) && TopFive(defs, id, rows) && o in rows && o in Older(defs, id)
    ensures |Newer(defs, id)| <= 4
  {
    forall n | n in Newer(defs, id) ensures n in rows && n != o {
      assert n in Others(defs, id);
      var i :| 0 <= i < |rows| && rows[i] == o;
    }
    Fits(Newer(defs, id) + {o}, rows);
    assert |Newer(defs, id) + {o}| == |Newer(defs, id)| + 1;
  }

  lemma {:induction false} Fits(s: set<Id>, rows: seq<Id>)
    requires forall x :: x in s ==> x in rows
    ensures |s| <= |rows|
    decreases |rows|
  {
    if rows == [] {
      assert s == {};
    } else {
      var last := rows[|rows| - 1];
      Fits(s - {last}, rows[..|rows| - 1]);
      assert |s| <= |s - {last}| + 1 by {
        if last in s { assert s == (s - {last}) + {last}; } else { assert s - {last} == s; }
      }
    }
  }

  lemma {:induction false} Spread(s: set<Id>, rows: seq<Id>)
    requires forall i :: 0 <= i < |rows| ==> rows[i] in s
    requires forall i, j :: 0 <= i < j < |rows| ==> rows[i] != rows[j]
    ensures |rows| <= |s|
    decreases |rows|
  {
    if rows != [] {
      var last := rows[|rows| - 1];
      Spread(s - {last}, rows[..|rows| - 1]);
      assert s == (s - {last}) + {last};
    }
  }

  // With four newer versions at most, the window holds the greatest older one.
  lemma WindowHoldsGreatest(defs: map<Id, Definition>, id: Id, rows: seq<Id>, target: Id)
    requires id in defs && VersionsUnique(defs) && TopFive(defs, id, rows) && GreatestOlder(defs, id, target)
    requires |Newer(defs, id)| <= 4
    ensures target in rows
  {
    assert target in Others(defs, id);
    if target !in rows {
      forall i | 0 <= i < |rows| ensures rows[i] in Newer(defs, id) {
        assert defs[target].version <= defs[rows[i]].version;
        assert rows[i] !in Older(defs, id);
      }
      Spread(Newer(defs, id), rows);
    }
  }

  lemma {:induction false} GreatestExists(defs: map<Id, Definition>, s: set<Id>) returns (g: Id)
    requires s != {} && s <= defs.Keys
    ensures g in s && forall o :: o in s ==> defs[o].version <= defs[g].version
  {
    g :| g in s;
    if s != {g} {
      var other := GreatestExists(defs, s - {g});
      if defs[other].version > defs[g].version { g := other; }
    }
  }

  // The default target of a rollback: the greatest older version, found exactly
  // when there is an older version and at most four newer ones. Otherwise the
  // preview names a newer version, which the rollback refuses, or none.
  lemma DefaultTarget(defs: map<Id, Definition>, id: Id, rows: seq<Id>)
    requires id in defs && VersionsUnique(defs) && TopFive(defs, id, rows)
    ensures var target := SelectedTarget(defs, rows, defs[id].version);
            && (target.Some? && target.value in Older(defs, id) <==> Older(defs, id) != {} && |Newer(defs, id)| <= 4)
            && (target.Some? && target.value in Older(defs, id) ==> GreatestOlder(defs, id, target.value))
            && (target.Some? && target.value !in Older(defs, id) ==> target.value in Newer(defs, id))
            && (target.None? <==> Others(defs, id) == {})
  {
    var version := defs[id].version;
    var older := FirstOlder(defs, rows, version);
    if older.Some? {
      assert older.value in Others(defs, id) && older.value in Older(defs, id);
      WindowReachesOlder(defs, id, rows, older.value);
    }
    if Older(defs, id) != {} && |Newer(defs, id)| <= 4 {
      var g := GreatestExists(defs, Older(defs, id));
      WindowHoldsGreatest(defs, id, rows, g);
      FirstOlderGreatest(defs, rows, version, g);
    }
    if rows != [] { assert rows[0] in Others(defs, id); }
    forall o | o in Others(defs, id) ensures o in Older(defs, id) || o in Newer(defs, id) {}
  }

  // ---- The registry ---------------------------------------------------------

  function RollbackConfidence(target: int, source: int): int {
    Clamp(0, 99, if target != 0 then target else source)
  }

  // A promotion whose report met the thresholds it was held against.
  predicate Gated(e: Entry) {
    e.Promotion? && e.errors == 0 && e.score >= e.minimumScore && e.coverage >= e.minimumCoverage
  }

  // What a definition and the way it came into its state keep: a reusing one went
  // through the gates, or was restored by a rollback from a newer version of its key.
  predicate Kept(tables: Tables, defs: map<Id, Definition>, id: Id, e: Entry)
    requires id in defs
  {
    var d := defs[id];
    && 0 <= d.confidence <= 99
    && (d.revoked ==> d.scope.None? && d.confidence == 0)
    && (Reusing(tables, d.state) ==>
        Gated(e) || (e.RollbackTarget? && e.source in Newer(defs, id)) || e == Created(d.state))
  }

  predicate AllKept(tables: Tables, defs: map<Id, Definition>, entries: map<Id, Entry>) {
    defs.Keys == entries.Keys && forall id | id in defs :: Kept(tables, defs, id, entries[id])
  }

  // Nobody was added or renumbered.
  predicate SameVersions(defs: map<Id, Definition>, defs': map<Id, Definition>) {
    && defs'.Keys == defs.Keys
    && forall id :: id in defs ==> defs'[id].key == defs[id].key && defs'[id].version == defs[id].version
  }

  lemma SameVersionsNewer(defs: map<Id, Definition>, defs': map<Id, Definition>, id: Id)
    requires SameVersions(defs, defs') && id in defs
    ensures Newer(defs', id) == Newer(defs, id) && Older(defs', id) == Older(defs, id)
  {
    forall o ensures o in Newer(defs', id) <==> o in Newer(defs, id) {
      assert o in defs' <==> o in defs;
    }
    forall o ensures o in Older(defs', id) <==> o in Older(defs, id) {
      assert o in defs' <==> o in defs;
    }
  }

  // Changing one definition's promotion keeps what all others keep.
  lemma OthersKept(tables: Tables, defs: map<Id, Definition>, defs': map<Id, Definition>, id: Id, e: Entry)
    requires SameVersions(defs, defs') && id in defs && defs'[id] == defs[id] && Kept(tables, defs, id, e)
    ensures Kept(tables, defs', id, e)
  {
    SameVersionsNewer(defs, defs', id);
  }

  // A definition's promotion may change to anything that keeps its own share.
  lemma UpdateKept(tables: Tables, defs: map<Id, Definition>, entries: map<Id, Entry>, id: Id, d: Definition, e: Entry)
    requires VersionsUnique(defs) && AllKept(tables, defs, entries) && id in defs
    requires d.key == defs[id].key && d.version == defs[id].version && 0 <= d.confidence <= 99
    requires d.revoked ==> d.scope.None? && d.confidence == 0
    requires Reusing(tables, d.state) ==> Gated(e) || (e.RollbackTarget? && e.source in Newer(defs, id))
    ensures VersionsUnique(defs[id := d]) && AllKept(tables, defs[id := d], entries[id := e])
            && SameVersions(defs, defs[id := d])
  {
    var defs', entries' := defs[id := d], entries[id := e];
    assert SameVersions(defs, defs');
    SameVersionsNewer(defs, defs', id);
    forall o | o in defs' ensures o in entries' && Kept(tables, defs', o, entries'[o]) {
      if o != id { OthersKept(tables, defs, defs', o, entries[o]); }
    }
    forall a, b | a in defs' && b in defs' && SameKey(defs', a, b) && defs'[a].version == defs'[b].version
      ensures a == b
    {
      assert SameKey(defs, a, b);
    }
  }

  // A new definition changes nothing for those already there.
  lemma AddedKept(tables: Tables, defs: map<Id, Definition>, added: Id, d: Definition, id: Id, e: Entry)
    requires added !in defs && id in defs && Kept(tables, defs, id, e)
    ensures Kept(tables, defs[added := d], id, e)
  {
    assert Newer(defs, id) <= Newer(defs[added := d], id);
  }

  // The gates of the promotion route, all of them, for a target that enables reuse.
  predicate ReuseAdmitted(tables: Tables, d: Definition, scope: Option<string>, policy: Policy, report: Report) {
    && !d.statusTerminal && !Dispatchable(tables, d.state)
    && (policy.requiresScope ==> scope.Some?) && (scope.Some? ==> scope.value !in policy.disallowed)
    && report.errors == 0
    && policy.minimumScore.Some? && report.score >= policy.minimumScore.value
    && policy.minimumCoverage.Some? && report.coverage >= policy.minimumCoverage.value
  }

  // The transition the action names, if it is allowed by hand and its target is configured.
  predicate Allowed(tables: Tables, from: Status, action: string) {
    var t := TransitionOf(tables, from, action);
    t.Some? && t.value.manualAllowed && t.value.to in tables.states
  }

  function IsTerminal(state: StateDef): bool { state.terminal }

  function Initially(key: string, version: int, statusTerminal: bool, initial: Status): Definition {
    Definition(key, version, statusTerminal, initial, None, 0, false, false)
  }

  class Registry {
    // The lifecycle tables of the promotion state.
    const tables: Tables
    var defs: map<Id, Definition>
    ghost var entries: map<Id, Entry>

    ghost predicate Valid()
      reads this
    {
      VersionsUnique(defs) && AllKept(tables, defs, entries)
    }

    constructor (tables: Tables)
      ensures Valid() && this.tables == tables && defs == map[]
    {
      this.tables, defs, entries := tables, map[], map[];
    }

    // A new version of a key, in the configured initial state.
    method Create(id: Id, key: string, version: int, statusTerminal: bool, initial: Status) returns (ok: bool)
      requires Valid()
      modifies this
      ensures Valid()
      ensures ok <==>
                && id !in old(defs)
                && forall o | o in old(defs) :: old(defs)[o].key != key || old(defs)[o].version != version
      ensures defs == if ok then old(defs)[id := Initially(key, version, statusTerminal, initial)] else old(defs)
      ensures entries == if ok then old(entries)[id := Created(initial)] else old(entries)
      ensures ok ==> var d := defs[id];
                     && d.key == key && d.version == version && d.state == initial && d.statusTerminal == statusTerminal
                     && d.scope.None? && d.confidence == 0 && !d.promoted && !d.revoked
    {
      ok := id !in defs && forall o | o in defs :: defs[o].key != key || defs[o].version != version;
      if ok {
        var d := Initially(key, version, statusTerminal, initial);
        forall o | o in defs ensures Kept(tables, defs[id := d], o, entries[o]) {
          AddedKept(tables, defs, id, d, o, entries[o]);
        }
        defs := defs[id := d];
        entries := entries[id := Created(initial)];
      }
    }

    // PATCH /workflow-definitions/:id/promotion. A reusing state is entered only, and
    // always, through the gates; any other target withdraws.
    method Promote(id: Id, action: string, scope: Option<string>, policy: Policy, report: Report)
      returns (answer: Answer)
      requires Valid()
      modifies this
      ensures Valid()
      ensures answer.Done? <==>
                && id in old(defs) && Allowed(tables, old(defs)[id].state, action)
                && (Reusing(tables, TransitionOf(tables, old(defs)[id].state, action).value.to) ==>
                      ReuseAdmitted(tables, old(defs)[id], scope, policy, report))
      ensures !answer.Done? ==> defs == old(defs) && entries == old(entries)
      ensures answer.Done? ==>
                && id in defs && id in entries && SameVersions(old(defs), defs)
                && defs == old(defs)[id := defs[id]] && entries == old(entries)[id := entries[id]]
                && var to := TransitionOf(tables, old(defs)[id].state, action).value.to;
                   && defs[id].state == to && defs[id].statusTerminal == old(defs)[id].statusTerminal
                   && if Reusing(tables, to) then
                        && report.score >= policy.minimumScore.value && report.coverage >= policy.minimumCoverage.value
                        && entries[id] == Entry.Promotion(0, report.score, report.coverage,
                                                          policy.minimumScore.value, policy.minimumCoverage.value)
                        && defs[id].scope == scope && defs[id].promoted && !defs[id].revoked
                        && defs[id].confidence == Confidence.Promotion(0, report.score, report.coverage)
                        && (report.score >= 60.0 && report.coverage >= 50.0 ==> defs[id].confidence >= 57)
                      else
                        && entries[id].Withdrawn? && defs[id].revoked && !defs[id].promoted
                        && defs[id].scope.None? && defs[id].confidence == 0
    {
      if id !in defs { return NotFound; }
      var d := defs[id];
      var t := TransitionOf(tables, d.state, action);
      if t.None? || !t.value.manualAllowed { return BadRequest; }
      if t.value.to !in tables.states { return ServerError; }
      var reuse := Reusing(tables, t.value.to);
      if reuse {
        if (policy.requiresScope && scope.None?) || (scope.Some? && scope.value in policy.disallowed) {
          return BadRequest;
        }
        if policy.minimumScore.None? || policy.minimumCoverage.None? { return ServerError; }
        if d.statusTerminal || Dispatchable(tables, d.state) || report.errors > 0 { return BadRequest; }
        if report.score < policy.minimumScore.value || report.coverage < policy.minimumCoverage.value {
          return BadRequest;
        }
      }
      PromotionBounds(report.errors, report.score, report.coverage);
      var confidence := Confidence.Promotion(report.errors, report.score, report.coverage);
      d := d.(state := t.value.to, scope := if reuse then scope else None,
              confidence := if reuse then confidence else 0, promoted := reuse, revoked := !reuse);
      ghost var e := if reuse then Entry.Promotion(report.errors, report.score, report.coverage,
                                                   policy.minimumScore.value, policy.minimumCoverage.value)
                     else Withdrawn;
      UpdateKept(tables, defs, entries, id, d, e);
      defs := defs[id := d];
      entries := entries[id := e];
      return Done;
    }

    // The query of workflowDefinitionRollbackPreview.
    method PreviewRows(id: Id) returns (rows: seq<Id>)
      requires id in defs
      ensures TopFive(defs, id, rows)
    {
      var rest := Others(defs, id);
      rows := [];
      while |rows| < 5 && rest != {}
        invariant |rows| <= 5 && rest <= Others(defs, id)
        invariant forall o :: o in Others(defs, id) <==> o in rest || o in rows
        invariant forall i :: 0 <= i < |rows| ==> rows[i] !in rest
        invariant forall i, j :: 0 <= i < j < |rows| ==>
                  rows[i] != rows[j] && defs[rows[i]].version >= defs[rows[j]].version
        invariant forall o, i :: o in rest && 0 <= i < |rows| ==> defs[o].version <= defs[rows[i]].version
        decreases rest
      {
        ghost var g := GreatestExists(defs, rest);
        var next :| next in rest && forall o | o in rest :: defs[o].version <= defs[next].version;
        rows, rest := rows + [next], rest - {next};
      }
    }

    // The target workflowDefinitionRollbackPreview selects.
    method PreviewTarget(id: Id) returns (target: Option<Id>)
      requires id in defs && VersionsUnique(defs)
      ensures target.Some? ==> target.value in defs
      ensures target.Some? && target.value in Older(defs, id) ==> GreatestOlder(defs, id, target.value)
      ensures target.Some? && target.value in Older(defs, id) <==>
              |Newer(defs, id)| <= 4 && exists g | g in defs :: GreatestOlder(defs, id, g)
    {
      var rows := PreviewRows(id);
      DefaultTarget(defs, id, rows);
      GreatestOlderOnly(defs, id);
      target := SelectedTarget(defs, rows, defs[id].version);
    }

    // The target of a rollback, or why there is none: it has to be an older version of the same key.
    method ChooseTarget(id: Id, explicit: Option<Id>) returns (refusal: Option<Answer>, target: Id)
      requires id in defs && VersionsUnique(defs)
      ensures refusal.None? ==> target in defs && target in Older(defs, id)
      ensures refusal.Some? ==> refusal.value.BadRequest? || refusal.value.NotFound?
      ensures refusal == Some(NotFound) <==> explicit.Some? && explicit.value !in defs
      ensures explicit.Some? ==>
                (refusal.None? <==> explicit.value in defs && explicit.value in Older(defs, id))
                && (refusal.None? ==> target == explicit.value)
      ensures explicit.None? ==>
                (refusal.None? <==> |Newer(defs, id)| <= 4 && exists g | g in defs :: GreatestOlder(defs, id, g))
                && (refusal.None? ==> forall g :: GreatestOlder(defs, id, g) <==> g == target)
    {
      GreatestOlderOnly(defs, id);
      var selected := PreviewTarget(id);
      selected := if explicit.Some? then explicit else selected;
      if selected.None? { return Some(BadRequest), id; }
      if selected.value !in defs { return Some(NotFound), id; }
      var t := defs[selected.value];
      if t.key != defs[id].key || t.version >= defs[id].version { return Some(BadRequest), id; }
      return None, selected.value;
    }

    // Its transitions and its transaction.
    method ApplyRollback(id: Id, target: Id) returns (answer: Answer)
      requires Valid() && id in defs && target in defs && target in Older(defs, id)
      modifies this
      ensures Valid()
      ensures answer.Done? <==> Restorable(tables, old(defs), id, target)
      ensures answer.Done? || answer.Conflict? || answer.ServerError?
      ensures answer.Conflict? ==> NoWay(tables, old(defs)[id].state, IsTerminal)
                                   || NoWay(tables, old(defs)[target].state, IsDispatchable)
      ensures defs == if answer.Done? then RolledBack(tables, old(defs), id, target) else old(defs)
      ensures entries == if answer.Done? then old(entries)[id := Withdrawn][target := RollbackTarget(id)]
              else old(entries)
    {
      var d, t := defs[id], defs[target];
      var sourceTo := SelectManual(tables, d.state, IsTerminal);
      var targetTo := SelectManual(tables, t.state, IsDispatchable);
      hide OnlyWay, NoWay;
      SelectedWay(tables, d.state, IsTerminal);
      SelectedWay(tables, t.state, IsDispatchable);
      if sourceTo.Ambiguous? || targetTo.Ambiguous? { return ServerError; }
      if sourceTo.Missing? || targetTo.Missing? { return Conflict; }
      RollbackKeeps(tables, defs, entries, id, target);
      defs := defs[id := Withdraw(d, sourceTo.to)];
      defs := defs[target := Restore(t, d, targetTo.to)];
      entries := entries[id := Withdrawn][target := RollbackTarget(id)];
      return Done;
    }

    // POST /workflow-definitions/:id/rollback, to `explicit` or to the preview's target.
    method Rollback(id: Id, explicit: Option<Id>) returns (answer: Answer, target: Id)
      requires Valid()
      modifies this
      ensures Valid()
      ensures answer.Done? ==> id in old(defs) && target in old(defs) && Restorable(tables, old(defs), id, target)
      ensures defs == if answer.Done? then RolledBack(tables, old(defs), id, target) else old(defs)
      ensures entries == if answer.Done? then old(entries)[id := Withdrawn][target := RollbackTarget(id)]
              else old(entries)
      // The restored version takes over the scope, or is given one of its own; it keeps
      // its confidence if it has one, and takes over the source's if not; it is promoted,
      // not revoked, and where its one way back into use leads.
      ensures answer.Done? ==>
                && id in defs && target in defs && target != id
                && Restores(tables, old(defs)[id], old(defs)[target], defs[target])
      // The source is withdrawn, and nobody else changes.
      ensures answer.Done? ==>
                && defs.Keys == old(defs).Keys && Withdraws(tables, old(defs)[id], defs[id])
                && forall o :: o in defs && o != id && o != target ==> defs[o] == old(defs)[o]
      // Refusals: no such version, a transition missing or ambiguous, or no such target.
      ensures answer.NotFound? <==> id !in old(defs) || (explicit.Some? && explicit.value !in old(defs))
      ensures answer.Conflict? ==> id in old(defs) && target in Older(old(defs), id)
                                   && (NoWay(tables, old(defs)[id].state, IsTerminal)
                                       || NoWay(tables, old(defs)[target].state, IsDispatchable))
      ensures answer.ServerError? ==> id in old(defs) && target in Older(old(defs), id)
      ensures explicit.Some? ==>
                (answer.Done? <==>
                  && id in old(defs) && explicit.value in old(defs)
                  && Restorable(tables, old(defs), id, explicit.value))
                && (answer.Done? ==> target == explicit.value)
      // Without an explicit target: to the greatest older version, exactly when there
      // is one, at most four are newer, and both transitions are configured.
      ensures explicit.None? && answer.Done? ==> GreatestOlder(old(defs), id, target)
      ensures explicit.None? ==>
                (answer.Done? <==>
                  && id in old(defs) && |Newer(old(defs), id)| <= 4
                  && exists g | g in old(defs) ::
                     GreatestOlder(old(defs), id, g) && Restorable(tables, old(defs), id, g))
    {
      hide OnlyWay, NoWay, Restores, Withdraws, GreatestOlder, Kept;
      target := id;
      if id !in defs { return NotFound, target; }
      var refusal;
      refusal, target := ChooseTarget(id, explicit);
      if refusal.Some? { return refusal.value, target; }
      if Restorable(tables, defs, id, target) { RestoredRows(tables, defs, entries, id, target); }
      answer := ApplyRollback(id, target);
    }
  }

  // An older version of the same key, with a way out for the source and back in for the target.
  predicate Restorable(tables: Tables, defs: map<Id, Definition>, id: Id, target: Id)
    requires id in defs && target in defs
  {
    && target in Older(defs, id)
    && SelectManual(tables, defs[id].state, IsTerminal).Unique?
    && SelectManual(tables, defs[target].state, IsDispatchable).Unique?
  }

  function DefaultScope(key: string, version: int): string {
    "definition:" + key + ":v" + VersionText(version)
  }

  // The source of a rollback.
  function Withdraw(d: Definition, to: Status): Definition {
    d.(state := to, scope := None, confidence := 0, revoked := true)
  }

  // Its target, which takes over the scope, and the confidence if it has none.
  function Restore(t: Definition, source: Definition, to: Status): Definition {
    var scope := if source.scope.Some? then source.scope.value else DefaultScope(source.key, t.version);
    t.(state := to, scope := Some(scope),
       promoted := true, revoked := false, confidence := RollbackConfidence(t.confidence, source.confidence))
  }

  function RolledBack(tables: Tables, defs: map<Id, Definition>, id: Id, target: Id): map<Id, Definition>
    requires id in defs && target in defs && Restorable(tables, defs, id, target)
  {
    var d, t := defs[id], defs[target];
    defs[id := Withdraw(d, SelectManual(tables, d.state, IsTerminal).to)]
        [target := Restore(t, d, SelectManual(tables, t.state, IsDispatchable).to)]
  }

  // What a rollback makes of its target.
  predicate Restores(tables: Tables, source: Definition, t: Definition, t': Definition) {
    && t' == t.(state := t'.state, scope := t'.scope, confidence := t'.confidence, promoted := true, revoked := false)
    && t'.scope == (if source.scope.Some? then source.scope
                    else Some("definition:" + source.key + ":v" + VersionText(t.version)))
    && t'.confidence == (if t.confidence != 0 then t.confidence else source.confidence)
    && OnlyWay(tables, t.state, IsDispatchable, t'.state)
  }

  // And of its source.
  predicate Withdraws(tables: Tables, d: Definition, d': Definition) {
    && d' == d.(state := d'.state, scope := None, confidence := 0, revoked := true)
    && OnlyWay(tables, d.state, IsTerminal, d'.state)
  }

  // The two rows of a rollback.
  lemma RestoredRows(tables: Tables, defs: map<Id, Definition>, entries: map<Id, Entry>, id: Id, target: Id)
    requires AllKept(tables, defs, entries)
    requires id in defs && target in defs && Restorable(tables, defs, id, target)
    ensures var defs' := RolledBack(tables, defs, id, target);
            && target != id && defs'.Keys == defs.Keys
            && Restores(tables, defs[id], defs[target], defs'[target]) && Withdraws(tables, defs[id], defs'[id])
            && forall o :: o in defs && o != id && o != target ==> defs'[o] == defs[o]
  {
    assert Kept(tables, defs, id, entries[id]) && Kept(tables, defs, target, entries[target]);
    SelectedWay(tables, defs[target].state, IsDispatchable);
    SelectedWay(tables, defs[id].state, IsTerminal);
  }

  // A rollback withdraws its source and puts its target back in use, within the
  // bounds of confidence; nobody else changes, and no version or key does.
  lemma RollbackKeeps(tables: Tables, defs: map<Id, Definition>, entries: map<Id, Entry>, id: Id, target: Id)
    requires VersionsUnique(defs) && AllKept(tables, defs, entries)
    requires id in defs && target in defs && Restorable(tables, defs, id, target)
    ensures var defs' := RolledBack(tables, defs, id, target);
            && VersionsUnique(defs') && SameVersions(defs, defs')
            && AllKept(tables, defs', entries[id := Withdrawn][target := RollbackTarget(id)])
            && !Reusing(tables, defs'[id].state) && Dispatchable(tables, defs'[target].state)
            && (forall o :: o in defs && o != id && o != target ==> defs'[o] == defs[o])
  {
    var d, t := defs[id], defs[target];
    var source := Withdraw(d, SelectManual(tables, d.state, IsTerminal).to);
    UpdateKept(tables, defs, entries, id, source, Withdrawn);
    var between := defs[id := source];
    assert between[target] == t && id in Newer(between, target);
    UpdateKept(tables, between, entries[id := Withdrawn], target,
               Restore(t, d, SelectManual(tables, t.state, IsDispatchable).to), RollbackTarget(id));
  }

  // The decimal form of a version number.
  function VersionText(version: int): string {
    if version < 0 then "-" + Digits(-version) else Digits(version)
  }

  function Digits(n: nat): string {
    (if n < 10 then "" else Digits(n / 10)) + ['0' + (n % 10) as char]
  }

  // The number a text of digits stands for.
  function Numeral(text: string): int {
    if text == "" then 0 else 10 * Numeral(text[..|text| - 1]) + text[|text| - 1] as int - '0' as int
  }

  lemma NumeralAppend(text: string, c: char)
    ensures Numeral(text + [c]) == 10 * Numeral(text) + (c as int - '0' as int)
  {
    assert (text + [c])[..|text|] == text;
  }

  predicate IsDigit(c: char) { '0' <= c <= '9' }

  lemma DigitChar(n: nat) returns (c: char)
    requires n < 10
    ensures c == '0' + n as char && IsDigit(c) && c as int - '0' as int == n && (c == '0' <==> n == 0)
  {
    c := '0' + n as char;
  }

  // A version number is written in decimal, without leading zeros.
  lemma {:induction false} DigitsRead(n: nat)
    ensures Digits(n) != "" && Numeral(Digits(n)) == n && forall c :: c in Digits(n) ==> IsDigit(c)
    ensures Digits(n)[0] == '0' <==> n == 0
  {
    hide IsDigit, Numeral;
    var c := DigitChar(n % 10);
    var prefix := if n < 10 then "" else Digits(n / 10);
    assert Digits(n) == prefix + [c];
    NumeralAppend(prefix, c);
    if n >= 10 { DigitsRead(n / 10); } else { NumeralEmpty(); }
  }

  lemma NumeralEmpty()
    ensures Numeral("") == 0
  {
  }

  lemma VersionTextRead(version: int)
    ensures version >= 0 ==> Numeral(VersionText(version)) == version && VersionText(version)[0] != '-'
    ensures version < 0 ==> VersionText(version)[0] == '-' && Numeral(VersionText(version)[1..]) == -version
  {
    DigitsRead(if version < 0 then -version else version);
    assert version >= 0 ==> VersionText(version)[0] in VersionText(version);
  }

  // So definitions without a scope never share the one a rollback gives them.
  lemma DefaultScopesDiffer(key: string, v: int, w: int)
    ensures DefaultScope(key, v) == DefaultScope(key, w) ==> v == w
  {
    VersionTextRead(v);
    VersionTextRead(w);
    var prefix := "definition:" + key + ":v";
    assert DefaultScope(key, v)[|prefix|..] == VersionText(v) && DefaultScope(key, w)[|prefix|..] == VersionText(w);
  }

  lemma GreatestOlderOnly(defs: map<Id, Definition>, id: Id)
    requires id in defs && VersionsUnique(defs)
    ensures Older(defs, id) != {} <==> exists g | g in defs :: GreatestOlder(defs, id, g)
    ensures forall a, b :: GreatestOlder(defs, id, a) && GreatestOlder(defs, id, b) ==> a == b
  {
    if Older(defs, id) != {} {
      var g := GreatestExists(defs, Older(defs, id));
      assert GreatestOlder(defs, id, g);
    }
  }

  // ---- Chains of rollbacks --------------------------------------------------

  // `ids[i + 1]` is what a rollback from `ids[i]` restored; between two of them
  // anything may be promoted, withdrawn or rolled back, but no version is added.
  predicate Chain(tables: Tables, maps: seq<map<Id, Definition>>, ids: seq<Id>) {
    && |maps| == |ids|
    && (forall i :: 0 <= i < |ids| ==> ids[i] in maps[i])
    && (forall i :: 0 <= i < |ids| - 1 ==>
          && ids[i + 1] in maps[i] && Restorable(tables, maps[i], ids[i], ids[i + 1])
          && SameVersions(RolledBack(tables, maps[i], ids[i], ids[i + 1]), maps[i + 1]))
  }

  lemma RollbackSameVersions(tables: Tables, defs: map<Id, Definition>, id: Id, target: Id)
    requires id in defs && target in defs && Restorable(tables, defs, id, target)
    ensures SameVersions(defs, RolledBack(tables, defs, id, target))
  {
  }

  // Rollbacks from the version just restored never come back: versions strictly
  // descend, and there are no more of them than older versions to begin with.
  lemma {:induction false} ChainsEnd(tables: Tables, maps: seq<map<Id, Definition>>, ids: seq<Id>)
    requires ids != [] && Chain(tables, maps, ids)
    ensures |ids| <= |Older(maps[0], ids[0])| + 1
    ensures forall i, j :: 0 <= i < j < |ids| ==> ids[i] in maps[0] && ids[j] in Older(maps[0], ids[i])
    decreases |ids|
  {
    if |ids| > 1 {
      var older := Older(maps[0], ids[0]);
      RollbackSameVersions(tables, maps[0], ids[0], ids[1]);
      assert SameVersions(maps[0], maps[1]);
      TailChain(tables, maps, ids);
      ChainsEnd(tables, maps[1..], ids[1..]);
      SameVersionsNewer(maps[0], maps[1], ids[1]);
      assert older == (older - {ids[1]}) + {ids[1]};
      Subset(Older(maps[0], ids[1]), older - {ids[1]});
      forall i, j | 0 <= i < j < |ids| ensures ids[i] in maps[0] && ids[j] in Older(maps[0], ids[i]) {
        if i > 0 {
          assert ids[i] == ids[1..][i - 1] && ids[j] == ids[1..][j - 1];
          SameVersionsNewer(maps[0], maps[1], ids[i]);
        } else if j > 1 {
          assert ids[j] == ids[1..][j - 1] && ids[1..][0] == ids[1];
          assert ids[j] in Older(maps[0], ids[1]);
        }
      }
    }
  }

  lemma TailChain(tables: Tables, maps: seq<map<Id, Definition>>, ids: seq<Id>)
    requires |ids| > 1 && Chain(tables, maps, ids)
    ensures Chain(tables, maps[1..], ids[1..])
  {
    assert forall i :: 0 <= i < |ids[1..]| ==> ids[1..][i] == ids[i + 1] && maps[1..][i] == maps[i + 1];
  }

  lemma Subset(a: set<Id>, b: set<Id>)
    requires a <= b
    ensures |a| <= |b|
  {
    assert b == a + (b - a);
  }
}
