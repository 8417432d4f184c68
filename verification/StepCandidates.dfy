/**
 Step candidates: nominated by partial feedback on a run, reviewed, validated
 and promoted. Every route is a method on the one table; what `Valid` says holds
 after any sequence of them.
 */
module StepCandidates {
  import opened Json
  import opened Lifecycle
  import opened Text
  import StepLibrary

  type Id = string

  datatype Rating = Ok | NotOk | Partial

  // One entry of a run's timeline; its index is its position.
  datatype Step = Step(id: Option<string>, name: string, action: Option<string>, kind: Option<string>,
                       status: Option<string>)

  datatype Candidate = Candidate(stepId: Option<string>, step: Step, state: Status, libraryState: Status, lastGood: int,
                                 note: Option<string>, contract: Value, evidence: Value, validated: bool,
                                 scope: Option<string>, promoted: bool, revoked: bool)

  datatype Feedback = Feedback(rating: Rating, lastGood: Option<int>, note: Option<string>)

  datatype Answer = Done | BadRequest | NotFound | NotAllowed | ServerError

  // (run, step index) is unique.
  datatype Key = Key(run: Id, index: nat)

  // The insert-or-update of one nominated step.
  function Nominated(existing: Option<Candidate>, step: Step, initial: Status, library: Status, boundary: int,
                     note: Option<string>): Candidate
  {
    match existing
    case None =>
      Candidate(step.id, step, initial, library, boundary, note, Object([]), Object([]), false, None, false, false)
    case Some(c) =>
      if c.state != initial then c else c.(step := step, lastGood := boundary, note := note)
  }

  function At(candidates: map<Key, Candidate>, key: Key): Option<Candidate> {
    if key in candidates then Some(candidates[key]) else None
  }

  // Index `index` of `run` is at or before some accepted boundary.
  ghost predicate Nominates(boundaries: set<(Id, int)>, run: Id, index: nat) {
    exists b :: (run, b) in boundaries && index <= b
  }

  predicate Sound(key: Key, c: Candidate) {
    && key.index <= c.lastGood
    && (c.validated ==> StepLibrary.Validated(c.contract, c.evidence))
    && (c.revoked ==> c.scope.None?)
  }

  ghost predicate Consistent(candidates: map<Key, Candidate>, boundaries: set<(Id, int)>) {
    && (forall key: Key :: key in candidates <==> Nominates(boundaries, key.run, key.index))
    && (forall key: Key :: key in candidates ==> Sound(key, candidates[key]))
  }

  lemma UpdateConsistent(candidates: map<Key, Candidate>, boundaries: set<(Id, int)>, key: Key, c: Candidate)
    requires Consistent(candidates, boundaries) && key in candidates && Sound(key, c)
    ensures Consistent(candidates[key := c], boundaries)
  {
  }

  // The candidates after a whole nomination.
  ghost predicate Extended(candidates: map<Key, Candidate>, after: map<Key, Candidate>, run: Id, timeline: seq<Step>,
                           initial: Status, library: Status, boundary: int, note: Option<string>)
  {
    && (forall key: Key :: key in after <==>
        key in candidates || (key.run == run && key.index < |timeline| && key.index <= boundary))
    && (forall key: Key :: key in after ==>
          if key.run == run && key.index < |timeline| && key.index <= boundary
          then after[key] == Nominated(At(candidates, key), timeline[key.index], initial, library, boundary, note)
          else after[key] == candidates[key])
  }

  lemma ExtendedConsistent(candidates: map<Key, Candidate>, boundaries: set<(Id, int)>, after: map<Key, Candidate>,
                           run: Id, timeline: seq<Step>, initial: Status, library: Status, boundary: int,
                           note: Option<string>)
    requires Consistent(candidates, boundaries)
             && Extended(candidates, after, run, timeline, initial, library, boundary, note)
    requires 0 <= boundary && (timeline != [] ==> boundary < |timeline|)
    ensures Consistent(after, if timeline == [] then boundaries else boundaries + {(run, boundary)})
  {
  }

  // ---- States reached by hand -----------------------------------------------

  // The action a request names.
  function Named(raw: string): string { Lower(Trim(raw)) }

  // White space around it and the case of its letters make no difference.
  lemma NamedMeans(before: string, raw: string, after: string)
    requires (forall c :: c in before ==> IsSpace(c)) && (forall c :: c in after ==> IsSpace(c))
    ensures Named(before + raw + after) == Named(raw)
    ensures forall c :: c in Named(raw) ==> !('A' <= c <= 'Z')
    ensures |Named(raw)| <= |raw| && (Named(raw) == "" <==> forall c :: c in raw ==> IsSpace(c))
  {
    TrimPadded(before, raw, after);
    LowerMeans(Trim(raw));
    var b, a := TrimMeans(raw);
    if Trim(raw) == "" { assert raw == b + a; } else { assert Trim(raw)[0] in raw; }
    forall c | c in Named(raw) ensures !('A' <= c <= 'Z') {
      var i :| 0 <= i < |Trim(raw)| && Named(raw)[i] == c;
    }
  }

  // Where a review takes a state; anything not allowed by hand leaves it.
  function Reviewed(t: Tables, from: Status, raw: string): Status {
    var transition := TransitionOf(t, from, Named(raw));
    if Named(raw) != "" && transition.Some? && transition.value.manualAllowed then transition.value.to else from
  }

  // The state after a series of reviews.
  function Walk(t: Tables, from: Status, path: seq<string>): Status {
    if path == [] then from else Reviewed(t, Walk(t, from, path[..|path| - 1]), path[|path| - 1])
  }

  ghost predicate ByHand(t: Tables, from: Status, state: Status) {
    exists path :: Walk(t, from, path) == state
  }

  // No series of reviews leads from the initial state to a reusable one.
  ghost predicate Sealed(t: Tables, initial: Option<Status>) {
    initial.Some? ==> forall path :: !Dispatchable(t, Walk(t, initial.value, path))
  }

  lemma ReviewedByHand(t: Tables, from: Status, state: Status, raw: string)
    requires ByHand(t, from, state)
    ensures ByHand(t, from, Reviewed(t, state, raw))
  {
    var path :| Walk(t, from, path) == state;
    assert (path + [raw])[..|path|] == path;
    assert Walk(t, from, path + [raw]) == Reviewed(t, state, raw);
  }

  // What a candidate that was never validated is in: a state reviews lead to.
  ghost predicate Unproven(t: Tables, initial: Option<Status>, c: Candidate) {
    !c.validated ==> initial.Some? && ByHand(t, initial.value, c.state)
  }

  ghost predicate AllUnproven(t: Tables, initial: Option<Status>, candidates: map<Key, Candidate>) {
    forall key: Key :: key in candidates ==> Unproven(t, initial, candidates[key])
  }

  lemma ExtendedUnproven(t: Tables, candidates: map<Key, Candidate>, after: map<Key, Candidate>, run: Id,
                         timeline: seq<Step>, initial: Status, library: Status, boundary: int, note: Option<string>)
    requires AllUnproven(t, Some(initial), candidates)
    requires Extended(candidates, after, run, timeline, initial, library, boundary, note)
    ensures AllUnproven(t, Some(initial), after)
  {
    assert Walk(t, initial, []) == initial;
    forall key: Key | key in after ensures Unproven(t, Some(initial), after[key]) {
      if key in candidates { assert Unproven(t, Some(initial), candidates[key]); }
    }
  }

  // A stored contract holds what was sent, its conditions without what is blank.
  ghost predicate ConditionsKept(sent: Value, stored: Value) {
    && StepLibrary.NonEmptyStrings(Get(stored, "preconditions"))
       == StepLibrary.NonEmptyStrings(Get(sent, "preconditions"))
    && StepLibrary.NonEmptyStrings(Get(stored, "postconditions"))
       == StepLibrary.NonEmptyStrings(Get(sent, "postconditions"))
    && forall key :: key != "preconditions" && key != "postconditions" ==> Get(stored, key) == Get(sent, key)
  }

  class Table {
    const candidateTables: Tables
    // The configured initial candidate state, if there is one.
    const initial: Option<Status>
    const libraryTables: Tables
    const runs: set<Id>
    var candidates: map<Key, Candidate>
    var feedback: map<Id, Feedback>
    // The boundaries of all partial feedback accepted for a run that had a timeline.
    ghost var boundaries: set<(Id, int)>

    ghost predicate Valid()
      reads this
    {
      Consistent(candidates, boundaries) && AllUnproven(candidateTables, initial, candidates)
    }

    constructor (candidateTables: Tables, initial: Option<Status>, libraryTables: Tables, runs: set<Id>)
      requires initial.Some? ==> Initial(candidateTables, initial.value)
      ensures Valid() && candidates == map[] && feedback == map[] && boundaries == {}
      ensures this.candidateTables == candidateTables && this.initial == initial
      ensures this.libraryTables == libraryTables && this.runs == runs
    {
      this.candidateTables, this.initial := candidateTables, initial;
      this.libraryTables, this.runs := libraryTables, runs;
      candidates, feedback, boundaries := map[], map[], {};
    }

    // A run's candidates are exactly those up to the largest accepted boundary.
    lemma CandidatesArePrefix(run: Id, top: int)
      requires Valid() && (run, top) in boundaries && forall b :: (run, b) in boundaries ==> b <= top
      ensures forall i: nat :: Key(run, i) in candidates <==> i <= top
    {
    }

    // The nomination loop: inserts into `candidates` one statement at a time;
    // statement `fails`, if it comes to that, throws.
    method NominateAll(run: Id, timeline: seq<Step>, initial: Status, library: Status, boundary: int,
                       note: Option<string>,
                       fails: Option<nat>)
      returns (ok: bool, after: map<Key, Candidate>)
      ensures ok ==> Extended(candidates, after, run, timeline, initial, library, boundary, note)
      ensures !ok ==> fails.Some?
    {
      after := candidates;
      for i := 0 to |timeline|
        invariant forall key :: key in after <==>
                  key in candidates || (key.run == run && key.index < i && key.index <= boundary)
        invariant forall key :: key in after ==>
                    if key.run == run && key.index < i && key.index <= boundary
                    then after[key] == Nominated(At(candidates, key), timeline[key.index], initial, library, boundary,
                                                 note)
                    else after[key] == candidates[key]
      {
        if i <= boundary {
          if fails == Some(i) { return false, after; }
          after := after[Key(run, i) :=
                         Nominated(At(after, Key(run, i)), timeline[i], initial, library, boundary, note)];
        }
      }
      ok := true;
    }

    // POST /workflow-runs/:id/feedback. `timeline` is the run's timeline at the time.
    method GiveFeedback(run: Id, rating: Rating, given: Option<int>, note: Option<string>, timeline: seq<Step>,
                        library: Status, fails: Option<nat>)
      returns (answer: Answer)
      requires Valid()
      modifies this
      ensures Valid()
      ensures !answer.Done? ==>
              candidates == old(candidates) && feedback == old(feedback) && boundaries == old(boundaries)
      ensures answer.BadRequest? <==>
                (rating.Partial? && given.None?) || (given.Some? && given.value < 0)
                || (run in runs && rating.Partial? && given.Some? && timeline != [] && given.value >= |timeline|)
      ensures answer.Done? ==>
                && run in runs
                && feedback == old(feedback)[run := Feedback(rating, if rating.Partial? then given else None, note)]
      ensures answer.Done? ==>
                boundaries == old(boundaries) + (if rating.Partial? && timeline != [] then {(run, given.value)} else {})
      // Only the run's own candidates still in the initial state change, and none is lost.
      ensures forall key :: key in old(candidates) ==>
                && key in candidates
                && (candidates[key] == old(candidates)[key]
                    || (key.run == run && Some(old(candidates)[key].state) == initial
                        && candidates[key].state == old(candidates)[key].state))
      ensures forall key :: key in candidates && key !in old(candidates) ==>
                && key.run == run && Some(candidates[key].state) == initial
                && !candidates[key].validated && candidates[key].contract == Object([])
      ensures answer.NotFound? ==> run !in runs
      ensures answer.ServerError? ==> rating.Partial? && (initial.None? || fails.Some?)
      ensures !answer.NotAllowed?
      // Up to the boundary: a new candidate holds its step as it was; one still in the
      // initial state takes over the step, the boundary and the note.
      ensures answer.Done? && rating.Partial? ==>
                forall i: nat :: i <= given.value && i < |timeline| ==>
                  && Key(run, i) in candidates
                  && var c := candidates[Key(run, i)];
                     if Key(run, i) !in old(candidates)
                     then c == Candidate(timeline[i].id, timeline[i], initial.value, library, given.value, note,
                                         Object([]), Object([]), false, None, false, false)
                     else if Some(old(candidates)[Key(run, i)].state) == initial
                     then c == old(candidates)[Key(run, i)].(step := timeline[i], lastGood := given.value, note := note)
                     else c == old(candidates)[Key(run, i)]
      ensures forall key :: key in candidates
                            && !(answer.Done? && rating.Partial? && key.run == run
                                 && key.index <= given.value && key.index < |timeline|) ==>
                key in old(candidates) && candidates[key] == old(candidates)[key]
    {
      if (rating.Partial? && given.None?) || (given.Some? && given.value < 0) { return BadRequest; }
      if run !in runs { return NotFound; }
      if rating.Partial? && timeline != [] && given.value >= |timeline| { return BadRequest; }
      if rating.Partial? && initial.None? { return ServerError; }
      if rating.Partial? {
        var ok, after := NominateAll(run, timeline, initial.value, library, given.value, note, fails);
        if !ok { return ServerError; }
        ExtendedUnproven(candidateTables, candidates, after, run, timeline, initial.value, library, given.value, note);
        ExtendedConsistent(candidates, boundaries, after, run, timeline, initial.value, library, given.value, note);
        candidates := after;
        boundaries := if timeline == [] then boundaries else boundaries + {(run, given.value)};
      }
      feedback := feedback[run := Feedback(rating, if rating.Partial? then given else None, note)];
      return Done;
    }

    // PATCH /workflow-step-candidates/:id/review
    method Review(key: Key, raw: string, note: Option<string>) returns (answer: Answer)
      requires Valid()
      modifies this`candidates
      ensures Valid()
      ensures answer.Done? <==>
                && Named(raw) != "" && key in old(candidates)
                && var t := TransitionOf(candidateTables, old(candidates)[key].state, Named(raw));
                   t.Some? && t.value.manualAllowed
      ensures candidates == if answer.Done? then
                old(candidates)[key := old(candidates)[key].(
                  state := Reviewed(candidateTables, old(candidates)[key].state, raw))]
                else old(candidates)
      // Validation is bypassed exactly where the action leads by hand to a reusable state.
      ensures answer.Done? ==>
                (Dispatchable(candidateTables, candidates[key].state) && !candidates[key].validated <==>
                 && Named(raw) in ManualActions(candidateTables, old(candidates)[key].state, IsDispatchable)
                 && !old(candidates)[key].validated)
    {
      var action := Named(raw);
      if action == "" { return BadRequest; }
      if key !in candidates { return NotFound; }
      var t := TransitionOf(candidateTables, candidates[key].state, action);
      if t.None? || !t.value.manualAllowed { return NotAllowed; }
      var c := candidates[key].(state := t.value.to);
      UpdateConsistent(candidates, boundaries, key, c);
      if !c.validated { ReviewedByHand(candidateTables, initial.value, candidates[key].state, raw); }
      ActionLeads(candidateTables, candidates[key].state, action);
      candidates := candidates[key := c];
      return Done;
    }

    // PATCH /workflow-step-candidates/:id/validate
    method Validate(key: Key, contract: Value, evidence: Value) returns (answer: Answer)
      requires Valid()
      modifies this`candidates
      ensures Valid()
      ensures answer.Done? <==>
                && StepLibrary.ParseValidation(contract, evidence).Validation? && key in old(candidates)
                && SelectManual(candidateTables, old(candidates)[key].state, IsDispatchable).Unique?
      ensures answer.Done? ==>
                && candidates.Keys == old(candidates).Keys
                && (forall k :: k in candidates && k != key ==> candidates[k] == old(candidates)[k])
                && candidates[key].validated && Dispatchable(candidateTables, candidates[key].state)
                && StepLibrary.Validated(candidates[key].contract, candidates[key].evidence)
      // What was sent is what is stored, its conditions trimmed; the state is where the
      // one allowed action leads; all else about the candidate stays.
      ensures answer.Done? ==>
                && candidates[key].evidence == evidence
                && ConditionsKept(contract, candidates[key].contract)
                && OnlyWay(candidateTables, old(candidates)[key].state, IsDispatchable, candidates[key].state)
                && var c := candidates[key];
                   c == old(candidates)[key].(state := c.state, contract := c.contract, evidence := evidence,
                                              validated := true)
      ensures answer.NotAllowed? ==> key in old(candidates)
                                     && NoWay(candidateTables, old(candidates)[key].state, IsDispatchable)
      ensures answer.NotFound? ==> key !in old(candidates)
      ensures !answer.Done? ==> candidates == old(candidates)
    {
      var parsed := StepLibrary.ParseValidation(contract, evidence);
      if parsed.Rejected? { return BadRequest; }
      if key !in candidates { return NotFound; }
      var selected := SelectManual(candidateTables, candidates[key].state, IsDispatchable);
      SelectedWay(candidateTables, candidates[key].state, IsDispatchable);
      if selected.Missing? { return NotAllowed; }
      if selected.Ambiguous? { return ServerError; }
      StepLibrary.ValidationPassesGates(contract, evidence);
      StepLibrary.ValidationAccepted(contract, evidence);
      var c := candidates[key].(state := selected.to, contract := parsed.contract, evidence := parsed.evidence,
                                validated := true);
      UpdateConsistent(candidates, boundaries, key, c);
      candidates := candidates[key := c];
      return Done;
    }

    // The library's view of a candidate.
    function View(key: Key, successful: bool): StepLibrary.Row
      requires key in candidates
      reads this
    {
      var c := candidates[key];
      StepLibrary.Row(c.contract, c.evidence, key.index, c.lastGood, c.scope, successful,
                      Some(Dispatchable(candidateTables, c.state)), Some(Dispatchable(libraryTables, c.libraryState)),
                      Some(Terminal(libraryTables, c.libraryState)))
    }

    // The library transition an action names, if it is allowed by hand and its target is configured.
    static predicate Promotes(t: Tables, from: Status, action: string) {
      var transition := TransitionOf(t, from, action);
      transition.Some? && transition.value.manualAllowed && transition.value.to in t.states
    }

    // Whether a promotion goes through, in the state the table is in.
    predicate Promotable(key: Key, action: string, scope: Option<string>, policy: StepLibrary.ReusePolicy,
                         successful: bool)
      reads this
    {
      && action != "" && key in candidates && Dispatchable(candidateTables, candidates[key].state)
      && Promotes(libraryTables, candidates[key].libraryState, action)
      && (Reusing(libraryTables, TransitionOf(libraryTables, candidates[key].libraryState, action).value.to) ==>
            StepLibrary.PromotionVerdict(View(key, successful), policy, scope).Promotable?)
    }

    // The checks of the promotion route, in order.
    method CheckPromotion(key: Key, action: string, scope: Option<string>, policy: StepLibrary.ReusePolicy,
                          successful: bool)
      returns (refusal: Option<Answer>)
      ensures refusal.None? <==> Promotable(key, action, scope, policy, successful)
      ensures refusal.Some? ==> !refusal.value.Done?
    {
      if action == "" { return Some(BadRequest); }
      if key !in candidates { return Some(NotFound); }
      var c := candidates[key];
      if !Dispatchable(candidateTables, c.state) { return Some(NotAllowed); }
      var t := TransitionOf(libraryTables, c.libraryState, action);
      if t.None? || !t.value.manualAllowed { return Some(NotAllowed); }
      if t.value.to !in libraryTables.states { return Some(ServerError); }
      if Reusing(libraryTables, t.value.to) {
        match StepLibrary.PromotionVerdict(View(key, successful), policy, scope)
        case Incomplete => return Some(ServerError);
        case NotReady => return Some(NotAllowed);
        case ScopeNotAllowed => return Some(BadRequest);
        case Promotable =>
      }
      return None;
    }

    // PATCH /step-library/:id/promotion. `policy` is the metadata of the target state.
    method Promote(key: Key, action: string, scope: Option<string>, policy: StepLibrary.ReusePolicy, successful: bool)
      returns (answer: Answer)
      requires Valid()
      modifies this`candidates
      ensures Valid()
      ensures answer.Done? <==> old(Promotable(key, action, scope, policy, successful))
      ensures answer.Done? ==>
                && candidates.Keys == old(candidates).Keys
                && (forall k :: k in candidates && k != key ==> candidates[k] == old(candidates)[k])
                && var to := TransitionOf(libraryTables, old(candidates)[key].libraryState, action).value.to;
                   candidates[key] == old(candidates)[key].(
                     libraryState := to, scope := if Reusing(libraryTables, to) then scope else None,
                     promoted := Reusing(libraryTables, to), revoked := Terminal(libraryTables, to))
      // A review-ready entry promoted with a scope reads back from the view as ready for limited reuse, at 1.0.
      ensures answer.Done? && Reusing(libraryTables, candidates[key].libraryState)
              && StepLibrary.ReadinessOf(old(View(key, successful))).ReviewReady?
              && scope.Some? && Trim(scope.value) != [] ==>
                && StepLibrary.ReadinessOf(View(key, successful)).LimitedReuseReady?
                && StepLibrary.Score(View(key, successful)) == 100
      // A revoked entry is promoted only where the policy allows the revoked blocker.
      ensures answer.Done? && Reusing(libraryTables, candidates[key].libraryState)
              && Terminal(libraryTables, old(candidates)[key].libraryState) ==>
                StepLibrary.LimitedReuseRevoked in policy.allowed
      ensures !answer.Done? ==> candidates == old(candidates)
    {
      hide StepLibrary.ReadinessOf, StepLibrary.Score, StepLibrary.PromotionVerdict, StepLibrary.GatesOf;
      var refusal := CheckPromotion(key, action, scope, policy, successful);
      if refusal.Some? { return refusal.value; }
      var to := TransitionOf(libraryTables, candidates[key].libraryState, action).value.to;
      var reuse := Reusing(libraryTables, to);
      ghost var row := View(key, successful);
      if reuse { StepLibrary.PromotedMeans(row, policy, scope); }
      var c := candidates[key].(libraryState := to, scope := if reuse then scope else None,
                                promoted := reuse, revoked := Terminal(libraryTables, to));
      UpdateConsistent(candidates, boundaries, key, c);
      candidates := candidates[key := c];
      assert reuse ==> View(key, successful) == StepLibrary.Promoted(row, scope);
      return Done;
    }

    // The source-step gate holds for every candidate there ever is.
    lemma SourceStepGateHolds(key: Key, successful: bool)
      requires Valid() && key in candidates
      ensures StepLibrary.GatesOf(View(key, successful)).successfulSourceStep
    {
    }

    // A candidate that went through validation passes its four gates for good,
    // whatever was done to it since.
    lemma ValidatedPassesGates(key: Key, successful: bool)
      requires Valid() && key in candidates && candidates[key].validated
      ensures var g := StepLibrary.GatesOf(View(key, successful));
              g.contractPresent && g.preconditionsPresent && g.postconditionsPresent && g.evidencePresent
    {
    }

    // Where no series of reviews reaches a reusable state, every reusable candidate
    // was validated, whatever routes were taken.
    lemma SealedMeansValidated(key: Key)
      requires Valid() && Sealed(candidateTables, initial)
      requires key in candidates && Dispatchable(candidateTables, candidates[key].state)
      ensures candidates[key].validated
    {
      assert Unproven(candidateTables, initial, candidates[key]);
    }
  }

  lemma ActionLeads(t: Tables, from: Status, action: string)
    requires (action, from) in t.transitions && t.transitions[(action, from)].manualAllowed
    ensures action in ManualActions(t, from, IsDispatchable) <==> Dispatchable(t, t.transitions[(action, from)].to)
  {
    var key := (action, from);
    assert key.0 == action && key.1 == from;
  }

  // Everywhere else it is not so: along any such series the routes themselves make
  // a candidate reusable that never passed validation and has no contract.
  method ReviewBypassesValidation(tables: Tables, initial: Status, libraryTables: Tables, path: seq<string>)
    returns (table: Table)
    requires Initial(tables, initial) && Dispatchable(tables, Walk(tables, initial, path))
    ensures table.Valid() && table.candidateTables == tables && table.initial == Some(initial)
    ensures Key("run", 0) in table.candidates && !table.candidates[Key("run", 0)].validated
    ensures Dispatchable(tables, table.candidates[Key("run", 0)].state)
    ensures !StepLibrary.GatesOf(table.View(Key("run", 0), true)).contractPresent
  {
    var key := Key("run", 0);
    table := new Table(tables, Some(initial), libraryTables, {"run"});
    var step := Step(None, "Open app", None, None, None);
    var answer := table.GiveFeedback("run", Partial, Some(0), None, [step], "none", None);
    for i := 0 to |path|
      invariant fresh(table) && table.Valid() && table.candidateTables == tables && table.initial == Some(initial)
      invariant key in table.candidates && !table.candidates[key].validated
                && table.candidates[key].contract == Object([])
      invariant table.candidates[key].state == Walk(tables, initial, path[..i])
    {
      assert path[..i + 1][..i] == path[..i];
      answer := table.Review(key, path[i], None);
    }
    assert path[..|path|] == path;
  }

  // And it is not so wherever validation can succeed at all: the transition that
  // validation takes is open to a review that names it.
  lemma ValidationOpensBypass(t: Tables, initial: Status, path: seq<string>)
    requires SelectManual(t, Walk(t, initial, path), IsDispatchable).Unique?
    requires forall action :: action in ManualActions(t, Walk(t, initial, path), IsDispatchable) ==>
               action != "" && Named(action) == action
    ensures !Sealed(t, Some(initial))
  {
    var from := Walk(t, initial, path);
    var action :| action in ManualActions(t, from, IsDispatchable);
    var longer := path + [action];
    assert longer[..|longer| - 1] == path;
    assert Walk(t, initial, longer) == Reviewed(t, from, action);
  }
}
