/**
 The step library's view of a step candidate: gates, blockers, score and
 readiness, and the contract a validation must bring.
 */
module StepLibrary {
  import opened Json
  import opened Text

  // ---- Contract fields ------------------------------------------------------

  // The trimmed, non-blank strings of a JSON array.
  function NonEmptyStrings(value: Option<Value>): seq<string> {
    if value.Some? && value.value.Array? then StringsOf(value.value.items) else []
  }

  function StringsOf(items: seq<Value>): seq<string> {
    if items == [] then []
    else (if items[0].String? && Trim(items[0].text) != [] then [Trim(items[0].text)] else []) + StringsOf(items[1..])
  }

  function AsObject(value: Value): Value {
    if value.Object? then value else Object([])
  }

  predicate HasKeys(value: Value) {
    value.Object? && value.fields != []
  }

  function Strings(texts: seq<string>): Value {
    Array(seq(|texts|, i requires 0 <= i < |texts| => String(texts[i])))
  }

  // Spread of an object with one property replaced or added.
  function With(fields: seq<Field>, key: string, value: Value): seq<Field> {
    if fields == [] then [Field(key, value)]
    else if fields[0].key == key then [Field(key, value)] + fields[1..]
    else [fields[0]] + With(fields[1..], key, value)
  }

  lemma {:induction false} WithSets(fields: seq<Field>, key: string, value: Value, other: string)
    ensures Lookup(With(fields, key, value), other) == if other == key then Some(value) else Lookup(fields, other)
    ensures With(fields, key, value) != []
  {
    if fields != [] && fields[0].key != key {
      WithSets(fields[1..], key, value, other);
      assert ([fields[0]] + With(fields[1..], key, value))[1..] == With(fields[1..], key, value);
    } else if fields != [] {
      assert ([Field(key, value)] + fields[1..])[1..] == fields[1..];
    }
  }

  lemma {:induction false} StringsOfStrings(texts: seq<string>)
    requires forall i :: 0 <= i < |texts| ==> Trim(texts[i]) == texts[i] && texts[i] != []
    ensures StringsOf(Strings(texts).items) == texts
  {
    if texts != [] {
      StringsOfStrings(texts[1..]);
      assert Strings(texts).items[1..] == Strings(texts[1..]).items;
    }
  }

  lemma {:induction false} StringsOfTrimmed(items: seq<Value>)
    ensures forall i :: 0 <= i < |StringsOf(items)| ==>
            Trim(StringsOf(items)[i]) == StringsOf(items)[i] && StringsOf(items)[i] != []
  {
    if items != [] {
      StringsOfTrimmed(items[1..]);
      if items[0].String? { TrimIdempotent(items[0].text); }
    }
  }

  // They are the strings of the array that are not blank, trimmed.
  lemma {:induction false} StringsOfMean(items: seq<Value>, text: string)
    ensures text in StringsOf(items) <==>
            text != "" && exists item | item in items :: item.String? && Trim(item.text) == text
  {
    if items != [] {
      StringsOfMean(items[1..], text);
      assert items == [items[0]] + items[1..];
    }
  }

  // Something that is not blank is listed under `key`.
  ghost predicate Lists(value: Value, key: string) {
    exists items: seq<Value>, item: Value ::
      Get(value, key) == Some(Array(items)) && item in items && item.String? && Trim(item.text) != ""
  }

  lemma ListsMean(value: Value, key: string)
    ensures Lists(value, key) <==> NonEmptyStrings(Get(value, key)) != []
  {
    var found := Get(value, key);
    if found.Some? && found.value.Array? {
      var items := found.value.items;
      if Lists(value, key) {
        var item :| item in items && item.String? && Trim(item.text) != "";
        StringsOfMean(items, Trim(item.text));
      } else if StringsOf(items) != [] {
        StringsOfMean(items, StringsOf(items)[0]);
        StringsOfTrimmed(items);
      }
    }
  }

  // ---- Validation -----------------------------------------------------------

  datatype Validation = Rejected | Validation(contract: Value, evidence: Value)

  // parseStepCandidateValidation
  function ParseValidation(contract: Value, evidence: Value): Validation {
    var c, e := AsObject(contract), AsObject(evidence);
    var pre, post := NonEmptyStrings(Get(c, "preconditions")), NonEmptyStrings(Get(c, "postconditions"));
    if pre == [] || post == [] || !HasKeys(e) then Rejected
    else
      Validation(Object(With(With(c.fields, "preconditions", Strings(pre)), "postconditions", Strings(post))), e)
  }

  // ---- The view -------------------------------------------------------------

  // One row as `rowToStepLibraryEntry` gets it. The three columns of the lifecycle
  // view are missing from a row that comes straight from the table.
  datatype Row = Row(contract: Value, evidence: Value, stepIndex: int, lastGood: int, promotionScope: Option<string>,
                     runSuccessful: bool, candidateReusable: Option<bool>, libraryReusable: Option<bool>,
                     libraryTerminal: Option<bool>)

  datatype Gates = Gates(validatedStep: bool, contractPresent: bool, preconditionsPresent: bool,
                         postconditionsPresent: bool, evidencePresent: bool, compatibilityDeclared: bool,
                         successfulSourceStep: bool, successfulSourceRun: bool, scopedReuse: bool,
                         limitedReusePromoted: bool)

  function TrimmedText(value: Option<Value>): Option<string> {
    if value.Some? && value.value.String? && Trim(value.value.text) != [] then Some(Trim(value.value.text)) else None
  }

  function PromotedScope(row: Row): Option<string> {
    if row.promotionScope.Some? && Trim(row.promotionScope.value) != [] then Some(Trim(row.promotionScope.value))
        else None
  }

  function GatesOf(row: Row): Gates {
    var contract := AsObject(row.contract);
    var compatibility := Get(contract, "compatibility");
    var scope := TrimmedText(Get(contract, "scope"));
    Gates(row.candidateReusable == Some(true),
          HasKeys(contract),
          NonEmptyStrings(Get(contract, "preconditions")) != [],
          NonEmptyStrings(Get(contract, "postconditions")) != [],
          HasKeys(AsObject(row.evidence)),
          compatibility.Some? && HasKeys(compatibility.value),
          row.stepIndex <= row.lastGood,
          row.runSuccessful,
          scope.Some? && scope.value != "manual_review",
          row.libraryReusable == Some(true) && PromotedScope(row).Some?)
  }

  // The blockers, each named in the source in lower case with underscores.
  datatype Reason =
    | MissingPreconditions | MissingPostconditions | MissingValidationEvidence | MissingCompatibility
    | SourceStepNotSucceeded | SourceRunNotCompleted | ReuseScopeNotExplicit
    | LimitedReuseNotPromoted | LimitedReuseRevoked | CompilerAutoUseDisabled

  function Blocker(blocked: bool, reason: Reason): seq<Reason> {
    if blocked then [reason] else []
  }

  // The blockers about the step itself.
  function StepBlockers(row: Row): seq<Reason> {
    var g := GatesOf(row);
    Blocker(!g.preconditionsPresent, MissingPreconditions)
    + Blocker(!g.postconditionsPresent, MissingPostconditions)
    + Blocker(!g.evidencePresent, MissingValidationEvidence)
    + Blocker(!g.compatibilityDeclared, MissingCompatibility)
    + Blocker(!g.successfulSourceStep, SourceStepNotSucceeded)
    + Blocker(!g.successfulSourceRun, SourceRunNotCompleted)
    + Blocker(!g.scopedReuse, ReuseScopeNotExplicit)
  }

  function Blockers(row: Row): seq<Reason> {
    StepBlockers(row)
    + Blocker(!GatesOf(row).limitedReusePromoted, LimitedReuseNotPromoted)
    + Blocker(row.libraryTerminal == Some(true), LimitedReuseRevoked)
    + [CompilerAutoUseDisabled]
  }

  function Tally(flag: bool): nat { if flag then 1 else 0 }

  // In hundredths: ten gates, ten each.
  function Score(row: Row): nat {
    var g := GatesOf(row);
    10 * (Tally(g.validatedStep) + Tally(g.contractPresent) + Tally(g.preconditionsPresent)
          + Tally(g.postconditionsPresent) + Tally(g.evidencePresent) + Tally(g.compatibilityDeclared)
          + Tally(g.successfulSourceStep) + Tally(g.successfulSourceRun) + Tally(g.scopedReuse)
          + Tally(g.limitedReusePromoted))
  }

  datatype Readiness = LimitedReuseReady | ReviewReady | NeedsReview

  function ReadinessOf(row: Row): Readiness {
    var blockers := Blockers(row);
    if |blockers| == 1 && blockers[0] == CompilerAutoUseDisabled then LimitedReuseReady
    else if |blockers| == 2 && LimitedReuseNotPromoted in blockers && CompilerAutoUseDisabled in blockers
        then ReviewReady
    else NeedsReview
  }

  // ---- What the readiness states mean ---------------------------------------

  // Everything about the step itself is in order.
  predicate Sound(row: Row) {
    var g := GatesOf(row);
    g.preconditionsPresent && g.postconditionsPresent && g.evidencePresent && g.compatibilityDeclared
    && g.successfulSourceStep && g.successfulSourceRun && g.scopedReuse
  }

  predicate Revoked(row: Row) { row.libraryTerminal == Some(true) }

  lemma StepBlockersMean(row: Row)
    ensures StepBlockers(row) == [] <==> Sound(row)
    ensures LimitedReuseNotPromoted !in StepBlockers(row)
  {
  }

  // Presence of preconditions implies a contract, so the contract gate never differs from them alone.
  lemma ContractGate(row: Row)
    requires GatesOf(row).preconditionsPresent
    ensures GatesOf(row).contractPresent
  {
  }

  // Both ready states, and their scores: 0.9 and 1.0 exactly for entries whose
  // candidate state is reusable, one tenth less for others.
  lemma ReadinessMeans(row: Row)
    ensures ReadinessOf(row).ReviewReady? <==> Sound(row) && !GatesOf(row).limitedReusePromoted && !Revoked(row)
    ensures ReadinessOf(row).LimitedReuseReady? <==> Sound(row) && GatesOf(row).limitedReusePromoted && !Revoked(row)
    ensures ReadinessOf(row).ReviewReady? ==>
            (Score(row) == 90 <==> row.candidateReusable == Some(true)) && Score(row) >= 80
    ensures ReadinessOf(row).LimitedReuseReady? ==>
              (Score(row) == 100 <==> row.candidateReusable == Some(true)) && Score(row) >= 90
  {
    StepBlockersMean(row);
    var s := StepBlockers(row);
    var limited := Blocker(!GatesOf(row).limitedReusePromoted, LimitedReuseNotPromoted);
    var revoked := Blocker(Revoked(row), LimitedReuseRevoked);
    assert |Blockers(row)| == |s| + |limited| + |revoked| + 1;
    if GatesOf(row).preconditionsPresent { ContractGate(row); }
    if LimitedReuseNotPromoted in Blockers(row) { assert limited != []; }
    if limited != [] { assert Blockers(row)[|s|] == LimitedReuseNotPromoted; }
    assert Blockers(row)[|Blockers(row)| - 1] == CompilerAutoUseDisabled;
  }

  // ---- A validated row passes -----------------------------------------------

  // The four gates a validation is there for.
  predicate Validated(contract: Value, evidence: Value) {
    && HasKeys(AsObject(contract))
    && NonEmptyStrings(Get(AsObject(contract), "preconditions")) != []
    && NonEmptyStrings(Get(AsObject(contract), "postconditions")) != []
    && HasKeys(AsObject(evidence))
  }

  // What a validation accepts passes the four gates once stored, with the same conditions as were sent.
  lemma ValidationPassesGates(contract: Value, evidence: Value)
    requires ParseValidation(contract, evidence).Validation?
    ensures var v := ParseValidation(contract, evidence);
            && Validated(v.contract, v.evidence)
            && NonEmptyStrings(Get(v.contract, "preconditions"))
               == NonEmptyStrings(Get(AsObject(contract), "preconditions"))
            && NonEmptyStrings(Get(v.contract, "postconditions"))
               == NonEmptyStrings(Get(AsObject(contract), "postconditions"))
            && forall key :: key != "preconditions" && key != "postconditions" ==>
                 Get(v.contract, key) == Get(AsObject(contract), key)
  {
    var c := AsObject(contract);
    var pre, post := NonEmptyStrings(Get(c, "preconditions")), NonEmptyStrings(Get(c, "postconditions"));
    var inner := With(c.fields, "preconditions", Strings(pre));
    forall key ensures Lookup(With(inner, "postconditions", Strings(post)), key) ==
                       if key == "postconditions" then Some(Strings(post))
                       else if key == "preconditions" then Some(Strings(pre)) else Lookup(c.fields, key) {
      WithSets(c.fields, "preconditions", Strings(pre), key);
      WithSets(inner, "postconditions", Strings(post), key);
    }
    WithSets(inner, "postconditions", Strings(post), "");
    StringsOfTrimmed(Get(c, "preconditions").value.items);
    StringsOfTrimmed(Get(c, "postconditions").value.items);
    StringsOfStrings(pre);
    StringsOfStrings(post);
  }

  // What is accepted: an object that lists a precondition and a postcondition, with
  // evidence; the evidence is stored as it was sent.
  lemma ValidationAccepted(contract: Value, evidence: Value)
    ensures ParseValidation(contract, evidence).Validation? <==>
            && contract.Object? && Lists(contract, "preconditions") && Lists(contract, "postconditions")
            && evidence.Object? && evidence.fields != []
    ensures ParseValidation(contract, evidence).Validation? ==>
              ParseValidation(contract, evidence).evidence == evidence
  {
    ListsMean(contract, "preconditions");
    ListsMean(contract, "postconditions");
  }

  // ---- The gates of a row, one by one ---------------------------------------

  predicate Blank(text: Option<Value>) {
    text.None? || !text.value.String? || Trim(text.value.text) == ""
  }

  // The seven gates about the step, and the three about its states.
  lemma GatesMean(row: Row)
    ensures Sound(row) <==>
            && row.contract.Object? && Lists(row.contract, "preconditions") && Lists(row.contract, "postconditions")
            && row.evidence.Object? && row.evidence.fields != []
            && (exists fields: seq<Field> :: fields != [] && Get(row.contract, "compatibility") == Some(Object(fields)))
            && row.stepIndex <= row.lastGood && row.runSuccessful
            && !Blank(Get(row.contract, "scope")) && Trim(Get(row.contract, "scope").value.text) != "manual_review"
    ensures GatesOf(row).contractPresent <==> row.contract.Object? && row.contract.fields != []
    ensures GatesOf(row).validatedStep <==> row.candidateReusable == Some(true)
    ensures GatesOf(row).limitedReusePromoted <==>
            row.libraryReusable == Some(true) && row.promotionScope.Some? && Trim(row.promotionScope.value) != ""
  {
    var compatibility := Get(row.contract, "compatibility");
    ListsMean(row.contract, "preconditions");
    ListsMean(row.contract, "postconditions");
    if Sound(row) {
      assert compatibility.value == Object(compatibility.value.fields);
    }
  }

  // ---- Promotion ------------------------------------------------------------

  // The metadata of a library state that enables reuse; the threshold in hundredths.
  datatype ReusePolicy = ReusePolicy(threshold: Option<int>, allowed: set<Reason>, requiresScope: bool,
                                     disallowed: set<string>)

  datatype Verdict = Incomplete | NotReady | ScopeNotAllowed | Promotable

  function PromotionVerdict(row: Row, policy: ReusePolicy, scope: Option<string>): Verdict {
    if policy.threshold.None? then Incomplete
    else if Score(row) < policy.threshold.value || (exists b | b in Blockers(row) :: b !in policy.allowed) then NotReady
    else if (policy.requiresScope && scope.None?) || (scope.Some? && scope.value in policy.disallowed)
        then ScopeNotAllowed
    else Promotable
  }

  // An entry is admitted at its threshold, with no blocker the policy does not allow,
  // and under a scope the policy takes.
  lemma VerdictMeans(row: Row, policy: ReusePolicy, scope: Option<string>)
    ensures PromotionVerdict(row, policy, scope).Promotable? <==>
            && policy.threshold.Some? && policy.threshold.value <= Score(row)
            && (forall b :: b in Blockers(row) ==> b in policy.allowed)
            && match scope
               case None => !policy.requiresScope
               case Some(text) => text !in policy.disallowed
    ensures PromotionVerdict(row, policy, scope).Incomplete? <==> policy.threshold.None?
    ensures PromotionVerdict(row, policy, scope).ScopeNotAllowed? ==>
              policy.threshold.Some? && policy.threshold.value <= Score(row)
  {
  }

  lemma BlockerIn(blocked: bool, reason: Reason, b: Reason)
    ensures b in Blocker(blocked, reason) <==> blocked && b == reason
  {
  }

  lemma StepBlockerMeans(row: Row, b: Reason)
    ensures b in StepBlockers(row) <==>
            var g := GatesOf(row);
            match b
            case MissingPreconditions => !g.preconditionsPresent
            case MissingPostconditions => !g.postconditionsPresent
            case MissingValidationEvidence => !g.evidencePresent
            case MissingCompatibility => !g.compatibilityDeclared
            case SourceStepNotSucceeded => !g.successfulSourceStep
            case SourceRunNotCompleted => !g.successfulSourceRun
            case ReuseScopeNotExplicit => !g.scopedReuse
            case _ => false
  {
    hide GatesOf, Blocker;
    var g := GatesOf(row);
    BlockerIn(!g.preconditionsPresent, MissingPreconditions, b);
    BlockerIn(!g.postconditionsPresent, MissingPostconditions, b);
    BlockerIn(!g.evidencePresent, MissingValidationEvidence, b);
    BlockerIn(!g.compatibilityDeclared, MissingCompatibility, b);
    BlockerIn(!g.successfulSourceStep, SourceStepNotSucceeded, b);
    BlockerIn(!g.successfulSourceRun, SourceRunNotCompleted, b);
    BlockerIn(!g.scopedReuse, ReuseScopeNotExplicit, b);
  }

  // A blocker is there exactly for the gate it names.
  lemma BlockerMeans(row: Row, b: Reason)
    ensures b in Blockers(row) <==>
            var g := GatesOf(row);
            match b
            case MissingPreconditions => !g.preconditionsPresent
            case MissingPostconditions => !g.postconditionsPresent
            case MissingValidationEvidence => !g.evidencePresent
            case MissingCompatibility => !g.compatibilityDeclared
            case SourceStepNotSucceeded => !g.successfulSourceStep
            case SourceRunNotCompleted => !g.successfulSourceRun
            case ReuseScopeNotExplicit => !g.scopedReuse
            case LimitedReuseNotPromoted => !g.limitedReusePromoted
            case LimitedReuseRevoked => row.libraryTerminal == Some(true)
            case CompilerAutoUseDisabled => true
  {
    hide GatesOf, Blocker, StepBlockers;
    StepBlockerMeans(row, b);
    BlockerIn(!GatesOf(row).limitedReusePromoted, LimitedReuseNotPromoted, b);
    BlockerIn(row.libraryTerminal == Some(true), LimitedReuseRevoked, b);
  }

  // The row after a promotion to a reusing state, read again from the view.
  function Promoted(row: Row, scope: Option<string>): Row {
    row.(promotionScope := scope, libraryReusable := Some(true), libraryTerminal := Some(false))
  }

  // The same row as the promotion route itself answers with: no view columns.
  function Answered(row: Row, scope: Option<string>): Row {
    row.(promotionScope := scope, candidateReusable := None, libraryReusable := None, libraryTerminal := None)
  }

  // A promoted review-ready entry reads back as ready for limited reuse exactly
  // when the promotion named a scope; the route's own answer still shows it
  // under review, a tenth lower than before the promotion.
  lemma PromotionReadBack(row: Row, scope: Option<string>)
    requires ReadinessOf(row).ReviewReady? && row.candidateReusable == Some(true)
    ensures ReadinessOf(Promoted(row, scope)).LimitedReuseReady? <==> scope.Some? && Trim(scope.value) != []
    ensures ReadinessOf(Promoted(row, scope)).LimitedReuseReady? ==> Score(Promoted(row, scope)) == 100
    ensures ReadinessOf(Answered(row, scope)).ReviewReady? && Score(Answered(row, scope)) == 80
  {
    ReadinessMeans(row);
    ReadinessMeans(Promoted(row, scope));
    ReadinessMeans(Answered(row, scope));
  }

  // A revoked entry is promotable only where the policy allows the revoked blocker.
  lemma RevokedStaysRevoked(row: Row, policy: ReusePolicy, scope: Option<string>)
    requires Revoked(row) && PromotionVerdict(row, policy, scope).Promotable?
    ensures LimitedReuseRevoked in policy.allowed
  {
  }

  // Both, for an entry the policy admits.
  lemma PromotedMeans(row: Row, policy: ReusePolicy, scope: Option<string>)
    requires PromotionVerdict(row, policy, scope).Promotable? && row.candidateReusable == Some(true)
    ensures ReadinessOf(row).ReviewReady? && scope.Some? && Trim(scope.value) != [] ==>
              ReadinessOf(Promoted(row, scope)).LimitedReuseReady? && Score(Promoted(row, scope)) == 100
    ensures Revoked(row) ==> LimitedReuseRevoked in policy.allowed
  {
  }
}
