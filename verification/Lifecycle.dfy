/**
 The lifecycle tables in PostgreSQL, as a parameter of everything that reads
 them: states with flags, and transitions by action and origin.
 */
module Lifecycle {
  import opened Json

  type Status = string

  datatype StateDef = StateDef(initial: bool, terminal: bool, dispatchable: bool, manual: bool)

  datatype Transition = Transition(to: Status, manualAllowed: bool)

  // (action, from) is the key of a transition.
  datatype Tables = Tables(states: map<Status, StateDef>, transitions: map<(string, Status), Transition>)

  // getResourceLifecycleTransition
  function TransitionOf(t: Tables, from: Status, action: string): Option<Transition> {
    if (action, from) in t.transitions then Some(t.transitions[(action, from)]) else None
  }

  predicate Dispatchable(t: Tables, status: Status) {
    status in t.states && t.states[status].dispatchable
  }

  predicate IsDispatchable(state: StateDef) { state.dispatchable }

  predicate Terminal(t: Tables, status: Status) {
    status in t.states && t.states[status].terminal
  }

  predicate Initial(t: Tables, status: Status) {
    status in t.states && t.states[status].initial
  }

  // A state from which the artifact is used: dispatchable and not terminal.
  predicate Reusing(t: Tables, status: Status) {
    Dispatchable(t, status) && !Terminal(t, status)
  }

  // What a selector may find: no transition, exactly one, or an ambiguity, which throws.
  datatype Selection = Missing | Unique(to: Status) | Ambiguous

  // The actions that lead, by hand, from a state to a target with the wanted flags.
  function ManualActions(t: Tables, from: Status, wanted: StateDef -> bool): set<string> {
    set key | key in t.transitions && key.1 == from && t.transitions[key].manualAllowed
              && t.transitions[key].to in t.states && wanted(t.states[t.transitions[key].to]) :: key.0
  }

  // selectResourceLifecycleTransition, for manually allowed transitions: one
  // action is a selection, several are an ambiguity even where their targets agree.
  function SelectManual(t: Tables, from: Status, wanted: StateDef -> bool): (s: Selection)
    ensures s.Missing? <==> forall a :: a !in ManualActions(t, from, wanted)
    ensures s.Ambiguous? <==>
              exists a, b | a in ManualActions(t, from, wanted) && b in ManualActions(t, from, wanted) :: a != b
    ensures s.Unique? ==> s.to in t.states && wanted(t.states[s.to])
    ensures s.Unique? ==> forall a :: a in ManualActions(t, from, wanted) ==> t.transitions[(a, from)].to == s.to
  {
    var actions := ManualActions(t, from, wanted);
    if actions == {} then Missing
    else if exists a | a in actions :: actions == {a} then
      var a :| a in actions && actions == {a};
      Only(actions, a);
      Unique(t.transitions[(a, from)].to)
    else
      Several(actions);
      Ambiguous
  }

  lemma Only(actions: set<string>, a: string)
    requires actions == {a}
    ensures forall b :: b in actions ==> b == a
  {
  }

  lemma Several(actions: set<string>)
    requires actions != {} && !exists a | a in actions :: actions == {a}
    ensures exists a, b | a in actions && b in actions :: a != b
  {
    var a :| a in actions;
    assert actions - {a} != {};
    var b :| b in actions - {a};
  }

  // A configured state with the wanted flags, and just one action allowed by hand that leads to such.
  predicate OnlyWay(t: Tables, from: Status, wanted: StateDef -> bool, to: Status) {
    && to in t.states && wanted(t.states[to])
    && exists key | key in t.transitions ::
         && key.1 == from && t.transitions[key].manualAllowed && t.transitions[key].to == to
         && forall k | k in t.transitions && k.1 == from && t.transitions[k].manualAllowed ::
              t.transitions[k].to in t.states && wanted(t.states[t.transitions[k].to]) ==> k == key
  }

  predicate NoWay(t: Tables, from: Status, wanted: StateDef -> bool) {
    forall k | k in t.transitions && k.1 == from && t.transitions[k].manualAllowed ::
      t.transitions[k].to in t.states ==> !wanted(t.states[t.transitions[k].to])
  }

  lemma ActionAllowed(t: Tables, from: Status, wanted: StateDef -> bool, k: (string, Status))
    ensures k.1 == from && k.0 in ManualActions(t, from, wanted) <==>
            && k in t.transitions && k.1 == from && t.transitions[k].manualAllowed
            && t.transitions[k].to in t.states && wanted(t.states[t.transitions[k].to])
  {
    if k.1 == from && k.0 in ManualActions(t, from, wanted) {
      var key :| key in t.transitions && key.1 == from && key.0 == k.0 && t.transitions[key].manualAllowed
                 && t.transitions[key].to in t.states && wanted(t.states[t.transitions[key].to]);
      assert key == k;
    }
  }

  lemma SelectedWay(t: Tables, from: Status, wanted: StateDef -> bool)
    ensures var s := SelectManual(t, from, wanted);
            (s.Unique? ==> OnlyWay(t, from, wanted, s.to)) && (s.Missing? <==> NoWay(t, from, wanted))
  {
    var s := SelectManual(t, from, wanted);
    forall k: (string, Status)
      ensures k.1 == from && k.0 in ManualActions(t, from, wanted) <==>
              && k in t.transitions && k.1 == from && t.transitions[k].manualAllowed
              && t.transitions[k].to in t.states && wanted(t.states[t.transitions[k].to])
    {
      ActionAllowed(t, from, wanted, k);
    }
    if s.Unique? {
      var a :| a in ManualActions(t, from, wanted);
      assert (a, from).0 == a && (a, from) in t.transitions;
      forall k | k in t.transitions && k.1 == from && t.transitions[k].manualAllowed
                 && t.transitions[k].to in t.states && wanted(t.states[t.transitions[k].to])
        ensures k == (a, from)
      {
        assert k.0 in ManualActions(t, from, wanted);
      }
    } else if NoWay(t, from, wanted) {
      forall a ensures a !in ManualActions(t, from, wanted) { assert (a, from).0 == a && (a, from).1 == from; }
    }
  }

  // The selection is that state whenever there is one.
  lemma WaySelected(t: Tables, from: Status, wanted: StateDef -> bool, to: Status)
    requires OnlyWay(t, from, wanted, to)
    ensures SelectManual(t, from, wanted) == Unique(to)
  {
    SelectedWay(t, from, wanted);
    var key :| key in t.transitions && key.1 == from && t.transitions[key].manualAllowed && t.transitions[key].to == to
               && forall k | k in t.transitions && k.1 == from && t.transitions[k].manualAllowed ::
                    t.transitions[k].to in t.states && wanted(t.states[t.transitions[k].to]) ==> k == key;
    forall a | a in ManualActions(t, from, wanted) ensures a == key.0 {
      ActionAllowed(t, from, wanted, (a, from));
      assert (a, from).0 == a && (a, from).1 == from;
    }
    ActionAllowed(t, from, wanted, key);
  }
}
