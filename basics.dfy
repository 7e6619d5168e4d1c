/**
 * The documentation's example machine: three state classes declared as data
 * (their transition tables), a state variable `myVar` that state A
 * initialises on every entry and that the `LOOP` handler increments, and the
 * machine that runs them: it enters a state by building a new state object,
 * stays put on a self-transition, and exits at once a state without a table.
 */
module Basics {
  import opened Wrappers

  datatype StateKind = StateA | StateB | StateEnd

  datatype Event = ToB | Loop | ToA | ToEnd

  const AllStates: set<StateKind> := {StateA, StateB, StateEnd}

  /** The label an event type was declared with: the name of the handler that
      runs when the machine takes a transition on it. */
  function Label(e: Event): string
  {
    match e
    case ToB => "TO_B_handle"
    case Loop => "LOOP_handle"
    case ToA => "TO_A_handle"
    case ToEnd => "TO_END"
  }

  /** The static transition tables; the end state declares none. */
  function Transitions(s: StateKind): map<Event, StateKind>
  {
    match s
    case StateA => map[ToB := StateB, Loop := StateA]
    case StateB => map[ToA := StateA, ToEnd := StateEnd]
    case StateEnd => map[]
  }

  /** The handlers each state class defines, by name. */
  function Handlers(s: StateKind): set<string>
  {
    match s
    case StateA => {"LOOP_handle", "TO_B_handle"}
    case StateB => {"TO_A_handle", "TO_END"}
    case StateEnd => {}
  }

  /** The tables as declared: A has exactly `TO_B` to B and `LOOP` back to A, B
      has exactly `TO_A` to A and `TO_END` to the end state, the end state is the
      only state without a table, `LOOP` is the only self-transition, and every
      event in a table names a handler its state defines. */
  lemma TablesAsDeclared()
    ensures Transitions(StateA).Keys == {ToB, Loop} && Transitions(StateA)[ToB] == StateB && Transitions(StateA)[Loop] == StateA
    ensures Transitions(StateB).Keys == {ToA, ToEnd} && Transitions(StateB)[ToA] == StateA && Transitions(StateB)[ToEnd] == StateEnd
    ensures forall s :: Transitions(s) == map[] <==> s == StateEnd
    ensures forall s, e :: e in Transitions(s) ==> (Transitions(s)[e] == s <==> s == StateA && e == Loop)
    ensures forall s, e :: e in Transitions(s) ==> Label(e) in Handlers(s)
  {
  }

  // ---------------------------------------------------------------------------
  // Which states the tables reach

  /** A walk along the tables: each state is a successor of the one before. */
  ghost predicate IsPath(p: seq<StateKind>)
  {
    |p| > 0 && forall i :: 0 <= i < |p| - 1 ==> p[i + 1] in Transitions(p[i]).Values
  }

  ghost predicate Reaches(from: StateKind, to: StateKind)
  {
    exists p :: IsPath(p) && p[0] == from && p[|p| - 1] == to
  }

  /** A set of states that every table leads back into. */
  ghost predicate Closed(states: set<StateKind>)
  {
    forall s, e :: s in states && e in Transitions(s) ==> Transitions(s)[e] in states
  }

  /** The states the state-graph walk from `start` covers: it follows every table
      entry once, skipping states already seen, so it ends on cyclic tables too.
      The result is closed under the tables and holds only reachable states. */
  method WalkStates(start: StateKind) returns (seen: set<StateKind>)
    ensures start in seen
    ensures Closed(seen)
    ensures forall s :: s in seen ==> Reaches(start, s)
  {
    seen := {start};
    var frontier := {start};
    assert IsPath([start]);
    while frontier != {}
      invariant start in seen && frontier <= seen
      invariant forall s, e :: s in seen - frontier && e in Transitions(s) ==> Transitions(s)[e] in seen
      invariant forall s :: s in seen ==> Reaches(start, s)
      decreases AllStates - seen, frontier
    {
      var s :| s in frontier;
      var found := Transitions(s).Values - seen;
      forall t | t in found
        ensures Reaches(start, t)
      {
        ReachesStep(start, s, t);
      }
      frontier := frontier - {s} + found;
      seen := seen + found;
    }
  }

  /** A successor of a reachable state is reachable. */
  lemma ReachesStep(start: StateKind, s: StateKind, t: StateKind)
    requires Reaches(start, s) && t in Transitions(s).Values
    ensures Reaches(start, t)
  {
    var p :| IsPath(p) && p[0] == start && p[|p| - 1] == s;
    assert IsPath(p + [t]) && (p + [t])[0] == start;
  }

  /** From A every declared state is reachable, and no closed set holding A
      leaves any out: the walk from A covers exactly A, B and the end state. */
  lemma WalkFromStateA(states: set<StateKind>)
    requires StateA in states && Closed(states)
    ensures states == AllStates
    ensures forall s :: Reaches(StateA, s)
  {
    assert Transitions(StateA)[ToB] == StateB;
    assert Transitions(StateB)[ToEnd] == StateEnd;
    assert StateB in states;
    assert StateEnd in states;
    forall s | s in states
      ensures s in AllStates
    {
      assert s == StateA || s == StateB || s == StateEnd;
    }
    forall s | s in AllStates
      ensures s in states
    {
      if s == StateB {
        assert ToB in Transitions(StateA);
      } else if s == StateEnd {
        assert ToB in Transitions(StateA) && ToEnd in Transitions(StateB);
      }
    }
    assert IsPath([StateA]);
    assert IsPath([StateA, StateB]) by { assert StateB == Transitions(StateA)[ToB]; }
    assert IsPath([StateA, StateB, StateEnd]) by {
      assert StateB == Transitions(StateA)[ToB];
      assert StateEnd == Transitions(StateB)[ToEnd];
    }
  }

  // ---------------------------------------------------------------------------
  // State objects and the machine

  /** The value `myVar` has right after a state of this kind is entered. */
  function EnteredVar(kind: StateKind): Option<int>
  {
    if kind == StateA then Some(5) else None
  }

  /** The value `myVar` has after the handler named by the label of `e` runs on
      a state of this kind: only A's `LOOP_handle` changes it. */
  function HandledVar(kind: StateKind, e: Event, myVar: Option<int>): Option<int>
    requires kind == StateA && e == Loop ==> myVar.Some?
  {
    if kind == StateA && e == Loop then Some(myVar.value + 5) else myVar
  }

  /** The hook calls one transition on `e` out of state `k` makes: a
      self-transition only runs the handler; any other exits `k`, runs the
      handler and enters the successor, which is exited at once when it has no
      table. */
  function StepHooks(k: StateKind, e: Event): seq<Hook>
    requires e in Transitions(k)
  {
    var n := Transitions(k)[e];
    if n == k then [Handled(k, e)]
    else [Exited(k), Handled(k, e), Entered(n)] + (if Transitions(n) == map[] then [Exited(n)] else [])
  }

  /** The current state after a transition on `e` out of `k`: none when the
      successor has no table. */
  function After(k: StateKind, e: Event): Option<StateKind>
    requires e in Transitions(k)
  {
    var n := Transitions(k)[e];
    if Transitions(n) == map[] then None else Some(n)
  }

  /** One activation of a state class: a new object is built on every entry. */
  class Activation {
    const kind: StateKind
    /** A's state variable; absent until A's `enter` sets it. */
    var myVar: Option<int>

    constructor (kind: StateKind)
      ensures this.kind == kind && myVar == None
    {
      this.kind := kind;
      myVar := None;
    }

    /** The state's `enter`: A initialises `myVar` to 5. */
    method Enter()
      modifies this`myVar
      ensures kind == StateA ==> myVar == Some(5)
      ensures kind != StateA ==> myVar == old(myVar)
    {
      if kind == StateA {
        myVar := Some(5);
      }
    }

    /** Runs the handler named by the label of `e`; A's `LOOP_handle` adds 5 to
        `myVar`, the other handlers only report. */
    method Handle(e: Event)
      requires Label(e) in Handlers(kind)
      requires kind == StateA && e == Loop ==> myVar.Some?
      modifies this`myVar
      ensures kind == StateA && e == Loop ==> myVar == Some(old(myVar).value + 5)
      ensures !(kind == StateA && e == Loop) ==> myVar == old(myVar)
    {
      if kind == StateA && e == Loop {
        myVar := Some(myVar.value + 5);
      }
    }
  }

  /** A hook call the machine makes on a state object; a handler is recorded by
      the event whose label names it. */
  datatype Hook = Entered(state: StateKind) | Exited(state: StateKind) | Handled(state: StateKind, event: Event)

  class Machine {
    var current: Activation?
    /** Every hook call made so far, in order. */
    var hooks: seq<Hook>

    /** A current state always has a table (one without is exited on entry), and
        A's state variable is set while A is current. */
    ghost predicate Valid()
      reads this, current
    {
      current != null ==> Transitions(current.kind) != map[] && (current.kind == StateA ==> current.myVar.Some?)
    }

    constructor ()
      ensures Valid() && current == null && hooks == []
    {
      current := null;
      hooks := [];
    }

    /** The current state's class. In a valid machine it is never a state
        without a table, since such a state is exited as soon as it is entered,
        and while A is current its state variable is set. */
    function CurrentState(): (s: Option<StateKind>)
      reads this, current
      ensures s.Some? <==> current != null
      ensures s.Some? ==> s.value == current.kind
      ensures Valid() && s.Some? ==> Transitions(s.value) != map[] && s.value != StateEnd
      ensures Valid() && s == Some(StateA) ==> current.myVar.Some?
    {
      if current == null then None else Some(current.kind)
    }

    /** Enters `start` before returning; a start state without a table is exited
        again at once and leaves no current state. */
    method Start(start: StateKind)
      modifies this
      ensures Valid()
      ensures Transitions(start) != map[] ==>
                fresh(current) && current.kind == start && current.myVar == EnteredVar(start) &&
                hooks == old(hooks) + [Entered(start)]
      ensures Transitions(start) == map[] ==> current == null && hooks == old(hooks) + [Entered(start), Exited(start)]
    {
      var a := new Activation(start);
      a.Enter();
      hooks := hooks + [Entered(start)];
      current := a;
      if Transitions(start) == map[] {
        hooks := hooks + [Exited(start)];
        current := null;
      }
    }

    /** Takes the transition the current state's table lists for `e`. A
        self-transition runs the handler on the same object without exiting it.
        Any other transition exits the current state, runs the handler, then
        builds and enters a new object of the successor; a successor without a
        table is exited at once. Without a current state or a table entry for
        `e`, nothing changes. */
    method InjectEvent(e: Event) returns (handled: bool)
      requires Valid()
      modifies this, current
      ensures Valid()
      ensures handled <==> old(current) != null && e in Transitions(old(current).kind)
      ensures !handled ==> current == old(current) && hooks == old(hooks) && (current != null ==> unchanged(current))
      ensures handled ==> hooks == old(hooks) + StepHooks(old(current).kind, e)
      ensures handled ==> CurrentState() == After(old(current).kind, e)
      ensures handled && Transitions(old(current).kind)[e] == old(current).kind ==>
                current == old(current) && current.myVar == HandledVar(current.kind, e, old(current.myVar))
      ensures handled && Transitions(old(current).kind)[e] != old(current).kind ==>
                && old(current).myVar == old(current.myVar)
                && (current != null ==> fresh(current) && current.myVar == EnteredVar(current.kind))
    {
      if current == null || e !in Transitions(current.kind) {
        return false;
      }
      handled := true;
      TablesAsDeclared();
      var k := current.kind;
      var n := Transitions(k)[e];
      if n == k {
        hooks := hooks + [Handled(k, e)];
        current.Handle(e);
      } else {
        var leaving := current;
        hooks := hooks + [Exited(k), Handled(k, e)];
        leaving.Handle(e);
        var a := new Activation(n);
        a.Enter();
        hooks := hooks + [Entered(n)];
        current := a;
        if Transitions(n) == map[] {
          hooks := hooks + [Exited(n)];
          current := null;
        }
      }
    }
  }

  /** The five steps of the documentation's script, out of the states the
      machine is in when it takes them. */
  lemma ScriptSteps()
    ensures StepHooks(StateA, Loop) == [Handled(StateA, Loop)] && After(StateA, Loop) == Some(StateA)
    ensures StepHooks(StateA, ToB) == [Exited(StateA), Handled(StateA, ToB), Entered(StateB)] && After(StateA, ToB) == Some(StateB)
    ensures StepHooks(StateB, ToA) == [Exited(StateB), Handled(StateB, ToA), Entered(StateA)] && After(StateB, ToA) == Some(StateA)
    ensures StepHooks(StateB, ToEnd) == [Exited(StateB), Handled(StateB, ToEnd), Entered(StateEnd), Exited(StateEnd)]
    ensures After(StateB, ToEnd) == None
  {
    assert ToB in Transitions(StateA) && ToEnd in Transitions(StateB);
  }

  /** The documentation's script: start in A, then `LOOP`, `TO_B`, `TO_A`,
      `TO_B`, `TO_END`. The machine is in A, A, B, A, B after each step and in
      no state at the end; A and B are each entered and exited twice, the end
      state once, and each exit follows its entry. */
  method BasicsScript() returns (trace: seq<Option<StateKind>>, hooks: seq<Hook>)
    ensures trace == [Some(StateA), Some(StateA), Some(StateB), Some(StateA), Some(StateB), None]
    ensures hooks == [Entered(StateA), Handled(StateA, Loop),
                      Exited(StateA), Handled(StateA, ToB), Entered(StateB),
                      Exited(StateB), Handled(StateB, ToA), Entered(StateA),
                      Exited(StateA), Handled(StateA, ToB), Entered(StateB),
                      Exited(StateB), Handled(StateB, ToEnd), Entered(StateEnd), Exited(StateEnd)]
  {
    ScriptSteps();
    var machine := new Machine();
    machine.Start(StateA);
    assert machine.CurrentState() == Some(StateA) && machine.hooks == [Entered(StateA)];
    trace := [machine.CurrentState()];
    var ok := machine.InjectEvent(Loop);
    var h1 := machine.hooks;
    assert h1 == [Entered(StateA)] + [Handled(StateA, Loop)];
    assert machine.CurrentState() == Some(StateA);
    trace := trace + [machine.CurrentState()];
    ok := machine.InjectEvent(ToB);
    var h2 := machine.hooks;
    assert h2 == h1 + [Exited(StateA), Handled(StateA, ToB), Entered(StateB)];
    assert machine.CurrentState() == Some(StateB);
    trace := trace + [machine.CurrentState()];
    ok := machine.InjectEvent(ToA);
    var h3 := machine.hooks;
    assert h3 == h2 + [Exited(StateB), Handled(StateB, ToA), Entered(StateA)];
    assert machine.CurrentState() == Some(StateA);
    trace := trace + [machine.CurrentState()];
    ok := machine.InjectEvent(ToB);
    var h4 := machine.hooks;
    assert h4 == h3 + [Exited(StateA), Handled(StateA, ToB), Entered(StateB)];
    assert machine.CurrentState() == Some(StateB);
    trace := trace + [machine.CurrentState()];
    ok := machine.InjectEvent(ToEnd);
    assert machine.hooks == h4 + [Exited(StateB), Handled(StateB, ToEnd), Entered(StateEnd), Exited(StateEnd)];
    assert machine.CurrentState() == None;
    trace := trace + [machine.CurrentState()];
    hooks := machine.hooks;
  }

  /** The state variable along the same script's first three steps: `LOOP`
      raises A's `myVar` from 5 to 10, and the re-entry into A after `TO_B`,
      `TO_A` builds a new object whose `myVar` is 5 again while the old object
      keeps 10. */
  method StateVariableScript() returns (afterLoop: Option<int>, afterReentry: Option<int>,
                                        firstKept: Option<int>, newObject: bool)
    ensures afterLoop == Some(10) && afterReentry == Some(5) && firstKept == Some(10) && newObject
  {
    ScriptSteps();
    var machine := new Machine();
    machine.Start(StateA);
    var first := machine.current;
    var ok := machine.InjectEvent(Loop);
    afterLoop := first.myVar;
    ok := machine.InjectEvent(ToB);
    ok := machine.InjectEvent(ToA);
    afterReentry := machine.current.myVar;
    firstKept := first.myVar;
    newObject := machine.current != first;
  }
}
