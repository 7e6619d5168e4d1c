/**
 * The task layer: a state whose transition table is written once with marker
 * targets (`Next`, `Failure`) and the generic `TIMEOUT` event, and rewritten per
 * task instance into concrete successors and a timeout event of its own; entering
 * a task that has a timeout starts a timer, exiting it stops that timer.
 */
module Task {
  import opened Wrappers
  import opened Events

  /** A state class, identified by its class name. */
  type StateId = string

  /** A successor as a base table writes it: a concrete state class, or one of
      the markers that the task replaces by the state configured for it. */
  datatype Target = Concrete(state: StateId) | Next | Failure

  datatype TaskError =
    | NoFailureState   // an entry targets `Failure` and no failure state is configured
    | MissingTimeout   // the configuration has no `timeout` and no default was given

  /** A rewritten table. A successor is `None` where `Next` was written and the
      AI subsystem knows no task after this one: that case is not checked. */
  type Table = map<EventKey, Option<StateId>>

  /** A timeout duration, as read from the configuration. */
  type Duration = real

  /** The configuration key a task reads its timeout duration from. */
  const TimeoutKey: string := "timeout"

  /** Two configurations that agree on every key in `keys`. */
  predicate AgreeOn(c1: map<string, Duration>, c2: map<string, Duration>, keys: set<string>)
  {
    forall a :: a in keys ==> (a in c1 <==> a in c2) && (a in c1 && a in c2 ==> c1[a] == c2[a])
  }

  /** The timeout duration entering a timed task uses: the configured `timeout`,
      else the default; with neither, entering fails. */
  function ResolveTimeout(config: map<string, Duration>, defaultTimeout: Option<Duration>): Result<Duration, TaskError>
  {
    if TimeoutKey in config then Ok(config[TimeoutKey])
    else if defaultTimeout.Some? then Ok(defaultTimeout.value)
    else Err(MissingTimeout)
  }

  /** The configuration attributes a task declares: they cover everything
      entering a task reads from its configuration, so two configurations that
      agree on them resolve the same timeout. */
  function Attributes(): (s: set<string>)
    ensures forall c1, c2, d :: AgreeOn(c1, c2, s) ==> ResolveTimeout(c1, d) == ResolveTimeout(c2, d)
  {
    {TimeoutKey}
  }

  /** No declared attribute is superfluous: setting any one of them alone
      changes what entering a task without a default resolves. */
  lemma AttributesAllRead(a: string, d: Duration)
    requires a in Attributes()
    ensures ResolveTimeout(map[a := d], None) == Ok(d)
    ensures ResolveTimeout(map[], None) == Err(MissingTimeout)
  {
  }

  /** The AI subsystem's answers, per task class: the task after it, and the
      state to go to when it fails. */
  datatype TaskSequence = TaskSequence(nextTask: map<StateId, StateId>, failureState: map<StateId, StateId>)

  /** A timer bound to the event it fires and the duration after which it fires;
      `serial` tells timers apart: it is the position of the request that created it
      in its task's request log. */
  datatype Timer = Timer(serial: nat, event: EventKey, duration: Duration)

  /** A request made of the timer manager. */
  datatype TimerCall = NewTimer(event: EventKey, duration: Duration) | Start(timer: Timer) | Stop(timer: Timer)

  // ---------------------------------------------------------------------------
  // The rewrite of one table, entry by entry

  /** The key an entry is stored under: the generic `TIMEOUT` becomes the task's own event. */
  function RenameKey(k: EventKey, timeoutEvent: EventKey): EventKey
  {
    if k == Timeout then timeoutEvent else k
  }

  /** The successor an entry is stored with. */
  function Resolve(t: Target, next: Option<StateId>, failure: Option<StateId>): Option<StateId>
  {
    match t
    case Concrete(s) => Some(s)
    case Next => next
    case Failure => failure
  }

  /** An entry that cannot be rewritten: it targets `Failure` and there is no failure state. */
  predicate Unresolvable(t: Target, failure: Option<StateId>)
  {
    t == Failure && failure.None?
  }

  predicate FailureUnresolved(base: map<EventKey, Target>, failure: Option<StateId>)
  {
    exists k :: k in base && Unresolvable(base[k], failure)
  }

  /** The base table does not list both `TIMEOUT` and the task's own timeout
      event; otherwise the two entries land on the same key. */
  predicate NoClash(base: map<EventKey, Target>, timeoutEvent: EventKey)
  {
    !(Timeout in base && timeoutEvent in base)
  }

  /** The rewritten table, as a value: every entry renamed and resolved, or the
      error when some entry cannot be resolved. */
  function RewriteTable(base: map<EventKey, Target>, timeoutEvent: EventKey,
                        next: Option<StateId>, failure: Option<StateId>): Result<Table, TaskError>
    requires NoClash(base, timeoutEvent)
  {
    if FailureUnresolved(base, failure) then Err(NoFailureState)
    else
      var copied := map k | k in base && k != Timeout :: Resolve(base[k], next, failure);
      Ok(if Timeout in base then copied[timeoutEvent := Resolve(base[Timeout], next, failure)] else copied)
  }

  /** The relation between the entries `done` of a base table and a table built
      from them, whatever order the entries were visited in. On the key both
      `TIMEOUT` and the task's own event rename to, either entry may have won. */
  ghost predicate RewriteOf(base: map<EventKey, Target>, done: set<EventKey>, timeoutEvent: EventKey,
                            next: Option<StateId>, failure: Option<StateId>, t: Table)
    requires done <= base.Keys
  {
    && (forall k :: k in done ==> RenameKey(k, timeoutEvent) in t)
    && (forall k :: k in t ==> (k in done && k != Timeout) || (k == timeoutEvent && Timeout in done))
    && (forall k :: k in done && k != Timeout && k != timeoutEvent ==>
          k in t && t[k] == Resolve(base[k], next, failure))
    && (timeoutEvent in t ==>
          || (Timeout in done && t[timeoutEvent] == Resolve(base[Timeout], next, failure))
          || (timeoutEvent in done && t[timeoutEvent] == Resolve(base[timeoutEvent], next, failure)))
  }

  /** Visiting one more entry keeps the relation. */
  lemma RewriteOfStep(base: map<EventKey, Target>, done: set<EventKey>, k: EventKey, timeoutEvent: EventKey,
                      next: Option<StateId>, failure: Option<StateId>, t: Table)
    requires done <= base.Keys && k in base && k !in done
    requires RewriteOf(base, done, timeoutEvent, next, failure, t)
    ensures RewriteOf(base, done + {k}, timeoutEvent, next, failure,
                      t[RenameKey(k, timeoutEvent) := Resolve(base[k], next, failure)])
  {
  }

  /** A table that stands in the relation to the whole base table is the rewritten table. */
  lemma RewriteOfIsRewriteTable(base: map<EventKey, Target>, timeoutEvent: EventKey,
                                next: Option<StateId>, failure: Option<StateId>, t: Table)
    requires NoClash(base, timeoutEvent) && !FailureUnresolved(base, failure)
    requires RewriteOf(base, base.Keys, timeoutEvent, next, failure, t)
    ensures RewriteTable(base, timeoutEvent, next, failure) == Ok(t)
  {
    var copied := map k | k in base && k != Timeout :: Resolve(base[k], next, failure);
    var u := if Timeout in base then copied[timeoutEvent := Resolve(base[Timeout], next, failure)] else copied;
    assert RewriteTable(base, timeoutEvent, next, failure) == Ok(u);
    forall k | k in t
      ensures k in u && u[k] == t[k]
    {
    }
    forall k | k in u
      ensures k in t
    {
      if k == timeoutEvent && Timeout in base {
        assert RenameKey(Timeout, timeoutEvent) == k;
      } else {
        assert k in base && RenameKey(k, timeoutEvent) == k;
      }
    }
    assert u == t;
  }

  /** One rewritten entry per base entry: no entry is lost or merged. */
  lemma RewriteTableSize(base: map<EventKey, Target>, timeoutEvent: EventKey,
                         next: Option<StateId>, failure: Option<StateId>)
    requires NoClash(base, timeoutEvent) && !FailureUnresolved(base, failure)
    ensures |RewriteTable(base, timeoutEvent, next, failure).value| == |base|
  {
    var copied := map k | k in base && k != Timeout :: Resolve(base[k], next, failure);
    assert copied.Keys == base.Keys - {Timeout};
    if Timeout in base {
      assert |copied| == |base| - 1;
      assert timeoutEvent !in copied;
    } else {
      assert copied.Keys == base.Keys;
    }
  }

  /** What each rewritten entry is: keys other than `TIMEOUT` are copied, `TIMEOUT`
      becomes the task's own event, `Next` becomes the next state, `Failure` the
      failure state, a concrete state is kept, and nothing else is in the table. */
  lemma RewriteTableEntries(base: map<EventKey, Target>, timeoutEvent: EventKey,
                            next: Option<StateId>, failure: Option<StateId>)
    requires timeoutEvent != Timeout
    requires NoClash(base, timeoutEvent) && !FailureUnresolved(base, failure)
    ensures var t := RewriteTable(base, timeoutEvent, next, failure).value;
      && Timeout !in t
      && (forall k :: k in t ==> k in base || (k == timeoutEvent && Timeout in base))
      && (forall k :: k in base ==>
            var k' := RenameKey(k, timeoutEvent);
            && k' in t
            && (base[k].Concrete? ==> t[k'] == Some(base[k].state))
            && (base[k].Next? ==> t[k'] == next)
            && (base[k].Failure? ==> failure.Some? && t[k'] == failure))
  {
  }

  // ---------------------------------------------------------------------------
  // The task object

  class Task {
    /** The task's class name. */
    const name: StateId
    /** The task's configuration section. */
    const config: map<string, Duration>
    /** The timeout event declared for this task object. */
    const timeoutEvent: EventKey
    /** The task after this one, and the failure state, as the AI subsystem gave them. */
    const nextState: Option<StateId>
    const failureState: Option<StateId>

    var hasTimeout: bool
    var timeoutDuration: Option<Duration>
    var timer: Option<Timer>
    /** Every request this task has made of the timer manager, in order. */
    var timerCalls: seq<TimerCall>

    /** Declares a timeout event labelled `TIMEOUT_<class name>` and asks the AI
        subsystem for the next and the failure state of this task class. */
    constructor (name: StateId, config: map<string, Duration>, ai: TaskSequence, registry: EventRegistry)
      modifies registry
      ensures this.name == name && this.config == config
      ensures registry.labels == old(registry.labels) + ["TIMEOUT_" + name]
      ensures timeoutEvent == Named(|old(registry.labels)|) && registry.Declared(timeoutEvent)
      ensures registry.Label(timeoutEvent) == "TIMEOUT_" + name
      ensures timeoutEvent != Timeout
      ensures nextState == Get(ai.nextTask, name) && failureState == Get(ai.failureState, name)
      ensures !hasTimeout && timeoutDuration == None && timer == None && timerCalls == []
    {
      var e := registry.Declare("TIMEOUT_" + name);
      this.name := name;
      this.config := config;
      timeoutEvent := e;
      nextState := Get(ai.nextTask, name);
      failureState := Get(ai.failureState, name);
      hasTimeout := false;
      timeoutDuration := None;
      timer := None;
      timerCalls := [];
    }

    /** Rewrites the base table: `TIMEOUT` becomes this task's own event and marks
        the task as having a timeout, `Next` and `Failure` become the configured
        states. Fails, returning no table, when an entry targets `Failure` and no
        failure state is configured. The entries are visited in no fixed order. */
    method Transitions(base: map<EventKey, Target>) returns (r: Result<Table, TaskError>)
      modifies this`hasTimeout
      ensures r.Err? <==> FailureUnresolved(base, failureState)
      ensures r.Err? ==> r.error == NoFailureState
      ensures r.Ok? ==> RewriteOf(base, base.Keys, timeoutEvent, nextState, failureState, r.value)
      ensures r.Ok? && NoClash(base, timeoutEvent) ==>
                r == RewriteTable(base, timeoutEvent, nextState, failureState)
      ensures r.Ok? ==> hasTimeout == (old(hasTimeout) || Timeout in base)
      ensures old(hasTimeout) ==> hasTimeout
      ensures hasTimeout ==> old(hasTimeout) || Timeout in base
      ensures (r.Err? && Timeout in base &&
               forall k :: k in base && Unresolvable(base[k], failureState) ==> k == Timeout) ==> hasTimeout
    {
      var remaining := base.Keys;
      var newTrans: Table := map[];
      ghost var done: set<EventKey> := {};
      while remaining != {}
        invariant remaining <= base.Keys
        invariant done == base.Keys - remaining
        invariant forall k :: k in done ==> !Unresolvable(base[k], failureState)
        invariant hasTimeout == (old(hasTimeout) || Timeout in done)
        invariant RewriteOf(base, done, timeoutEvent, nextState, failureState, newTrans)
        decreases remaining
      {
        var eventType :| eventType in remaining;
        var target := base[eventType];
        RewriteOfStep(base, done, eventType, timeoutEvent, nextState, failureState, newTrans);
        remaining := remaining - {eventType};
        done := done + {eventType};

        var key := eventType;
        if eventType == Timeout {
          key := timeoutEvent;
          hasTimeout := true;
        }

        var successor: Option<StateId>;
        if target == Next {
          successor := nextState;
        } else if target == Failure {
          if failureState.None? {
            return Err(NoFailureState);
          }
          successor := failureState;
        } else {
          successor := Some(target.state);
        }

        newTrans := newTrans[key := successor];
      }
      r := Ok(newTrans);
      if NoClash(base, timeoutEvent) {
        RewriteOfIsRewriteTable(base, timeoutEvent, nextState, failureState, newTrans);
      }
    }

    /** Starts a timeout timer when the task has a timeout: its duration is the
        configured `timeout`, else `defaultTimeout`; with neither, entering fails. */
    method Enter(defaultTimeout: Option<Duration>) returns (r: Outcome<TaskError>)
      modifies this`timeoutDuration, this`timer, this`timerCalls
      ensures !hasTimeout ==>
                r == Pass && timeoutDuration == old(timeoutDuration) && timer == old(timer) && timerCalls == old(timerCalls)
      ensures hasTimeout && ResolveTimeout(config, defaultTimeout).Err? ==>
                r == Fail(ResolveTimeout(config, defaultTimeout).error)
                && timeoutDuration == old(timeoutDuration) && timer == old(timer) && timerCalls == old(timerCalls)
      ensures hasTimeout && ResolveTimeout(config, defaultTimeout).Ok? ==>
                var d := ResolveTimeout(config, defaultTimeout).value;
                var t := Timer(|old(timerCalls)|, timeoutEvent, d);
                && r == Pass
                && timeoutDuration == Some(d)
                && timer == Some(t)
                && timerCalls == old(timerCalls) + [NewTimer(timeoutEvent, d), Start(t)]
    {
      r := Pass;
      if hasTimeout {
        var d: Duration;
        if defaultTimeout.None? {
          if TimeoutKey !in config {
            return Fail(MissingTimeout);
          }
          d := config[TimeoutKey];
        } else {
          d := if TimeoutKey in config then config[TimeoutKey] else defaultTimeout.value;
        }
        timeoutDuration := Some(d);
        timer := Some(Timer(|timerCalls|, timeoutEvent, d));
        timerCalls := timerCalls + [NewTimer(timeoutEvent, d)];
        timerCalls := timerCalls + [Start(timer.value)];
      }
    }

    /** Stops the timer if one was started; otherwise does nothing. */
    method Exit()
      modifies this`timerCalls
      ensures timer.Some? ==> timerCalls == old(timerCalls) + [Stop(timer.value)]
      ensures timer.None? ==> timerCalls == old(timerCalls)
    {
      if timer.Some? {
        timerCalls := timerCalls + [Stop(timer.value)];
      }
    }
  }

  // ---------------------------------------------------------------------------
  // Task lifecycles

  /** A task whose base table sends `TIMEOUT` to `Next`: the rewritten table
      sends the task's own timeout event to the next task, and entering then
      exiting the task creates, starts and stops exactly one timer for that event,
      with the configured duration winning over the default. */
  method TimedTaskLifecycle(next: StateId) returns (table: Result<Table, TaskError>, entered: Outcome<TaskError>,
                                                    calls: seq<TimerCall>, event: EventKey)
    ensures event != Timeout
    ensures table == Ok(map[event := Some(next)])
    ensures entered == Pass
    ensures calls == [NewTimer(event, 10.0), Start(Timer(0, event, 10.0)), Stop(Timer(0, event, 10.0))]
  {
    var registry := new EventRegistry();
    var ai := TaskSequence(map["Search" := next], map[]);
    var task := new Task("Search", map[TimeoutKey := 10.0], ai, registry);
    table := task.Transitions(map[Timeout := Next]);
    assert table.Ok?;
    assert table.value.Keys == {task.timeoutEvent};
    assert table.value[task.timeoutEvent] == Some(next);
    assert table.value == map[task.timeoutEvent := Some(next)];
    entered := task.Enter(Some(30.0));
    task.Exit();
    calls := task.timerCalls;
    event := task.timeoutEvent;
  }

  /** A task whose only entry sends `TIMEOUT` to `Failure` while no failure state
      is configured: the rewrite fails, yet the task is already marked as having
      a timeout; entering it without any timeout configured then fails, and no
      timer is ever created or stopped. */
  method MisconfiguredTaskLifecycle() returns (table: Result<Table, TaskError>, marked: bool,
                                               entered: Outcome<TaskError>, calls: seq<TimerCall>)
    ensures table == Err(NoFailureState)
    ensures marked
    ensures entered == Fail(MissingTimeout)
    ensures calls == []
  {
    var registry := new EventRegistry();
    var task := new Task("Search", map[], TaskSequence(map[], map[]), registry);
    table := task.Transitions(map[Timeout := Failure]);
    marked := task.hasTimeout;
    entered := task.Enter(None);
    task.Exit();
    calls := task.timerCalls;
  }

  /** A task without a timeout entry: its table is copied with `Next` resolved,
      and entering it starts no timer and exiting it stops none, even with a
      timeout configured. */
  method UntimedTaskLifecycle(next: StateId) returns (table: Result<Table, TaskError>, entered: Outcome<TaskError>,
                                                      calls: seq<TimerCall>, found: EventKey)
    ensures found != Timeout
    ensures table == Ok(map[found := Some(next)])
    ensures entered == Pass
    ensures calls == []
  {
    var registry := new EventRegistry();
    found := registry.Declare("FOUND");
    var task := new Task("Search", map[TimeoutKey := 10.0], TaskSequence(map["Search" := next], map[]), registry);
    var base := map[found := Next];
    assert Timeout !in base && NoClash(base, task.timeoutEvent);
    assert !FailureUnresolved(base, task.failureState);
    table := task.Transitions(base);
    assert !task.hasTimeout;
    RewriteTableEntries(base, task.timeoutEvent, task.nextState, task.failureState);
    assert table.value == map[found := Some(next)];
    entered := task.Enter(Some(30.0));
    task.Exit();
    calls := task.timerCalls;
  }

  /** A timed task entered twice without an exit in between: the second entry
      creates and starts a second timer, and the exit stops only that one; the
      first timer is never stopped. */
  method ReenteredTaskLifecycle() returns (table: Result<Table, TaskError>, first: Outcome<TaskError>,
                                          second: Outcome<TaskError>, calls: seq<TimerCall>, event: EventKey)
    ensures table.Ok? && first == Pass && second == Pass
    ensures calls == [NewTimer(event, 10.0), Start(Timer(0, event, 10.0)),
                      NewTimer(event, 10.0), Start(Timer(2, event, 10.0)),
                      Stop(Timer(2, event, 10.0))]
    ensures Stop(Timer(0, event, 10.0)) !in calls
  {
    var registry := new EventRegistry();
    var task := new Task("Search", map[TimeoutKey := 10.0], TaskSequence(map["Search" := "Found"], map[]), registry);
    table := task.Transitions(map[Timeout := Next]);
    first := task.Enter(None);
    second := task.Enter(None);
    task.Exit();
    calls := task.timerCalls;
    event := task.timeoutEvent;
  }

  /** Two task objects of the same class declare two different timeout events,
      both labelled with the class name. */
  method DistinctTimeoutEvents(registry: EventRegistry) returns (first: EventKey, second: EventKey)
    modifies registry
    ensures first != second
    ensures registry.Declared(first) && registry.Declared(second)
    ensures registry.Label(first) == registry.Label(second) == "TIMEOUT_Search"
  {
    var task := new Task("Search", map[], TaskSequence(map[], map[]), registry);
    var again := new Task("Search", map[], TaskSequence(map[], map[]), registry);
    first, second := task.timeoutEvent, again.timeoutEvent;
  }
}
