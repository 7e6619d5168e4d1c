# StatePy task layer and example machine, in Dafny

StatePy is a small finite-state-machine engine: states are classes with a
transition table (event type to successor state class) and `enter`/`exit`
hooks, and a machine enters a new state object on every transition. This
project models two parts of it.

**The task layer** (`statepy/task.py`, module `Task` in `task.dfy`). A `Task`
is a state whose base table is written with markers: the successor `Next`
stands for "the task after this one", `Failure` for "the failure state", and
the generic event `TIMEOUT` for "this task's own timeout". `Task.Transitions`
rewrites the base table entry by entry, visiting the entries in no fixed
order as a Python dictionary does; it marks the task as having a timeout when
it meets `TIMEOUT`, and fails when an entry targets `Failure` and no failure
state is configured. It is proved against the pure rewrite `RewriteTable`,
about which the one-entry-per-entry and per-key lemmas are proved. `Enter`
resolves a timeout duration and creates and starts one timer; `Exit` stops it.
The timer manager is recorded as the sequence of requests the task makes of
it (`timerCalls`).

**The example machine** (`docs/basics.py`, module `Basics` in `basics.dfy`).
States A, B and End with their tables as data; a state object per activation
(`Activation`) holding A's state variable `myVar`; a `Machine` class with
`Start`, `InjectEvent` and `CurrentState`; a walk over the tables from a start
state; and the documentation's script as a method whose result is proved.

Event identities stand in for `declareEventType` through `Events.EventRegistry`
(`events.dfy`), which is assumed to hand out a new identity per declaration,
even for a repeated label; `TIMEOUT` is the
distinguished identity `Timeout`. `wrappers.dfy` holds `Option`, `Result` and
`Outcome`.

The engine module `statepy/state.py` (the `Machine`, `State` and
`declareEventType` themselves) is not modelled here; the
machine rules modelled are the ones `docs/basics.py` states in its comments:
a state without a table is entered and exited at once (lines 105-111, 149-150),
a `LOOP` back into the same state keeps the state (line 138), every entry
builds a new object (lines 72-75), the handler named by the event's label runs
on a transition (lines 40-42; the hook log records a handler by its event, whose
label is its name), and `start` enters the start state (line 134).

## Model

| member | source | states |
|---|---|---|
| `Events.EventRegistry.Declare` | statepy/task.py:71-72 | under the modelled assumption about `declareEventType`, each declaration returns an identity not handed out before, even when the label repeats, keeps every earlier identity and label, and records the label |
| `Task.Attributes` | statepy/task.py:122-133 | the declared attributes cover everything `enter` reads from the configuration: two configurations that agree on them resolve the same timeout duration, or the same failure |
| `Task.AttributesAllRead` | statepy/task.py:122-133 | no declared attribute is superfluous: configuring it alone gives the duration entering resolves, where the empty configuration without a default fails |
| `Task.RewriteTable` | statepy/task.py:96-120 | the closed-form rewrite that the `Transitions` loop is proved equal to; its error condition (exactly when some entry targets `Failure` and no failure state is configured) is proved of the loop in `Task.Task.Transitions`, and its entries and size by `Task.RewriteTableEntries` and `Task.RewriteTableSize` |
| `Task.RewriteTableSize` | statepy/task.py:96-118 | a successful rewrite has exactly one entry per base entry |
| `Task.RewriteTableEntries` | statepy/task.py:101-118 | `TIMEOUT` is gone and replaced by the task's own event; every other key is copied; `Next` becomes the next state with no check that one exists; `Failure` becomes the (existing) failure state; a concrete state is kept; the table holds nothing else |
| `Task.RewriteOfIsRewriteTable` | statepy/task.py:96-120 | whatever order the entries are visited in, a table built entry by entry from the whole base table is the rewritten table |
| `Task.Task.constructor` | statepy/task.py:66-81 | declares a new event labelled `TIMEOUT_` + class name, takes the next and failure states from the AI subsystem, and starts with no timeout, no duration, no timer |
| `Task.Task.Transitions` | statepy/task.py:91-120 | fails exactly when an entry targets `Failure` without a failure state; otherwise returns the rewritten table (on a `TIMEOUT`/own-event clash, either entry may win that key); the timeout flag becomes true exactly when `TIMEOUT` is a key and never goes back to false |
| `Task.Task.Enter` | statepy/task.py:126-137 | without a timeout does nothing; with one, its body (which branches on the default first, as the source does) is proved to follow the duration definition `Task.ResolveTimeout`: the configured `timeout` wins over the default, a missing key without a default fails and changes nothing, and otherwise the duration is stored and one timer for the task's event is created and then started; the timer's serial is the position of its creation request in the log |
| `Task.Task.Exit` | statepy/task.py:139-141 | stops the timer if and only if one was created, and does nothing else |
| `Task.TimedTaskLifecycle` | statepy/task.py:96-141 | a base table sending `TIMEOUT` to `Next` becomes one entry from the task's own event to the next task; entering and exiting creates, starts and stops exactly one timer, with the configured duration over the default |
| `Task.MisconfiguredTaskLifecycle` | statepy/task.py:101-133 | a `TIMEOUT` entry targeting `Failure` without a failure state fails the rewrite yet leaves the task marked as timed; entering with no timeout configured and no default then fails, and no timer is created or stopped |
| `Task.UntimedTaskLifecycle` | statepy/task.py:96-141 | a base table whose only entry sends a declared event to `Next` is copied with `Next` resolved and leaves the task untimed, so entering succeeds and entering and exiting create, start and stop no timer even when a timeout is configured |
| `Task.ReenteredTaskLifecycle` | statepy/task.py:126-141 | after a successful `TIMEOUT`-to-`Next` rewrite, entering the task twice without an exit succeeds twice and creates and starts two distinct timers, and the exit stops only the second; the first is never stopped |
| `Task.DistinctTimeoutEvents` | statepy/task.py:71-72 | two task objects of the same class declare two different timeout events, both labelled `TIMEOUT_` + the class name |
| `Basics.TablesAsDeclared` | docs/basics.py:43-111 | A's table is exactly `TO_B` to B and `LOOP` to A, B's is exactly `TO_A` to A and `TO_END` to End, End is the only state without a table, `LOOP` is the only self-transition, and every event's label names a handler of its state |
| `Basics.WalkStates` | docs/basics.py:123-127 | the walk from a start state ends, contains the start, is closed under the tables and holds only states reachable from the start |
| `Basics.WalkFromStateA` | docs/basics.py:123-127 | every state is reachable from A, and any closed set holding A is exactly {A, B, End} |
| `Basics.Activation.Enter` | docs/basics.py:68-75 | entering A sets `myVar` to 5; entering another state leaves it alone |
| `Basics.Activation.Handle` | docs/basics.py:60-66 | runs the handler named by the event's label, which the state must define: A's `LOOP_handle` adds 5 to `myVar`; every other handler leaves it alone |
| `Basics.Machine.constructor` | docs/basics.py:130-131 | a new machine has no current state and has made no hook calls |
| `Basics.Machine.CurrentState` | docs/basics.py:105-111 | in a valid machine the current state is never one without a table (the end state is exited as soon as it is entered), and while A is current its `myVar` is set |
| `Basics.Machine.Start` | docs/basics.py:133-135 | the start state is entered, as a new object, before `Start` returns; a start state without a table is exited at once |
| `Basics.Machine.InjectEvent` | docs/basics.py:138-150 | an event in the current table is taken, otherwise nothing changes; a self-transition runs the handler on the same object; any other transition exits, runs the handler, then enters a new object whose `myVar` is freshly initialised, and a successor without a table is exited at once leaving no current state |
| `Basics.ScriptSteps` | docs/basics.py:43-111 | the hook calls and resulting state of each step the documentation's script takes: `LOOP` in A only runs the handler, `TO_B` and `TO_A` exit, handle and enter, `TO_END` also exits the end state and leaves no current state |
| `Basics.BasicsScript` | docs/basics.py:130-150 | starting in A and injecting `LOOP`, `TO_B`, `TO_A`, `TO_B`, `TO_END` is in A, A, B, A, B and then in no state, with the exact hook sequence (A and B entered and exited twice, End once, each exit after its entry) |
| `Basics.StateVariableScript` | docs/basics.py:60-75 | along the same script, `myVar` is 10 after `LOOP`, and re-entering A after `TO_B`, `TO_A` gives a new object with 5 while the old one keeps 10 |

## Left out

- `Task.Task.Transitions`: when a base table lists both `TIMEOUT` and the task's own timeout event, the value at that key depends on dictionary order; the contract says only that one of the two entries wins. On the failing path, whether the timeout flag was set depends on whether `TIMEOUT` was visited before the failing entry; the contract gives the bounds (it never goes back to false, it is set only if `TIMEOUT` is a key, and it is set when `TIMEOUT`'s own entry is the only failing one).
- The source raises a plain string when no failure state is configured (a `TypeError` on current Python 2); the model returns the structured error `NoFailureState`.
- The subclass hook `_transitions()` is a parameter of `Transitions`; the AI subsystem (`getNextTask`, `getFailureState`) is a pair of maps; the configuration is a map from keys to durations; how `State.__init__` builds them is not part of this model.
- State classes are identified by class name rather than by class object; the marker class `End` is, to the task layer, an ordinary concrete target and gets no declaration of its own.
- Events.EventRegistry.Declare: the engine's `declareEventType` is not modelled; the registry assumes every call returns a new identity even when the label was declared before, and `Task.DistinctTimeoutEvents` (two tasks of one class get different timeout events) follows from that assumption rather than from the task layer's own code.
- Timer firing, the clock and the scheduling context timers run on are left out: the model records only the create, start and stop requests.
- `Task.Task.Enter` called twice without `Exit` replaces the timer without stopping the first one, as the source does (`Task.ReenteredTaskLifecycle` shows it); nothing stops a caller from doing so.
- `Basics.Machine.InjectEvent`: the machine's source is not part of this model, so where the handler runs relative to `exit` and `enter` on a transition to another state is this model's choice (after `exit`, before `enter`); injecting an event the current table does not list, or injecting with no current state, leaves the machine unchanged and is reported only by the returned flag.
- `Basics.Machine.Start`: starting a machine twice is not treated as an error; the second start replaces the current state.
- Writing the state graph in dot format (`writeStateGraph`) and every `print` are output side effects and are left out; the walk models only which states the graph covers.
- `docs/test_docs.py` (runs the examples and compares output files) and `setup.py` (packaging) hold no engine logic.
