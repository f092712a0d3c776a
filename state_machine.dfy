/** The table-driven finite-state machine that every service owns
    (AbstractStateMachine and PassthroughEvent in ginkgo/util.py; the
    two-phase package carries an identical copy in gservice/state.py).

    A machine class is described by a `Table`: its initial state, the
    states a caller may wait for (`allow_wait`) and one `EventDef` per
    `event_<name>` attribute.  Each waitable state owns a binary signal. */
module StateMachine {

  import opened Wrappers

  type State = string
  type EventName = string

  /** One `event_<name>` attribute: legal source states, target state, callback name. */
  datatype EventDef = EventDef(sources: seq<State>, target: State, callback: Option<string>)

  /** A machine class: `initial_state`, `allow_wait` and its `event_<name>` attributes. */
  datatype Table = Table(initial: State, allowWait: seq<State>, events: map<EventName, EventDef>)

  /** The machine's subject, seen only through its callbacks: the callback
      names it defines, and those of them that raise when called. */
  datatype Subject = Subject(defines: set<string>, raising: set<string>)

  /** The exceptions the engine (and the services built on it) raise. */
  datatype Error =
    | NoSuchEvent(event: EventName)               // AttributeError from _lookup_event
    | CannotEnter(target: State, current: State)  // RuntimeWarning from __call__
    | CannotWait(waited: State)                   // RuntimeWarning from wait
    | CallbackRaised(callback: string)            // whatever a subject callback raised
    | NotReady                                    // RuntimeWarning from require_ready
    | NotAChild                                   // ValueError from list.remove
  {
    /** The errors an `except RuntimeWarning` clause catches. */
    predicate IsRuntimeWarning() { CannotEnter? || CannotWait? || NotReady? }
  }

  datatype Result<T> = Ok(value: T) | Err(error: Error)

  /** The effect of a legal event: the state entered and the callback that ran. */
  datatype Fired = Fired(state: State, callback: Option<string>)

  /** Firing `event` from `current` (`__call__`): look the event up, check
      the source state, run the callback if the subject defines it, and
      only then enter the target state. */
  function Step(table: Table, subject: Subject, current: State, event: EventName): (r: Result<Fired>)
    ensures event !in table.events ==> r == Err(NoSuchEvent(event))
    ensures event in table.events && current !in table.events[event].sources ==>
              r == Err(CannotEnter(table.events[event].target, current))
    ensures r.Ok? <==> event in table.events && current in table.events[event].sources &&
                       !(table.events[event].callback.Some? &&
                         table.events[event].callback.value in subject.defines * subject.raising)
    ensures r.Ok? ==> r.value.state == table.events[event].target
    ensures r.Ok? ==> (r.value.callback.Some? <==>
                         table.events[event].callback.Some? &&
                         table.events[event].callback.value in subject.defines)
    ensures r.Ok? && r.value.callback.Some? ==> r.value.callback == table.events[event].callback
  {
    if event !in table.events then Err(NoSuchEvent(event))
    else
      var def := table.events[event];
      if current !in def.sources then Err(CannotEnter(def.target, current))
      else
        match def.callback
        case Some(name) =>
          if name !in subject.defines then Ok(Fired(def.target, None))
          else if name in subject.raising then Err(CallbackRaised(name))
          else Ok(Fired(def.target, Some(name)))
        case None => Ok(Fired(def.target, None))
  }

  /** `wait(state)`: legal exactly for the waitable states. */
  function WaitStep(table: Table, waited: State): (r: Result<()>)
    ensures r.Ok? <==> waited in table.allowWait
    ensures r.Err? ==> r.error == CannotWait(waited)
  {
    if waited in table.allowWait then Ok(()) else Err(CannotWait(waited))
  }

  /** Firing a sequence of events, stopping at the first one that raises. */
  function Run(table: Table, subject: Subject, current: State, events: seq<EventName>): Result<State>
    decreases |events|
  {
    if events == [] then Ok(current)
    else
      match Step(table, subject, current, events[0])
      case Err(e) => Err(e)
      case Ok(f) => Run(table, subject, f.state, events[1..])
  }

  /** The states a machine of this class can ever be in: the initial state and every target. */
  ghost function StatesOf(table: Table): set<State>
  {
    {table.initial} + set e | e in table.events :: table.events[e].target
  }

  /** Whatever events are fired, the machine stays inside the table's fixed set of states. */
  lemma {:induction false} RunStaysInStates(table: Table, subject: Subject, current: State,
                                             events: seq<EventName>)
    requires current in StatesOf(table)
    ensures Run(table, subject, current, events).Ok? ==>
              Run(table, subject, current, events).value in StatesOf(table)
    decreases |events|
  {
    if events != [] {
      var r := Step(table, subject, current, events[0]);
      if r.Ok? {
        assert r.value.state == table.events[events[0]].target;
        RunStaysInStates(table, subject, r.value.state, events[1..]);
      }
    }
  }

  /** A run that raises leaves the state where the failing event found it:
      running the events one by one agrees with running them together. */
  lemma {:induction false} RunAppend(table: Table, subject: Subject, current: State,
                                     first: seq<EventName>, second: seq<EventName>)
    ensures Run(table, subject, current, first + second) ==
              match Run(table, subject, current, first)
              case Err(e) => Err(e)
              case Ok(mid) => Run(table, subject, mid, second)
    decreases |first|
  {
    if first == [] {
      assert first + second == second;
    } else {
      assert (first + second)[0] == first[0];
      assert (first + second)[1..] == first[1..] + second;
      var r := Step(table, subject, current, first[0]);
      if r.Ok? {
        RunAppend(table, subject, r.value.state, first[1..], second);
      }
    }
  }

  /** A live state machine (`AbstractStateMachine` instance). */
  class Machine {
    const table: Table
    const subject: Subject
    /** True when the signals are `PassthroughEvent`s, whose set, clear and wait do nothing. */
    const passthrough: bool
    var state: State
    /** `_waitables`: the signal of each waitable state. */
    var signals: map<State, bool>
    /** Whether any transition has happened yet. */
    ghost var moved: bool

    /** The signal invariant: the waitable states each have a signal, and a
        signal is set exactly for the current state once the machine has
        moved (signals are created clear, and passthrough ones never set). */
    ghost predicate Valid()
      reads this
    {
      && (forall s :: s in signals <==> s in table.allowWait)
      && (forall s :: s in signals ==> (signals[s] <==> !passthrough && moved && s == state))
    }

    constructor (table: Table, subject: Subject, passthrough: bool)
      ensures Valid()
      ensures this.table == table && this.subject == subject && this.passthrough == passthrough
      ensures state == table.initial && !moved
    {
      this.table := table;
      this.subject := subject;
      this.passthrough := passthrough;
      state := table.initial;
      moved := false;
      var created: map<State, bool> := map[];
      var i := 0;
      while i < |table.allowWait|
        invariant 0 <= i <= |table.allowWait|
        invariant forall s :: s in created <==> s in table.allowWait[..i]
        invariant forall s :: s in created ==> !created[s]
      {
        created := created[table.allowWait[i] := false];
        i := i + 1;
      }
      assert table.allowWait[..i] == table.allowWait;
      signals := created;
    }

    /** `wait(state)`: raises for a state outside `allow_wait`; otherwise
        returns at once (nothing else runs meanwhile), reporting whether the
        signal was set, i.e. whether the wait would have been satisfied. */
    method Wait(waited: State) returns (r: Result<bool>)
      requires Valid()
      ensures r.Ok? <==> waited in table.allowWait
      ensures r.Err? ==> r.error == CannotWait(waited)
      ensures r.Ok? ==> (r.value <==> !passthrough && moved && state == waited)
    {
      if waited in signals {
        r := Ok(signals[waited]);
      } else {
        r := Err(CannotWait(waited));
      }
    }

    /** `__call__(event)`: the callback runs before the transition, so it
        sees the old state, and an illegal event or a raising callback
        leaves the machine untouched. */
    method Fire(event: EventName) returns (r: Result<Option<string>>)
      requires Valid()
      modifies this
      ensures Valid()
      ensures match Step(table, subject, old(state), event)
              case Ok(f) => r == Ok(f.callback) && state == f.state && moved
              case Err(e) => r == Err(e) && state == old(state) && signals == old(signals) &&
                             moved == old(moved)
    {
      if event !in table.events {
        return Err(NoSuchEvent(event));
      }
      var def := table.events[event];
      if state !in def.sources {
        return Err(CannotEnter(def.target, state));
      }
      var ran: Option<string> := None;
      if def.callback.Some? && def.callback.value in subject.defines {
        if def.callback.value in subject.raising {
          return Err(CallbackRaised(def.callback.value));
        }
        ran := def.callback;
      }
      Transition(def.target);
      r := Ok(ran);
    }

    /** `_transition`: clear every signal, enter the new state, set its signal. */
    method Transition(target: State)
      requires Valid()
      modifies this
      ensures Valid() && state == target && moved
    {
      var i := 0;
      while i < |table.allowWait|
        invariant 0 <= i <= |table.allowWait|
        invariant forall s :: s in signals <==> s in table.allowWait
        invariant forall s :: s in signals && s in table.allowWait[..i] ==> !signals[s]
        invariant forall s :: s in signals && signals[s] ==> !passthrough && moved && s == state
      {
        signals := signals[table.allowWait[i] := false];
        i := i + 1;
      }
      assert table.allowWait[..i] == table.allowWait;
      state := target;
      moved := true;
      if target in signals && !passthrough {
        signals := signals[target := true];
      }
    }
  }

  /** At most one signal is ever set, and once the machine has moved the
      signal of every waitable state tells whether it is the current one. */
  lemma SignalsTrackState(m: Machine, a: State, b: State)
    requires m.Valid()
    ensures a in m.signals && b in m.signals && m.signals[a] && m.signals[b] ==> a == b
    ensures !m.passthrough && m.moved && a in m.table.allowWait ==> (m.signals[a] <==> m.state == a)
  {
  }
}
