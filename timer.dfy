/**
 * Timers (`timer` module, and the older `ahkpy/timer.py`): a `Timer` keeps
 * its interval, callback, priority and periodicity, and a weak reference
 * to the wrapper object it registered with AutoHotkey's SetTimer. The
 * wrapper stays alive while AutoHotkey holds it; once AutoHotkey deletes
 * the timer (or a one-shot timer has fired) the reference is dead and the
 * next update registers a fresh wrapper.
 */
module Timers {

  import opened Base

  const MinPriority := -2147483648
  const MaxPriority := 2147483647

  /** AutoHotkey thread priorities are 32-bit signed integers. */
  predicate Int32(p: int) { MinPriority <= p <= MaxPriority }

  const IntervalError := ValueError("interval must be positive")
  const PriorityError := ValueError("priority must be between -2147483648 and 2147483647")
  const FuncNoneError := TypeError("func must not be None")
  const NotCallableError := TypeError("timer callback must be callable")

  /**
   * The attributes of a Timer. `ref` is the weak reference (None until a
   * wrapper is made), `alive` whether its target still exists, and
   * `serial` tells the wrappers this timer makes apart.
   */
  datatype State = State(interval: real, func: Value, priority: int, periodic: bool,
                         ref: Option<Value>, alive: bool, serial: nat)

  /** What one update does: the new attributes, the commands sent, the exception raised. */
  datatype Step = Step(state: State, calls: seq<Call>, error: Option<Error>)

  /** `self._ref()` gives a wrapper. */
  predicate Live(s: State) { s.ref.Some? && s.alive }

  /**
   * The attributes a Timer can reach through its own methods: a valid
   * interval and priority, and a reference only to a wrapper it made.
   */
  predicate Valid(s: State)
  {
    && s.interval >= 0.0
    && Int32(s.priority)
    && (s.ref.Some? ==> s.ref.value.Wrapped? && s.ref.value.serial < s.serial)
  }

  function Either<T>(x: Option<T>, d: T): T { if x.Some? then x.value else d }

  /** The value Timer(interval, func, priority, periodic) starts with. */
  function New(interval: real, func: Value, priority: int, periodic: bool): (r: Result<State>)
    ensures r.Err? <==> interval < 0.0 || !Int32(priority)
    ensures interval < 0.0 ==> r == Err(IntervalError)
    ensures interval >= 0.0 && !Int32(priority) ==> r == Err(PriorityError)
    ensures r.Ok? ==> Valid(r.value) && r.value.ref.None? && !Live(r.value)
    ensures r.Ok? ==> r.value.interval == interval && r.value.func == func
                      && r.value.priority == priority && r.value.periodic == periodic
  {
    if interval < 0.0 then Err(IntervalError)
    else if !Int32(priority) then Err(PriorityError)
    else Ok(State(interval, func, priority, periodic, None, false, 0))
  }

  function Delete(w: Value): Call { Call("SetTimer", [w, S("Delete")]) }

  /** `stop()`. Once AutoHotkey deletes the timer it drops the wrapper, so the reference dies. */
  function StopStep(s: State): Step
  {
    if Live(s) then Step(s.(alive := false), [Delete(s.ref.value)], None)
    else Step(s, [], None)
  }

  /** The interval slot: `int(interval * 1000)`, negated for a one-shot timer. */
  function IntervalMs(interval: real, periodic: bool): int
  {
    if periodic then Ms(interval) else -Ms(interval)
  }

  /** The wrapper an update registers, and whether it had to be made (which forces a restart). */
  datatype Acquired = Acquired(state: State, wrapper: Value, made: bool)

  /** A live wrapper is reused; otherwise the callback must be callable and gets a new one. */
  function Acquire(s: State): Result<Acquired>
  {
    if Live(s) then Ok(Acquired(s, s.ref.value, false))
    else if !Callable(s.func) then Err(NotCallableError)
    else
      var w := Wrapped(s.func, s.serial);
      Ok(Acquired(s.(ref := Some(w), alive := false, serial := s.serial + 1), w, true))
  }

  /** An attribute update together with the slot it fills. */
  datatype Slot = Slot(state: State, value: Value)

  /** The interval slot: "" unless the interval or periodicity is given or a restart is due. */
  function IntervalSlot(s: State, interval: Option<real>, periodic: Option<bool>, restart: bool): Result<Slot>
  {
    if interval.Some? || periodic.Some? || restart then
      var iv := Either(interval, s.interval);
      if iv < 0.0 then Err(IntervalError)
      else
        var per := Either(periodic, s.periodic);
        Ok(Slot(s.(interval := iv, periodic := per), I(IntervalMs(iv, per))))
    else Ok(Slot(s, S("")))
  }

  /** The priority slot: "" unless the priority is given or a restart is due. */
  function PrioritySlot(s: State, priority: Option<int>, restart: bool): Result<Slot>
  {
    if priority.Some? || restart then
      var p := Either(priority, s.priority);
      if !Int32(p) then Err(PriorityError) else Ok(Slot(s.(priority := p), I(p)))
    else Ok(Slot(s, S("")))
  }

  /**
   * `update` once the callback is settled: find or make the wrapper, then
   * fill the interval and priority slots and send them if either is set.
   * Attributes are stored as they are validated, so an exception leaves
   * the earlier ones in place.
   */
  function RegisterStep(s: State, interval: Option<real>, priority: Option<int>,
                        periodic: Option<bool>, force: bool): Step
  {
    match Acquire(s)
    case Err(e) => Step(s, [], Some(e))
    case Ok(a) =>
      var restart := force || a.made;
      match IntervalSlot(a.state, interval, periodic, restart)
      case Err(e) => Step(a.state, [], Some(e))
      case Ok(i) =>
        match PrioritySlot(i.state, priority, restart)
        case Err(e) => Step(i.state, [], Some(e))
        case Ok(p) =>
          if i.value == S("") && p.value == S("") then Step(p.state, [], None)
          else Step(p.state.(alive := true), [Call("SetTimer", [a.wrapper, i.value, p.value])], None)
  }

  /** Commands `before` prefixed to a step. */
  function After(before: seq<Call>, r: Step): Step
  {
    r.(calls := before + r.calls)
  }

  /** `update(func, interval, priority, periodic, force_restart)`. A func of NoneV is "not given". */
  function UpdateStep(s: State, func: Value, interval: Option<real>, priority: Option<int>,
                  periodic: Option<bool>, force: bool): Step
  {
    if func != NoneV then
      var stopped := StopStep(s);
      After(stopped.calls, RegisterStep(stopped.state.(func := func, ref := None), interval, priority, periodic, force))
    else if s.func == NoneV then Step(s, [], Some(FuncNoneError))
    else RegisterStep(s, interval, priority, periodic, force)
  }

  /** `start(interval, priority, periodic)` as written: a forced update; `periodic` is not passed on. */
  function StartStep(s: State, interval: Option<real>, priority: Option<int>, periodic: Option<bool>): Step
  {
    UpdateStep(s, NoneV, interval, priority, None, true)
  }

  /** The one command a successful update ends with, if any. */
  function LastCall(r: Step): Option<Call>
  {
    if |r.calls| == 0 then None else Some(r.calls[|r.calls| - 1])
  }

  /** At most one command is sent, and after it the wrapper is live. */
  lemma RegisterShape(s: State, interval: Option<real>, priority: Option<int>, periodic: Option<bool>, force: bool)
    ensures var r := RegisterStep(s, interval, priority, periodic, force);
      && |r.calls| <= 1
      && (r.state.ref.Some? <==> s.ref.Some? || Callable(s.func))
      && (|r.calls| == 1 ==> Live(r.state) && r.error == None)
      && (Live(s) ==> r.state.alive && r.state.ref == s.ref)
  {
  }

  /** Every update keeps the attributes valid, whether or not it raises. */
  lemma UpdateKeepsValid(s: State, func: Value, interval: Option<real>, priority: Option<int>,
                         periodic: Option<bool>, force: bool)
    requires Valid(s)
    ensures Valid(UpdateStep(s, func, interval, priority, periodic, force).state)
    ensures Valid(StopStep(s).state)
  {
    var s0 := if func != NoneV then StopStep(s).state.(func := func, ref := None) else s;
    assert Valid(s0);
    RegisterKeepsValid(s0, interval, priority, periodic, force);
  }

  lemma RegisterKeepsValid(s: State, interval: Option<real>, priority: Option<int>, periodic: Option<bool>, force: bool)
    requires Valid(s)
    ensures Valid(RegisterStep(s, interval, priority, periodic, force).state)
  {
    match Acquire(s)
    case Err(_) =>
    case Ok(a) =>
      assert Valid(a.state);
      match IntervalSlot(a.state, interval, periodic, force || a.made)
      case Err(_) =>
      case Ok(i) =>
        assert Valid(i.state);
        match PrioritySlot(i.state, priority, force || a.made)
        case Err(_) =>
        case Ok(p) =>
          assert Valid(p.state);
  }

  /** `update(func=f)` deletes the running wrapper first, then registers f with a fresh wrapper. */
  lemma ReplaceFunc(s: State, func: Value, interval: Option<real>, priority: Option<int>,
                    periodic: Option<bool>, force: bool)
    requires func != NoneV
    ensures var r := UpdateStep(s, func, interval, priority, periodic, force);
      && r.state.func == func
      && (Live(s) ==> |r.calls| >= 1 && r.calls[0] == Delete(s.ref.value))
      && (!Live(s) ==> |r.calls| <= 1)
      && (!Callable(func) <==> r.error == Some(NotCallableError))
      && (r.error == None ==>
            (forall c :: c in r.calls ==> c.cmd == "SetTimer")
            && LastCall(r).Some? && LastCall(r).value.args[0] == Wrapped(func, s.serial)
            && LastCall(r).value.args[2] == I(r.state.priority)
            && Live(r.state) && r.state.ref == Some(Wrapped(func, s.serial)))
  {
    var stopped := StopStep(s);
    RegisterShape(stopped.state.(func := func, ref := None), interval, priority, periodic, force);
  }

  /** Without a callback, update() raises and changes nothing. */
  lemma UpdateWithoutFunc(s: State, interval: Option<real>, priority: Option<int>,
                          periodic: Option<bool>, force: bool)
    requires s.func == NoneV
    ensures UpdateStep(s, NoneV, interval, priority, periodic, force) == Step(s, [], Some(FuncNoneError))
  {
  }

  /**
   * A timer whose wrapper is missing or dead is restarted in full: a new
   * wrapper, the interval (negated for a one-shot timer) and the priority.
   */
  lemma DeadTimerRestarts(s: State, interval: Option<real>, priority: Option<int>,
                          periodic: Option<bool>, force: bool)
    requires !Live(s) && Callable(s.func)
    requires Either(interval, s.interval) >= 0.0 && Int32(Either(priority, s.priority))
    ensures var r := UpdateStep(s, NoneV, interval, priority, periodic, force);
      var iv := Either(interval, s.interval);
      var per := Either(periodic, s.periodic);
      var w := Wrapped(s.func, s.serial);
      && r.error == None
      && r.calls == [Call("SetTimer", [w, I(IntervalMs(iv, per)), I(Either(priority, s.priority))])]
      && r.state == s.(interval := iv, periodic := per, priority := Either(priority, s.priority),
                       ref := Some(w), alive := true, serial := s.serial + 1)
  {
  }

  /**
   * A priority-only update of a live timer sends an empty interval, so the
   * timer is not restarted, and changes nothing but the priority.
   */
  lemma PriorityOnlyUpdate(s: State, p: int)
    requires Live(s) && s.func != NoneV && Int32(p)
    ensures UpdateStep(s, NoneV, None, Some(p), None, false)
         == Step(s.(priority := p), [Call("SetTimer", [s.ref.value, S(""), I(p)])], None)
  {
  }

  /** With both slots empty nothing is sent and nothing changes. */
  lemma NothingToSend(s: State)
    requires Live(s) && s.func != NoneV
    ensures UpdateStep(s, NoneV, None, None, None, false) == Step(s, [], None)
  {
  }

  /** A command goes out only when one of the slots was filled, and then exactly one. */
  lemma SendsWhenSlotSet(s: State, interval: Option<real>, priority: Option<int>, periodic: Option<bool>, force: bool)
    requires Live(s) && s.func != NoneV
    ensures var r := UpdateStep(s, NoneV, interval, priority, periodic, force);
      r.error == None ==>
        (|r.calls| == 1 <==> interval.Some? || priority.Some? || periodic.Some? || force)
        && (|r.calls| == 0 ==> r.state == s)
  {
  }

  /**
   * As written, the restart interval carries the sign of the stored
   * periodic flag: a `periodic` given to `start` is dropped.
   */
  lemma StartIgnoresPeriodic(s: State, interval: Option<real>, priority: Option<int>, periodic: Option<bool>)
    requires s.func != NoneV && (Callable(s.func) || Live(s))
    requires Either(interval, s.interval) >= 0.0 && Int32(Either(priority, s.priority))
    ensures var r := StartStep(s, interval, priority, periodic);
      && r.error == None
      && r.state.periodic == s.periodic
      && (periodic.Some? && periodic.value != s.periodic ==> r.state.periodic != periodic.value)
      && LastCall(r) == Some(Call("SetTimer", [r.state.ref.value,
                                               I(IntervalMs(Either(interval, s.interval), s.periodic)),
                                               I(Either(priority, s.priority))]))
  {
  }

  /** Stopping twice sends the Delete command once. */
  lemma StopIdempotent(s: State)
    ensures var once := StopStep(s);
      && !Live(once.state)
      && once.calls == (if Live(s) then [Delete(s.ref.value)] else [])
      && StopStep(once.state) == Step(once.state, [], None)
  {
  }

  /**
   * A Timer object. The host's log receives the SetTimer commands; the
   * fields are the attributes, the weak reference and its liveness.
   */
  class Timer {
    /** Whether this is the older `ahkpy/timer.py` Timer (with its `update` corrected). */
    const legacy: bool
    var interval: real
    var func: Value
    var priority: int
    var periodic: bool
    var ref: Option<Value>
    var alive: bool
    var serial: nat

    function Attributes(): State
      reads this
    {
      State(interval, func, priority, periodic, ref, alive, serial)
    }

    constructor (legacy: bool, s: State)
      ensures this.legacy == legacy && Attributes() == s
    {
      this.legacy := legacy;
      interval, func, priority, periodic := s.interval, s.func, s.priority, s.periodic;
      ref, alive, serial := s.ref, s.alive, s.serial;
    }

    /** `Timer(interval, func, priority, periodic)`. */
    static method Create(legacy: bool, interval: real, func: Value, priority: int, periodic: bool) returns (r: Result<Timer>)
      ensures r.Err? ==> New(interval, func, priority, periodic) == Err(r.error)
      ensures r.Ok? ==> New(interval, func, priority, periodic) == Ok(r.value.Attributes())
                        && r.value.legacy == legacy && fresh(r.value)
    {
      if interval < 0.0 {
        return Err(IntervalError);
      }
      if !(MinPriority <= priority <= MaxPriority) {
        return Err(PriorityError);
      }
      var t := new Timer(legacy, State(interval, func, priority, periodic, None, false, 0));
      return Ok(t);
    }

    /** AutoHotkey lets go of the wrapper (a one-shot timer fired, or the timer was deleted). */
    method Released()
      modifies this
      ensures Attributes() == old(Attributes()).(alive := false)
    {
      alive := false;
    }

    method Stop(host: Host)
      modifies this, host
      ensures Attributes() == StopStep(old(Attributes())).state
      ensures host.log == old(host.log) + StopStep(old(Attributes())).calls
    {
      if ref.None? {
        return;
      }
      if alive {
        host.Emit(Delete(ref.value));
        alive := false;
      }
    }

    method Update(host: Host, newFunc: Value, newInterval: Option<real>, newPriority: Option<int>,
                  newPeriodic: Option<bool>, forceRestart: bool) returns (err: Option<Error>)
      modifies this, host
      ensures var r := UpdateOf(legacy, old(Attributes()), newFunc, newInterval, newPriority, newPeriodic, forceRestart);
        Attributes() == r.state && host.log == old(host.log) + r.calls && err == r.error
    {
      if newFunc != NoneV {
        err := Replace(host, newFunc, newInterval, newPriority, newPeriodic, forceRestart);
      } else if !legacy && func == NoneV {
        err := Some(FuncNoneError);
      } else {
        err := Register(host, newInterval, newPriority, newPeriodic, forceRestart);
      }
    }

    /** Lines for a new callback: stop the old timer, forget its wrapper, register the new one. */
    method Replace(host: Host, newFunc: Value, newInterval: Option<real>, newPriority: Option<int>,
                   newPeriodic: Option<bool>, forceRestart: bool) returns (err: Option<Error>)
      modifies this, host
      ensures var stopped := StopStep(old(Attributes()));
        var r := After(stopped.calls, RegisterStep(stopped.state.(func := newFunc, ref := None),
                                                   newInterval, newPriority, newPeriodic, forceRestart));
        Attributes() == r.state && host.log == old(host.log) + r.calls && err == r.error
    {
      ghost var stopped := StopStep(Attributes());
      ghost var r := RegisterStep(stopped.state.(func := newFunc, ref := None), newInterval, newPriority, newPeriodic, forceRestart);
      Stop(host);
      ghost var mid := host.log;
      func := newFunc;
      ref := None;
      assert Attributes() == stopped.state.(func := newFunc, ref := None);
      err := Register(host, newInterval, newPriority, newPeriodic, forceRestart);
      assert host.log == mid + r.calls;
      assert host.log == old(host.log) + (stopped.calls + r.calls);
    }

    /** Lines after the callback is settled: the wrapper, the slots, the command. */
    method Register(host: Host, newInterval: Option<real>, newPriority: Option<int>,
                    newPeriodic: Option<bool>, forceRestart: bool) returns (err: Option<Error>)
      modifies this, host
      ensures var r := RegisterStep(old(Attributes()), newInterval, newPriority, newPeriodic, forceRestart);
        && Attributes() == r.state && err == r.error && host.log == old(host.log) + r.calls
    {
      var wrapper, made;
      err, wrapper, made := AcquireWrapper();
      if err.Some? {
        return;
      }
      var force := forceRestart || made;
      var iSlot, pSlot;
      err, iSlot := FillInterval(newInterval, newPeriodic, force);
      if err.Some? {
        return;
      }
      err, pSlot := FillPriority(newPriority, force);
      if err.Some? {
        return;
      }
      if iSlot != S("") || pSlot != S("") {
        host.Emit(Call("SetTimer", [wrapper, iSlot, pSlot]));
        alive := true;
      }
    }

    /** Lines that read the weak reference and make a wrapper when it is missing or dead. */
    method AcquireWrapper() returns (err: Option<Error>, wrapper: Value, made: bool)
      modifies this
      ensures var r := Acquire(old(Attributes()));
        && (err.Some? <==> r.Err?)
        && (r.Err? ==> err == Some(r.error) && Attributes() == old(Attributes()))
        && (r.Ok? ==> Attributes() == r.value.state && wrapper == r.value.wrapper && made == r.value.made)
    {
      var current: Option<Value> := None;
      if ref.Some? && alive {
        current := ref;
      }
      if current.Some? {
        return None, current.value, false;
      }
      if !Callable(func) {
        return Some(NotCallableError), NoneV, false;
      }
      wrapper := Wrapped(func, serial);
      ref, alive, serial := Some(wrapper), false, serial + 1;
      return None, wrapper, true;
    }

    method FillInterval(newInterval: Option<real>, newPeriodic: Option<bool>, force: bool)
      returns (err: Option<Error>, slot: Value)
      modifies this
      ensures var r := IntervalSlot(old(Attributes()), newInterval, newPeriodic, force);
        && (err.Some? <==> r.Err?)
        && (r.Err? ==> err == Some(r.error) && Attributes() == old(Attributes()))
        && (r.Ok? ==> Attributes() == r.value.state && slot == r.value.value)
    {
      if !(newInterval.Some? || newPeriodic.Some? || force) {
        return None, S("");
      }
      var iv := if newInterval.Some? then newInterval.value else interval;
      if iv < 0.0 {
        return Some(IntervalError), NoneV;
      }
      interval := iv;
      var ms := Ms(iv);
      if newPeriodic.Some? {
        periodic := newPeriodic.value;
      }
      if !periodic {
        ms := -ms;
      }
      return None, I(ms);
    }

    method FillPriority(newPriority: Option<int>, force: bool) returns (err: Option<Error>, slot: Value)
      modifies this
      ensures var r := PrioritySlot(old(Attributes()), newPriority, force);
        && (err.Some? <==> r.Err?)
        && (r.Err? ==> err == Some(r.error) && Attributes() == old(Attributes()))
        && (r.Ok? ==> Attributes() == r.value.state && slot == r.value.value)
    {
      if !(newPriority.Some? || force) {
        return None, S("");
      }
      var p := if newPriority.Some? then newPriority.value else priority;
      if !(MinPriority <= p <= MaxPriority) {
        return Some(PriorityError), NoneV;
      }
      priority := p;
      return None, I(p);
    }

    method Start(host: Host, newInterval: Option<real>, newPriority: Option<int>, newPeriodic: Option<bool>)
      returns (err: Option<Error>)
      modifies this, host
      ensures var r := StartOf(legacy, old(Attributes()), newInterval, newPriority, newPeriodic);
        Attributes() == r.state && host.log == old(host.log) + r.calls && err == r.error
    {
      err := Update(host, NoneV, newInterval, newPriority, newPeriodic, true);
    }
  }

  /** What `set_timer` and `set_countdown` give back: a started Timer, or the decorator that will start it. */
  datatype Scheduled = Started(step: Step) | Decorator(pending: State, args: seq<Value>)

  /** The decorator: bind the arguments, store the callback, then `start()`. */
  function Decorate(s: State, func: Value, args: seq<Value>): Result<Step>
  {
    match Bind(func, args)
    case Err(e) => Err(e)
    case Ok(f) => Ok(StartStep(s.(func := f), None, None, None))
  }

  /**
   * `set_timer(interval, func, *args, priority=...)` and `set_countdown(...)`:
   * the Timer is made (and its interval and priority checked) first; without
   * a callback the decorator is returned and nothing is sent.
   */
  function Schedule(interval: real, func: Value, args: seq<Value>, priority: int, periodic: bool): Result<Scheduled>
  {
    match New(interval, func, priority, periodic)
    case Err(e) => Err(e)
    case Ok(s) =>
      if func == NoneV then Ok(Decorator(s, args))
      else match Decorate(s, func, args)
        case Err(e) => Err(e)
        case Ok(r) => Ok(Started(r))
  }

  /**
   * Without a callback the checks still run and a decorator holding the new
   * Timer comes back; a callable is registered once, with its own wrapper
   * around the callback (bound to `args` by partial), the interval and the
   * priority; a non-callable fails in partial when there are arguments and
   * in the timer's update otherwise.
   */
  lemma ScheduleCalls(interval: real, func: Value, args: seq<Value>, priority: int, periodic: bool)
    ensures var r := Schedule(interval, func, args, priority, periodic);
      && (r.Err? <==> interval < 0.0 || !Int32(priority) || (func != NoneV && args != [] && !Callable(func)))
      && (r.Err? && interval >= 0.0 && Int32(priority) ==> r.error == PartialError)
      && (r.Ok? && func == NoneV ==>
            r.value.Decorator? && r.value.args == args && r.value.pending.func == NoneV
            && r.value.pending.interval == interval && r.value.pending.priority == priority
            && r.value.pending.periodic == periodic && !Live(r.value.pending))
      && (r.Ok? && func != NoneV && !Callable(func) ==>
            r.value.Started? && r.value.step.error == Some(NotCallableError) && r.value.step.calls == [])
      && (r.Ok? && Callable(func) ==>
            && r.value.Started? && r.value.step.error == None
            && r.value.step.calls == [Call("SetTimer", [Wrapped(if args == [] then func else Partial(func, args), 0),
                                                        I(IntervalMs(interval, periodic)), I(priority)])]
            && Live(r.value.step.state))
  {
  }

  /** Applying the decorator to a callback does what passing the callback directly does. */
  lemma DecoratorStarts(interval: real, args: seq<Value>, priority: int, periodic: bool, func: Value)
    requires func != NoneV
    ensures match Schedule(interval, NoneV, args, priority, periodic)
      case Err(e) => Schedule(interval, func, args, priority, periodic) == Err(e)
      case Ok(d) =>
        d.Decorator? &&
        match Decorate(d.pending, func, d.args)
        case Err(e) => Schedule(interval, func, args, priority, periodic) == Err(e)
        case Ok(r) => Schedule(interval, func, args, priority, periodic) == Ok(Started(r))
  {
  }

  // The older `ahkpy/timer.py` Timer.

  const CancelError := AttributeError("'Timer' object has no attribute 'cancel'")

  /**
   * `update` of the older Timer as it is written: a new callback makes it
   * call `self.cancel()`, a method the class does not have; without one it
   * goes straight to the wrapper (there is no "func must not be None" check).
   */
  function OlderUpdateAsWritten(s: State, func: Value, interval: Option<real>, priority: Option<int>,
                                periodic: Option<bool>, force: bool): Step
  {
    if func != NoneV then Step(s, [], Some(CancelError))
    else RegisterStep(s, interval, priority, periodic, force)
  }

  /** The older `update` with `stop()` in place of the missing `cancel()`. */
  function OlderUpdateStep(s: State, func: Value, interval: Option<real>, priority: Option<int>,
                       periodic: Option<bool>, force: bool): Step
  {
    if func != NoneV then
      var stopped := StopStep(s);
      After(stopped.calls, RegisterStep(stopped.state.(func := func, ref := None), interval, priority, periodic, force))
    else RegisterStep(s, interval, priority, periodic, force)
  }

  /** As written, replacing the callback of any timer raises and leaves the old timer running. */
  lemma OlderReplaceFuncRaises(s: State, func: Value)
    requires func != NoneV
    ensures OlderUpdateAsWritten(s, func, None, None, None, false) == Step(s, [], Some(CancelError))
  {
  }

  /** Corrected, it behaves as the current Timer: delete the old wrapper, register the new callback. */
  lemma OlderReplaceFunc(s: State, func: Value, interval: Option<real>, priority: Option<int>,
                         periodic: Option<bool>, force: bool)
    requires func != NoneV
    ensures OlderUpdateStep(s, func, interval, priority, periodic, force) == UpdateStep(s, func, interval, priority, periodic, force)
    ensures var r := OlderUpdateStep(s, func, interval, priority, periodic, force);
      && r.state.func == func
      && (Live(s) ==> |r.calls| >= 1 && r.calls[0] == Delete(s.ref.value))
      && (Callable(func) && r.error == None ==> Live(r.state) && r.state.ref == Some(Wrapped(func, s.serial)))
  {
    ReplaceFunc(s, func, interval, priority, periodic, force);
  }

  /** Without a new callback the two Timers agree, except that the older one reports a missing callback as not callable. */
  lemma OlderAgreesWithoutFunc(s: State, interval: Option<real>, priority: Option<int>,
                               periodic: Option<bool>, force: bool)
    ensures s.func != NoneV ==>
      OlderUpdateStep(s, NoneV, interval, priority, periodic, force) == UpdateStep(s, NoneV, interval, priority, periodic, force)
    ensures s.func == NoneV && !Live(s) ==>
      OlderUpdateStep(s, NoneV, interval, priority, periodic, force) == Step(s, [], Some(NotCallableError))
    ensures OlderUpdateAsWritten(s, NoneV, interval, priority, periodic, force)
         == OlderUpdateStep(s, NoneV, interval, priority, periodic, force)
  {
  }

  /** `update` of the current Timer, or of the older one with `stop()` in place of `cancel()`. */
  function UpdateOf(legacy: bool, s: State, func: Value, interval: Option<real>, priority: Option<int>,
                    periodic: Option<bool>, force: bool): Step
  {
    if legacy then OlderUpdateStep(s, func, interval, priority, periodic, force)
    else UpdateStep(s, func, interval, priority, periodic, force)
  }

  /** `start` of either Timer, corrected to pass `periodic` on to the forced update. */
  function StartOf(legacy: bool, s: State, interval: Option<real>, priority: Option<int>, periodic: Option<bool>): Step
  {
    UpdateOf(legacy, s, NoneV, interval, priority, periodic, true)
  }

  /**
   * Corrected, `start(periodic=...)` updates the stored flag and the
   * restart interval carries its sign, in either Timer.
   */
  lemma StartHonoursPeriodic(legacy: bool, s: State, interval: Option<real>, priority: Option<int>, periodic: Option<bool>)
    requires s.func != NoneV && (Callable(s.func) || Live(s))
    requires Either(interval, s.interval) >= 0.0 && Int32(Either(priority, s.priority))
    ensures var r := StartOf(legacy, s, interval, priority, periodic);
      && r.error == None
      && r.state.periodic == Either(periodic, s.periodic)
      && LastCall(r) == Some(Call("SetTimer", [r.state.ref.value,
                                               I(IntervalMs(Either(interval, s.interval), Either(periodic, s.periodic))),
                                               I(Either(priority, s.priority))]))
  {
  }
}
