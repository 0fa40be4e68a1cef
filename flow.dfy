/**
 * Control flow helpers of the older `ahkpy/flow.py` (its `Timer`, the
 * one-shot `Countdown` and `sleep`) and of the `ahk` package's `flow`
 * module (`set_batch_lines`, `set_timer`, `sleep` and its frozen `Timer`).
 */
module Flow {

  import opened Base
  import opened Text
  import T = Timers

  /**
   * The attributes of an `ahkpy/flow.py` Timer: as the current Timer's,
   * without periodicity (a Countdown is a separate class).
   */
  datatype State = State(interval: real, func: Value, priority: int,
                         ref: Option<Value>, alive: bool, serial: nat)

  datatype Step = Step(state: State, calls: seq<Call>, error: Option<Error>)

  predicate Live(s: State) { s.ref.Some? && s.alive }

  predicate Valid(s: State)
  {
    && s.interval >= 0.0
    && T.Int32(s.priority)
    && (s.ref.Some? ==> s.ref.value.Wrapped? && s.ref.value.serial < s.serial)
  }

  /** `Timer(func, interval, priority)` and `Countdown(...)`. */
  function New(func: Value, interval: real, priority: int): (r: Result<State>)
    ensures r.Err? <==> interval < 0.0 || !T.Int32(priority)
    ensures interval < 0.0 ==> r == Err(T.IntervalError)
    ensures interval >= 0.0 && !T.Int32(priority) ==> r == Err(T.PriorityError)
    ensures r.Ok? ==> Valid(r.value) && !Live(r.value) && r.value.ref.None?
    ensures r.Ok? ==> r.value.func == func && r.value.interval == interval && r.value.priority == priority
  {
    if interval < 0.0 then Err(T.IntervalError)
    else if !T.Int32(priority) then Err(T.PriorityError)
    else Ok(State(interval, func, priority, None, false, 0))
  }

  function StopStep(s: State): Step
  {
    if Live(s) then Step(s.(alive := false), [T.Delete(s.ref.value)], None)
    else Step(s, [], None)
  }

  datatype Acquired = Acquired(state: State, wrapper: Value, made: bool)

  function Acquire(s: State): Result<Acquired>
  {
    if Live(s) then Ok(Acquired(s, s.ref.value, false))
    else if !Callable(s.func) then Err(T.NotCallableError)
    else
      var w := Wrapped(s.func, s.serial);
      Ok(Acquired(s.(ref := Some(w), alive := false, serial := s.serial + 1), w, true))
  }

  datatype Slot = Slot(state: State, value: Value)

  function IntervalSlot(s: State, interval: Option<real>, restart: bool): Result<Slot>
  {
    if interval.Some? || restart then
      var iv := T.Either(interval, s.interval);
      if iv < 0.0 then Err(T.IntervalError) else Ok(Slot(s.(interval := iv), I(Ms(iv))))
    else Ok(Slot(s, S("")))
  }

  function PrioritySlot(s: State, priority: Option<int>, restart: bool): Result<Slot>
  {
    if priority.Some? || restart then
      var p := T.Either(priority, s.priority);
      if !T.Int32(p) then Err(T.PriorityError) else Ok(Slot(s.(priority := p), I(p)))
    else Ok(Slot(s, S("")))
  }

  /** What `update` has ready before the final `_update` call. */
  datatype Prepared =
    | Early(state: State)                          // nothing to do: the early return
    | Failed(state: State, error: Error)
    | Ready(state: State, wrapper: Value, interval: Value, priority: Value)

  /** `update` without a new callback, up to the `_update` call. */
  function Prepare(s: State, interval: Option<real>, priority: Option<int>, force: bool): Prepared
  {
    match Acquire(s)
    case Err(e) => Failed(s, e)
    case Ok(a) =>
      var restart := force || a.made;
      if interval.None? && priority.None? && !restart then Early(a.state)
      else
        match IntervalSlot(a.state, interval, restart)
        case Err(e) => Failed(a.state, e)
        case Ok(i) =>
          match PrioritySlot(i.state, priority, restart)
          case Err(e) => Failed(i.state, e)
          case Ok(p) => Ready(p.state, a.wrapper, i.value, p.value)
  }

  const NegateStrError := TypeError("bad operand type for unary -: 'str'")

  /** `Countdown._update` as written: `-interval`, which fails for the empty slot. */
  function CountdownCallAsWritten(w: Value, interval: Value, priority: Value): (r: Result<Call>)
  {
    match interval
    case I(ms) => Ok(Call("SetTimer", [w, I(-ms), priority]))
    case _ => Err(NegateStrError)
  }

  /** `_update`, with Countdown negating only an interval that is there. */
  function UpdateCall(countdown: bool, w: Value, interval: Value, priority: Value): (r: Call)
    ensures r.cmd == "SetTimer" && |r.args| == 3 && r.args[0] == w && r.args[2] == priority
    ensures !countdown || !interval.I? ==> r.args[1] == interval
    ensures countdown && interval.I? ==> r.args[1] == I(-interval.i)
    ensures countdown && interval.I? ==> CountdownCallAsWritten(w, interval, priority) == Ok(r)
  {
    if countdown && interval.I? then Call("SetTimer", [w, I(-interval.i), priority])
    else Call("SetTimer", [w, interval, priority])
  }

  /** `UpdateCall`'s Countdown case, read back: the slot it sent gives the slot it was given. */
  lemma CountdownSlotRoundTrip(w: Value, interval: Value, priority: Value)
    ensures var c := UpdateCall(true, w, interval, priority);
      (if c.args[1].I? then I(-c.args[1].i) else c.args[1]) == interval
  {
  }

  function CancelError(countdown: bool): Error
  {
    AttributeError(if countdown then "'Countdown' object has no attribute 'cancel'"
                   else "'Timer' object has no attribute 'cancel'")
  }

  /** `update(func, interval, priority, force_restart)` as written (`self.cancel()`, `-""`). */
  function UpdateAsWritten(countdown: bool, s: State, func: Value, interval: Option<real>,
                           priority: Option<int>, force: bool): Step
  {
    if func != NoneV then Step(s, [], Some(CancelError(countdown)))
    else
      match Prepare(s, interval, priority, force)
      case Early(st) => Step(st, [], None)
      case Failed(st, e) => Step(st, [], Some(e))
      case Ready(st, w, i, p) =>
        if countdown then
          match CountdownCallAsWritten(w, i, p)
          case Ok(c) => Step(st.(alive := true), [c], None)
          case Err(e) => Step(st, [], Some(e))
        else Step(st.(alive := true), [UpdateCall(false, w, i, p)], None)
  }

  /** `update` with `stop()` in place of the missing `cancel()` and an empty interval passed on as it is. */
  function UpdateStep(countdown: bool, s: State, func: Value, interval: Option<real>,
                      priority: Option<int>, force: bool): Step
  {
    if func != NoneV then
      var stopped := StopStep(s);
      var r := RegisterStep(countdown, stopped.state.(func := func, ref := None), interval, priority, force);
      r.(calls := stopped.calls + r.calls)
    else RegisterStep(countdown, s, interval, priority, force)
  }

  function RegisterStep(countdown: bool, s: State, interval: Option<real>, priority: Option<int>, force: bool): Step
  {
    match Prepare(s, interval, priority, force)
    case Early(st) => Step(st, [], None)
    case Failed(st, e) => Step(st, [], Some(e))
    case Ready(st, w, i, p) => Step(st.(alive := true), [UpdateCall(countdown, w, i, p)], None)
  }

  /** `start(interval, priority)`: a restart is forced only when no interval is given. */
  function StartStep(countdown: bool, s: State, interval: Option<real>, priority: Option<int>): Step
  {
    UpdateStep(countdown, s, NoneV, interval, priority, interval.None?)
  }

  /** As written, replacing the callback raises AttributeError and leaves the old timer running. */
  lemma ReplaceFuncRaises(countdown: bool, s: State, func: Value, interval: Option<real>,
                          priority: Option<int>, force: bool)
    requires func != NoneV
    ensures UpdateAsWritten(countdown, s, func, interval, priority, force) == Step(s, [], Some(CancelError(countdown)))
  {
  }

  /** Corrected, a new callback deletes the live wrapper and registers the callback with a fresh one. */
  lemma ReplaceFunc(countdown: bool, s: State, func: Value, interval: Option<real>, priority: Option<int>, force: bool)
    requires func != NoneV && Callable(func)
    requires T.Either(interval, s.interval) >= 0.0 && T.Int32(T.Either(priority, s.priority))
    ensures var r := UpdateStep(countdown, s, func, interval, priority, force);
      var ms := Ms(T.Either(interval, s.interval));
      && r.error == None
      && r.calls == (if Live(s) then [T.Delete(s.ref.value)] else [])
                    + [Call("SetTimer", [Wrapped(func, s.serial), I(if countdown then -ms else ms),
                                         I(T.Either(priority, s.priority))])]
      && Live(r.state) && r.state.func == func
  {
  }

  /**
   * As written, a priority-only update of a live Countdown raises TypeError
   * (it negates the empty interval) after storing the priority, and sends nothing.
   */
  lemma CountdownPriorityOnlyRaises(s: State, p: int)
    requires Live(s) && T.Int32(p)
    ensures UpdateAsWritten(true, s, NoneV, None, Some(p), false) == Step(s.(priority := p), [], Some(NegateStrError))
  {
  }

  /** Corrected, it sends the empty interval and the priority, as a Timer does. */
  lemma CountdownPriorityOnly(countdown: bool, s: State, p: int)
    requires Live(s) && T.Int32(p)
    ensures UpdateStep(countdown, s, NoneV, None, Some(p), false)
         == Step(s.(priority := p), [Call("SetTimer", [s.ref.value, S(""), I(p)])], None)
  {
  }

  /** A live timer with nothing given returns before any command; the attributes stay as they were. */
  lemma EarlyReturn(countdown: bool, s: State)
    requires Live(s)
    ensures UpdateStep(countdown, s, NoneV, None, None, false) == Step(s, [], None)
    ensures UpdateAsWritten(countdown, s, NoneV, None, None, false) == Step(s, [], None)
  {
  }

  /** What the corrected update changes agrees with the code as written wherever that does not raise. */
  lemma CorrectedAgrees(countdown: bool, s: State, interval: Option<real>, priority: Option<int>, force: bool)
    ensures var w := UpdateAsWritten(countdown, s, NoneV, interval, priority, force);
      w.error != Some(NegateStrError) ==> w == UpdateStep(countdown, s, NoneV, interval, priority, force)
  {
    match Prepare(s, interval, priority, force)
    case Early(_) =>
    case Failed(_, _) =>
    case Ready(st, wr, i, p) =>
      if countdown && i.I? {
        assert CountdownCallAsWritten(wr, i, p) == Ok(UpdateCall(true, wr, i, p));
      }
  }

  /** Every update keeps the attributes valid, whether or not it raises. */
  lemma UpdateKeepsValid(countdown: bool, s: State, func: Value, interval: Option<real>,
                         priority: Option<int>, force: bool)
    requires Valid(s)
    ensures Valid(UpdateStep(countdown, s, func, interval, priority, force).state)
  {
    var s0 := if func != NoneV then StopStep(s).state.(func := func, ref := None) else s;
    assert Valid(s0);
    PrepareKeepsValid(s0, interval, priority, force);
  }

  lemma PrepareKeepsValid(s: State, interval: Option<real>, priority: Option<int>, force: bool)
    requires Valid(s)
    ensures Valid(Prepare(s, interval, priority, force).state)
  {
    match Acquire(s)
    case Err(_) =>
    case Ok(a) =>
      assert Valid(a.state);
      match IntervalSlot(a.state, interval, force || a.made)
      case Err(_) =>
      case Ok(i) =>
        assert Valid(i.state);
        match PrioritySlot(i.state, priority, force || a.made)
        case Err(_) =>
        case Ok(p) =>
          assert Valid(p.state);
  }

  /**
   * `start(interval=x)` on a live timer is not a forced restart: it sends
   * the new interval and an empty priority.
   */
  lemma StartWithInterval(countdown: bool, s: State, x: real)
    requires Live(s) && x >= 0.0
    ensures StartStep(countdown, s, Some(x), None)
         == Step(s.(interval := x), [Call("SetTimer", [s.ref.value, I(if countdown then -Ms(x) else Ms(x)), S("")])], None)
  {
  }

  /** An `ahkpy/flow.py` Timer or Countdown object. */
  class Timer {
    const countdown: bool
    var interval: real
    var func: Value
    var priority: int
    var ref: Option<Value>
    var alive: bool
    var serial: nat

    function Attributes(): State
      reads this
    {
      State(interval, func, priority, ref, alive, serial)
    }

    constructor (countdown: bool, s: State)
      ensures this.countdown == countdown && Attributes() == s
    {
      this.countdown := countdown;
      interval, func, priority := s.interval, s.func, s.priority;
      ref, alive, serial := s.ref, s.alive, s.serial;
    }

    static method Create(countdown: bool, func: Value, interval: real, priority: int) returns (r: Result<Timer>)
      ensures r.Err? ==> New(func, interval, priority) == Err(r.error)
      ensures r.Ok? ==> New(func, interval, priority) == Ok(r.value.Attributes())
                        && r.value.countdown == countdown && fresh(r.value)
    {
      if interval < 0.0 {
        return Err(T.IntervalError);
      }
      if !(T.MinPriority <= priority <= T.MaxPriority) {
        return Err(T.PriorityError);
      }
      var t := new Timer(countdown, State(interval, func, priority, None, false, 0));
      return Ok(t);
    }

    /** AutoHotkey lets go of the wrapper. */
    method Released()
      modifies this
      ensures Attributes() == old(Attributes()).(alive := false)
    {
      alive := false;
    }

    method Stop(host: Host)
      modifies this, host
      ensures Attributes() == StopStep(old(Attributes())).state
      ensures host.log == old(host.log) + StopStep(old(Attributes())).calls
    {
      if ref.None? {
        return;
      }
      if alive {
        host.Emit(T.Delete(ref.value));
        alive := false;
      }
    }

    method Update(host: Host, newFunc: Value, newInterval: Option<real>, newPriority: Option<int>, forceRestart: bool)
      returns (err: Option<Error>)
      modifies this, host
      ensures var r := UpdateStep(countdown, old(Attributes()), newFunc, newInterval, newPriority, forceRestart);
        Attributes() == r.state && host.log == old(host.log) + r.calls && err == r.error
    {
      if newFunc != NoneV {
        ghost var stopped := StopStep(Attributes());
        Stop(host);
        func := newFunc;
        ref := None;
        assert Attributes() == stopped.state.(func := newFunc, ref := None);
      }
      err := Register(host, newInterval, newPriority, forceRestart);
    }

    method Register(host: Host, newInterval: Option<real>, newPriority: Option<int>, forceRestart: bool)
      returns (err: Option<Error>)
      modifies this, host
      ensures var r := RegisterStep(countdown, old(Attributes()), newInterval, newPriority, forceRestart);
        Attributes() == r.state && host.log == old(host.log) + r.calls && err == r.error
    {
      var wrapper, made;
      err, wrapper, made := AcquireWrapper();
      if err.Some? {
        return;
      }
      var force := forceRestart || made;
      if newInterval.None? && newPriority.None? && !force {
        return;
      }
      var iSlot, pSlot;
      err, iSlot := FillInterval(newInterval, force);
      if err.Some? {
        return;
      }
      err, pSlot := FillPriority(newPriority, force);
      if err.Some? {
        return;
      }
      host.Emit(UpdateCall(countdown, wrapper, iSlot, pSlot));
      alive := true;
    }

    method AcquireWrapper() returns (err: Option<Error>, wrapper: Value, made: bool)
      modifies this
      ensures var r := Acquire(old(Attributes()));
        && (err.Some? <==> r.Err?)
        && (r.Err? ==> err == Some(r.error) && Attributes() == old(Attributes()))
        && (r.Ok? ==> Attributes() == r.value.state && wrapper == r.value.wrapper && made == r.value.made)
    {
      var current: Option<Value> := None;
      if ref.Some? && alive {
        current := ref;
      }
      if current.Some? {
        return None, current.value, false;
      }
      if !Callable(func) {
        return Some(T.NotCallableError), NoneV, false;
      }
      wrapper := Wrapped(func, serial);
      ref, alive, serial := Some(wrapper), false, serial + 1;
      return None, wrapper, true;
    }

    method FillInterval(newInterval: Option<real>, force: bool) returns (err: Option<Error>, slot: Value)
      modifies this
      ensures var r := IntervalSlot(old(Attributes()), newInterval, force);
        && (err.Some? <==> r.Err?)
        && (r.Err? ==> err == Some(r.error) && Attributes() == old(Attributes()))
        && (r.Ok? ==> Attributes() == r.value.state && slot == r.value.value)
    {
      if !(newInterval.Some? || force) {
        return None, S("");
      }
      var iv := if newInterval.Some? then newInterval.value else interval;
      if iv < 0.0 {
        return Some(T.IntervalError), NoneV;
      }
      interval := iv;
      return None, I(Ms(iv));
    }

    method FillPriority(newPriority: Option<int>, force: bool) returns (err: Option<Error>, slot: Value)
      modifies this
      ensures var r := PrioritySlot(old(Attributes()), newPriority, force);
        && (err.Some? <==> r.Err?)
        && (r.Err? ==> err == Some(r.error) && Attributes() == old(Attributes()))
        && (r.Ok? ==> Attributes() == r.value.state && slot == r.value.value)
    {
      if !(newPriority.Some? || force) {
        return None, S("");
      }
      var p := if newPriority.Some? then newPriority.value else priority;
      if !(T.MinPriority <= p <= T.MaxPriority) {
        return Some(T.PriorityError), NoneV;
      }
      priority := p;
      return None, I(p);
    }

    method Start(host: Host, newInterval: Option<real>, newPriority: Option<int>) returns (err: Option<Error>)
      modifies this, host
      ensures var r := StartStep(countdown, old(Attributes()), newInterval, newPriority);
        Attributes() == r.state && host.log == old(host.log) + r.calls && err == r.error
    {
      var force := newInterval.None?;
      err := Update(host, NoneV, newInterval, newPriority, force);
    }
  }

  // ----- sleep (ahkpy/flow.py and the ahk package's flow module) -----

  const SleepError := ValueError("sleep length must be non-negative")

  /** `sleep(secs)`: Sleep -1 for zero (yield without waiting), else whole milliseconds. */
  function Sleep(secs: real): (r: Result<Call>)
    ensures r.Err? <==> secs < 0.0
    ensures r.Err? ==> r.error == SleepError
    ensures r.Ok? ==> r.value.cmd == "Sleep" && |r.value.args| == 1 && r.value.args[0].I?
    ensures r.Ok? ==> (r.value.args[0].i == -1 <==> secs == 0.0)
    ensures r.Ok? && secs > 0.0 ==>
      0 <= r.value.args[0].i && r.value.args[0].i as real <= secs * 1000.0 < r.value.args[0].i as real + 1.0
  {
    if secs < 0.0 then Err(SleepError)
    else if secs == 0.0 then Ok(Call("Sleep", [I(-1)]))
    else Ok(Call("Sleep", [I(Ms(secs))]))
  }

  /** Longer sleeps never wait less. */
  lemma SleepMonotonic(a: real, b: real)
    requires 0.0 < a <= b
    ensures Sleep(a).value.args[0].i <= Sleep(b).value.args[0].i
  {
    assert a * 1000.0 <= b * 1000.0;
  }

  // ----- the ahk package -----

  const BatchLinesError := ValueError("either 'interval' or 'lines' are required")

  /** `set_batch_lines(interval, lines)`: "<interval>ms" takes precedence over the line count. */
  function LegacySetBatchLines(interval: Option<Num>, lines: Option<Num>): (r: Result<Call>)
    ensures r.Err? <==> interval.None? && lines.None?
    ensures r.Err? ==> r.error == BatchLinesError
    ensures r.Ok? ==> r.value.cmd == "SetBatchLines" && |r.value.args| == 1 && r.value.args[0].S?
    ensures interval.Some? ==> r.Ok? && r.value.args[0].s == NumStr(interval.value) + "ms"
    ensures interval.None? && lines.Some? ==> r.Ok? && r.value.args[0].s == NumStr(lines.value)
  {
    if interval.Some? then Ok(Call("SetBatchLines", [S(NumStr(interval.value) + "ms")]))
    else if lines.Some? then Ok(Call("SetBatchLines", [S(NumStr(lines.value))]))
    else Err(BatchLinesError)
  }

  /** With an integer count, interval and line-count forms are told apart by the "ms" suffix. */
  lemma BatchLinesDistinct(ms: Num, lines: int)
    ensures LegacySetBatchLines(Some(ms), None) != LegacySetBatchLines(None, Some(PyInt(lines)))
  {
    var s := NumStr(ms) + "ms";
    var t := IntStr(lines);
    IntStrChars(lines);
    assert s[|s| - 1] == 's';
    assert |t| > 0 && t[|t| - 1] != 's';
  }

  const CountdownError := ValueError("countdown must be positive")

  /** `int()` of a negated float is the negated `int()`. */
  lemma TruncNeg(x: real)
    ensures Trunc(-x) == -Trunc(x)
  {
  }

  /**
   * What the older `set_timer` gives back: the handle, after the SetTimer
   * command is sent, or (without a callback) the decorator
   * `partial(set_timer, period=..., countdown=..., priority=...)`.
   */
  datatype LegacyScheduled = Sent(call: Call, timer: LegacyTimer) | Deferred(period: real, countdown: Option<real>, priority: int)

  /**
   * `set_timer(func, period, countdown, priority)`: the SetTimer command
   * and the `Timer` handle it returns. A countdown replaces the period and
   * makes the timer one-shot. Without a callback nothing is checked or sent.
   */
  function LegacySetTimer(func: Value, period: real, countdown: Option<real>, priority: int): (r: Result<LegacyScheduled>)
    ensures func == NoneV ==> r == Ok(Deferred(period, countdown, priority))
    ensures func != NoneV ==> (r.Err? <==> countdown.Some? && countdown.value < 0.0)
    ensures r.Err? ==> r.error == CountdownError
    ensures func != NoneV && r.Ok? ==>
              r.value.Sent? && r.value.timer == LegacyTimer(func)
              && r.value.call.cmd == "SetTimer" && |r.value.call.args| == 3
              && r.value.call.args[0] == func && r.value.call.args[2] == I(priority)
    ensures func != NoneV && r.Ok? && countdown.Some? ==> r.value.call.args[1] == I(-Ms(countdown.value))
    ensures func != NoneV && countdown.None? ==> r.Ok? && r.value.call.args[1] == I(Ms(period))
  {
    if func == NoneV then Ok(Deferred(period, countdown, priority))
    else if countdown.Some? && countdown.value < 0.0 then Err(CountdownError)
    else
      var p := if countdown.Some? then -countdown.value else period;
      TruncNeg(if countdown.Some? then countdown.value * 1000.0 else 0.0);
      Ok(Sent(Call("SetTimer", [func, I(Trunc(p * 1000.0)), I(priority)]), LegacyTimer(func)))
  }

  /**
   * The `Timer` handle of the `ahk` package (frozen: its callback cannot be
   * reassigned). The `api` module's copy names the first three methods
   * enable, disable and delete.
   */
  datatype LegacyTimer = LegacyTimer(func: Value)
  {
    function Start(): Call { Call("SetTimer", [func, S("On")]) }
    function Stop(): Call { Call("SetTimer", [func, S("Off")]) }
    function Cancel(): Call { Call("SetTimer", [func, S("Delete")]) }
    /** Changes the priority without touching the period (an empty period slot). */
    function SetPriority(priority: int): Call { Call("SetTimer", [func, S(""), I(priority)]) }
  }

  /** The handle's commands all address its callback, and each is told apart by its second argument. */
  lemma LegacyTimerCommands(t: LegacyTimer, p: int)
    ensures forall c :: c in [t.Start(), t.Stop(), t.Cancel(), t.SetPriority(p)] ==>
              c.cmd == "SetTimer" && |c.args| >= 2 && c.args[0] == t.func
    ensures t.Start().args[1] != t.Stop().args[1] && t.Stop().args[1] != t.Cancel().args[1]
            && t.Start().args[1] != t.Cancel().args[1] && t.SetPriority(p).args[1] == S("")
    ensures t.Cancel() == T.Delete(t.func)
  {
  }
}
