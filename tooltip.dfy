/**
 * Tooltips (`tooltip` module; `ahkpy/tooltip.py` is the same code).
 * AutoHotkey shows at most 20 tooltips, numbered 1 to 20. The `ToolTip`
 * class shares one LIFO pool of free numbers: a tooltip takes a number when
 * it is first shown and gives it back when it is hidden. A timeout hides
 * the tooltip through a one-shot timer.
 */
module ToolTips {

  import opened Base
  import opened Text
  import St = Settings
  import Timers

  const MaxToolTips := 20

  const TooManyError := RuntimeError("cannot show more than 20 tooltips simultaneously")
  const CorruptedError := RuntimeError("tooltip pool is corrupted")
  const EmptyTextError := ValueError("text must not be empty")

  /** [n, n - 1, ..., 1]: the order the numbers are put into the pool. */
  function Descending(n: nat): (r: seq<int>)
    ensures |r| == n
    ensures forall k :: 0 <= k < n ==> r[k] == n - k
  {
    if n == 0 then [] else [n] + Descending(n - 1)
  }

  function Elems(ids: seq<int>): set<int> { set k | 0 <= k < |ids| :: ids[k] }

  lemma ElemsAppend(ids: seq<int>, n: int)
    ensures Elems(ids + [n]) == Elems(ids) + {n}
  {
    var s := ids + [n];
    forall m | m in Elems(s)
      ensures m in Elems(ids) + {n}
    {
      var k :| 0 <= k < |s| && s[k] == m;
      if k < |ids| {
        assert ids[k] == m;
      }
    }
    forall m | m in Elems(ids)
      ensures m in Elems(s)
    {
      var k :| 0 <= k < |ids| && ids[k] == m;
      assert s[k] == m;
    }
    assert s[|ids|] == n;
  }

  predicate Distinct(ids: seq<int>)
  {
    forall i, j :: 0 <= i < j < |ids| ==> ids[i] != ids[j]
  }

  /** The shared pool: `ids` is the LIFO queue (the last element comes out first). */
  class Pool {
    var ids: seq<int>
    /** The numbers taken out and not yet put back. */
    ghost var lent: set<int>

    /** The free and the taken numbers are 1..20, each exactly once. */
    ghost predicate Valid()
      reads this
    {
      && Distinct(ids)
      && Elems(ids) !! lent
      && (forall n :: n in Elems(ids) || n in lent <==> 1 <= n <= MaxToolTips)
      && |ids| + |lent| == MaxToolTips
    }

    /** The class body: put 20, 19, ..., 1. */
    constructor ()
      ensures ids == Descending(MaxToolTips) && lent == {} && Valid()
    {
      ids := [];
      lent := {};
      new;
      var id := MaxToolTips;
      while id > 0
        invariant 0 <= id <= MaxToolTips && lent == {}
        invariant ids == Descending(MaxToolTips)[..MaxToolTips - id]
        invariant forall k :: 0 <= k < |ids| ==> ids[k] > id
      {
        ids := ids + [id];
        id := id - 1;
      }
      assert Distinct(ids);
      forall n | 1 <= n <= MaxToolTips
        ensures n in Elems(ids)
      {
        assert ids[MaxToolTips - n] == n;
      }
    }

    /** `get_nowait()`: None when the pool is empty. */
    method Get() returns (r: Option<int>)
      modifies this
      ensures old(ids) == [] ==> r.None? && ids == old(ids) && lent == old(lent)
      ensures old(ids) != [] ==>
        r == Some(old(ids)[|old(ids)| - 1]) && ids == old(ids)[..|old(ids)| - 1] && lent == old(lent) + {r.value}
      ensures old(Valid()) ==> Valid() && (r.Some? ==> r.value !in old(lent))
    {
      if ids == [] {
        return None;
      }
      r := Some(ids[|ids| - 1]);
      ghost var was := ids;
      ids := ids[..|ids| - 1];
      lent := lent + {r.value};
      assert was == ids + [r.value];
      ElemsAppend(ids, r.value);
      if old(Valid()) {
        assert r.value !in Elems(ids);
      }
    }

    /** `put_nowait(n)`: false (queue.Full) when the pool already holds 20 numbers. */
    method Put(n: int) returns (ok: bool)
      modifies this
      ensures ok <==> |old(ids)| < MaxToolTips
      ensures ok ==> ids == old(ids) + [n] && lent == old(lent) - {n}
      ensures !ok ==> ids == old(ids) && lent == old(lent)
      ensures old(Valid()) && n in old(lent) ==> ok && Valid()
    {
      if |ids| >= MaxToolTips {
        return false;
      }
      ghost var was := ids;
      ids := ids + [n];
      lent := lent - {n};
      ElemsAppend(was, n);
      if old(Valid()) && n in old(lent) {
        assert |lent| == |old(lent)| - 1;
      }
      return true;
    }
  }

  /** While the numbers are accounted for, the pool runs dry exactly when all 20 are taken. */
  lemma PoolEmptyIffAllTaken(p: Pool)
    requires p.Valid()
    ensures p.ids == [] <==> |p.lent| == MaxToolTips
    ensures forall n :: n in p.lent ==> 1 <= n <= MaxToolTips
  {
  }

  /** Successive gets from a fresh pool hand out 1, 2, 3, ...: the number k + 1 comes out k-th. */
  lemma LowestFirst(k: nat)
    requires k < MaxToolTips
    ensures var ids := Descending(MaxToolTips)[..MaxToolTips - k];
      ids[|ids| - 1] == k + 1
  {
  }

  /** `text if text else self.text`, when either is non-empty. */
  function ShowText(text: Option<string>, attr: Option<string>): (r: Result<string>)
    ensures r.Err? <==> (text.None? || text.value == "") && (attr.None? || attr.value == "")
    ensures r.Err? ==> r.error == EmptyTextError
    ensures r.Ok? ==> r.value != "" && (Some(r.value) == text || (Some(r.value) == attr && text != Some(r.value)))
    ensures r.Ok? && text.Some? && text.value != "" ==> r.value == text.value
  {
    if text.Some? && text.value != "" then Ok(text.value)
    else if attr.Some? && attr.value != "" then Ok(attr.value)
    else Err(EmptyTextError)
  }

  /** A coordinate: UNSET falls back to the attribute, and None is sent as "". */
  function Coord(arg: Arg<int>, attr: Option<int>): (r: Value)
    ensures arg.Given? ==> r == I(arg.value)
    ensures arg.Null? || (arg.Unset? && attr.None?) ==> r == S("")
    ensures arg.Unset? && attr.Some? ==> r == I(attr.value)
  {
    match arg
    case Given(v) => I(v)
    case Null => S("")
    case Unset => if attr.Some? then I(attr.value) else S("")
  }

  function Resolve<T>(arg: Arg<T>, attr: Option<T>): Option<T>
  {
    match arg
    case Given(v) => Some(v)
    case Null => None
    case Unset => attr
  }

  /** The command that shows tooltip number `id`, and the one that hides it. */
  function ShowCall(text: string, x: Value, y: Value, id: int): Call { Call("ToolTip", [S(text), x, y, I(id)]) }
  function HideCall(id: int): Call { Call("ToolTip", [S(""), S(""), S(""), I(id)]) }

  /** Hiding sends the show command's shape with every slot but the number emptied. */
  lemma HideCallIsShowCall(id: int)
    ensures HideCall(id) == ShowCall("", S(""), S(""), id)
    ensures forall t, x, y :: ShowCall(t, x, y, id).args[3] == HideCall(id).args[3]
  {
  }

  /** The commands `_timer.stop()` sends for a timer with these attributes, if there is a timer. */
  function DropCalls(held: Option<Timers.State>): seq<Call>
  {
    if held.Some? then Timers.StopStep(held.value).calls else []
  }

  /** What the timeout handling of `show` leaves: the kept timer's attributes (None: no timer), the commands, the error. */
  datatype Armed = Armed(state: Option<Timers.State>, calls: seq<Call>, error: Option<Error>)

  /**
   * The timeout handling of `show`, given the attributes of the tooltip's
   * timer if it has one: a timeout restarts that timer with the timeout as
   * its interval, or makes `set_countdown(timeout, self.hide)` the timer
   * (kept only when that call returns); no timeout stops and drops it.
   */
  function ArmStep(held: Option<Timers.State>, legacy: bool, t: Option<real>, onTimeout: Value): Armed
  {
    if t.None? then Armed(None, DropCalls(held), None)
    else if held.Some? then
      var r := Timers.StartOf(legacy, held.value, t, None, None);
      Armed(Some(r.state), r.calls, r.error)
    else match Timers.New(t.value, onTimeout, 0, false)
      case Err(e) => Armed(None, [], Some(e))
      case Ok(s) =>
        var r := Timers.StartStep(s, None, None, None);
        Armed(if r.error.None? then Some(r.state) else None, r.calls, r.error)
  }

  /** Without a timer, arming is `set_countdown(timeout, self.hide)` with no extra arguments. */
  lemma ArmIsCountdown(t: real, onTimeout: Value, legacy: bool)
    requires onTimeout != NoneV
    ensures var a := ArmStep(None, legacy, Some(t), onTimeout);
      match Timers.Schedule(t, onTimeout, [], 0, false)
      case Err(e) => a == Armed(None, [], Some(e))
      case Ok(d) => d.Started? && a.calls == d.step.calls && a.error == d.step.error
                    && (a.error.None? ==> a.state == Some(d.step.state))
  {
  }

  /**
   * The tooltip is hidden after the timeout: a new countdown is one-shot,
   * runs `hide` and is registered with minus the timeout in milliseconds;
   * a kept timer is restarted with the timeout in milliseconds, signed by
   * its periodicity; no timeout deletes a live timer's wrapper and nothing else.
   */
  lemma ArmHidesAfterTimeout(held: Option<Timers.State>, legacy: bool, t: Option<real>, onTimeout: Value)
    requires Callable(onTimeout)
    requires t.Some? ==> t.value >= 0.0
    requires held.Some? ==> Timers.Valid(held.value) && held.value.func != NoneV
                            && (Callable(held.value.func) || Timers.Live(held.value))
    ensures var a := ArmStep(held, legacy, t, onTimeout);
      && (t.None? ==> a.state.None? && a.error.None?
                      && a.calls == (if held.Some? && Timers.Live(held.value) then [Timers.Delete(held.value.ref.value)] else []))
      && (t.Some? && held.None? ==>
            && a.error.None? && a.state.Some? && !a.state.value.periodic && a.state.value.interval == t.value
            && a.state.value.func == onTimeout && Timers.Live(a.state.value)
            && a.calls == [Call("SetTimer", [Wrapped(onTimeout, 0), I(-Ms(t.value)), I(0)])])
      && (t.Some? && held.Some? ==>
            && a.error.None? && a.state.Some? && a.state.value.interval == t.value && |a.calls| >= 1
            && a.calls[|a.calls| - 1] == Call("SetTimer", [a.state.value.ref.value,
                                                            I(Timers.IntervalMs(t.value, held.value.periodic)),
                                                            I(held.value.priority)]))
  {
    if t.Some? && held.None? {
      Timers.ScheduleCalls(t.value, onTimeout, [], 0, false);
    }
    if t.Some? && held.Some? {
      Timers.StartHonoursPeriodic(legacy, held.value, t, None, None);
    }
  }

  class ToolTip {
    var text: Option<string>
    var x: Option<int>
    var y: Option<int>
    var relativeTo: string
    var timeout: Option<real>
    /** `_id`: the number held while shown. */
    var id: Option<int>
    /** `_timer`: the countdown that hides the tooltip. */
    var timer: Option<Timers.Timer>
    const pool: Pool
    /** The bound method `self.hide`, as the callable the countdown runs. */
    const onTimeout: Value

    ghost predicate Valid()
      reads this, pool
    {
      pool.Valid() && (id.Some? ==> id.value in pool.lent)
    }

    function Timer(): set<object>
      reads this
    {
      if timer.Some? then {timer.value} else {}
    }

    /** The attributes of the timer, if there is one. */
    function Held(): Option<Timers.State>
      reads this, Timer()
    {
      if timer.Some? then Some(timer.value.Attributes()) else None
    }

    function HeldLegacy(): bool
      reads this
    {
      timer.Some? && timer.value.legacy
    }

    /** The instance's `timeout` is never assigned, so it is the class attribute's None. */
    constructor (pool: Pool, onTimeout: Value, text: Option<string>, x: Option<int>, y: Option<int>, relativeTo: string)
      ensures this.pool == pool && this.onTimeout == onTimeout && this.text == text && this.x == x && this.y == y
      ensures this.relativeTo == relativeTo && timeout.None? && id.None? && timer.None?
    {
      this.pool, this.onTimeout := pool, onTimeout;
      this.text, this.x, this.y, this.relativeTo := text, x, y, relativeTo;
      timeout, id, timer := None, None, None;
    }

    /** `ToolTip(text, x=..., y=..., relative_to=..., timeout=...)`: `__init__` takes `timeout` and drops it. */
    static method Create(pool: Pool, onTimeout: Value, text: Option<string>, x: Option<int>, y: Option<int>,
                         relativeTo: string, timeout: Option<real>) returns (r: Result<ToolTip>)
      ensures r.Err? <==> relativeTo !in St.CoordModes
      ensures r.Err? ==> r.error == ValueError(Repr(relativeTo) + " is not a valid coord mode")
      ensures r.Ok? ==> fresh(r.value) && r.value.pool == pool && r.value.id.None? && r.value.timer.None?
                        && r.value.text == text && r.value.relativeTo == relativeTo && r.value.timeout.None?
                        && r.value.x == x && r.value.y == y && r.value.onTimeout == onTimeout
      ensures r.Ok? && pool.Valid() ==> r.value.Valid()
    {
      if relativeTo !in St.CoordModes {
        return Err(ValueError(Repr(relativeTo) + " is not a valid coord mode"));
      }
      var t := new ToolTip(pool, onTimeout, text, x, y, relativeTo);
      return Ok(t);
    }

    /** `_acquire()`: keep the held number, or take the next free one. */
    method Acquire() returns (r: Result<int>)
      modifies this, pool
      ensures old(id).Some? ==> r == Ok(old(id).value) && id == old(id) && pool.ids == old(pool.ids)
                                && pool.lent == old(pool.lent)
      ensures old(id).None? && old(pool.ids) == [] ==>
        r == Err(TooManyError) && id.None? && pool.ids == old(pool.ids) && pool.lent == old(pool.lent)
      ensures old(id).None? && old(pool.ids) != [] ==>
        && r == Ok(old(pool.ids)[|old(pool.ids)| - 1]) && id == Some(r.value)
        && pool.ids == old(pool.ids)[..|old(pool.ids)| - 1]
        && pool.lent == old(pool.lent) + {r.value}
      ensures old(Valid()) ==> Valid() && (old(id).None? && r.Ok? ==> r.value !in old(pool.lent))
      ensures text == old(text) && x == old(x) && y == old(y) && relativeTo == old(relativeTo)
              && timeout == old(timeout) && timer == old(timer)
    {
      if id.None? {
        var n := pool.Get();
        if n.None? {
          return Err(TooManyError);
        }
        id := n;
      }
      return Ok(id.value);
    }

    /** `_release()`: give the number back. */
    method Release() returns (err: Option<Error>)
      modifies this, pool
      ensures old(id).None? ==> err.None? && id.None? && pool.ids == old(pool.ids) && pool.lent == old(pool.lent)
      ensures old(id).Some? && |old(pool.ids)| >= MaxToolTips ==>
        err == Some(CorruptedError) && id == old(id) && pool.ids == old(pool.ids) && pool.lent == old(pool.lent)
      ensures old(id).Some? && |old(pool.ids)| < MaxToolTips ==>
        err.None? && id.None? && pool.ids == old(pool.ids) + [old(id).value]
        && pool.lent == old(pool.lent) - {old(id).value}
      ensures old(Valid()) ==> err.None? && Valid()
      ensures text == old(text) && x == old(x) && y == old(y) && relativeTo == old(relativeTo)
              && timeout == old(timeout) && timer == old(timer)
    {
      if id.None? {
        return None;
      }
      var ok := pool.Put(id.value);
      if !ok {
        return Some(CorruptedError);
      }
      id := None;
      return None;
    }

    /** `_timer.stop()` and forget the timer, when there is one. */
    method DropTimer(host: Host)
      modifies this, host, Timer()
      ensures timer.None? && host.log == old(host.log) + DropCalls(old(Held()))
      ensures old(timer).Some? ==> old(timer).value.Attributes() == Timers.StopStep(old(timer.value.Attributes())).state
      ensures text == old(text) && x == old(x) && y == old(y) && relativeTo == old(relativeTo)
              && timeout == old(timeout) && id == old(id)
    {
      if timer.Some? {
        timer.value.Stop(host);
        timer := None;
      }
    }

    /** `hide()`: nothing without a number; otherwise hide it, stop the timer, give the number back. */
    method Hide(host: Host) returns (err: Option<Error>)
      modifies this, pool, host, Timer()
      ensures old(id).None? ==> err.None? && host.log == old(host.log) && id.None? && timer == old(timer)
                                && pool.ids == old(pool.ids) && pool.lent == old(pool.lent)
      ensures old(id).Some? ==>
        && timer.None?
        && host.log == old(host.log) + [HideCall(old(id).value)] + DropCalls(old(Held()))
        && (old(timer).Some? ==> old(timer).value.Attributes() == Timers.StopStep(old(timer.value.Attributes())).state)
        && (old(Valid()) ==> err.None? && id.None? && pool.ids == old(pool.ids) + [old(id).value]
                             && pool.lent == old(pool.lent) - {old(id).value} && Valid())
      ensures text == old(text) && x == old(x) && y == old(y) && relativeTo == old(relativeTo)
              && timeout == old(timeout)
    {
      if id.None? {
        return None;
      }
      host.Emit(HideCall(id.value));
      DropTimer(host);
      err := Release();
    }

    /** Start or make the countdown that hides the tooltip, or stop it when there is no timeout. */
    method ArmTimer(host: Host, t: Option<real>) returns (err: Option<Error>)
      modifies this, host, Timer()
      ensures var a := ArmStep(old(Held()), old(HeldLegacy()), t, onTimeout);
        && host.log == old(host.log) + a.calls && err == a.error
        && (timer.Some? <==> a.state.Some?) && (timer.Some? ==> timer.value.Attributes() == a.state.value)
      ensures t.Some? && old(timer).Some? ==> timer == old(timer)
      ensures old(timer).None? && timer.Some? ==> fresh(timer.value) && !timer.value.legacy
      ensures t.None? && old(timer).Some? ==>
        old(timer).value.Attributes() == Timers.StopStep(old(timer.value.Attributes())).state
      ensures text == old(text) && x == old(x) && y == old(y) && relativeTo == old(relativeTo)
              && timeout == old(timeout) && id == old(id)
    {
      if t.None? {
        DropTimer(host);
        return None;
      }
      if timer.Some? {
        err := timer.value.Start(host, t, None, None);
        return;
      }
      var created := Timers.Timer.Create(false, t.value, onTimeout, 0, false);
      if created.Err? {
        return Some(created.error);
      }
      var countdown := created.value;
      err := countdown.Start(host, None, None, None);
      if err.None? {
        timer := Some(countdown);
      }
    }

    /**
     * `show(text, x=..., y=..., relative_to=..., timeout=...)`. The number is
     * taken before the coordinate mode is checked, so a bad mode leaves it held.
     */
    method Show(host: Host, newText: Option<string>, newX: Arg<int>, newY: Arg<int>,
                newRelativeTo: Option<string>, newTimeout: Arg<real>) returns (err: Option<Error>)
      modifies this, pool, host, Timer()
      ensures ShowText(newText, old(text)).Err? ==>
        err == Some(EmptyTextError) && host.log == old(host.log) && id == old(id) && pool.ids == old(pool.ids)
        && pool.lent == old(pool.lent) && timer == old(timer) && Held() == old(Held())
      ensures ShowText(newText, old(text)).Ok? && old(id).None? && old(pool.ids) == [] ==>
        err == Some(TooManyError) && host.log == old(host.log) && id.None? && pool.ids == old(pool.ids)
        && pool.lent == old(pool.lent) && timer == old(timer) && Held() == old(Held())
      ensures var rel := if newRelativeTo.Some? then newRelativeTo.value else old(relativeTo);
        ShowText(newText, old(text)).Ok? && (old(id).Some? || old(pool.ids) != []) ==>
          && id.Some? && (old(id).Some? ==> id == old(id))
          && (old(id).None? ==> id == Some(old(pool.ids)[|old(pool.ids)| - 1]))
          && (old(id).Some? ==> pool.ids == old(pool.ids) && pool.lent == old(pool.lent))
          && (old(id).None? ==> pool.ids == old(pool.ids)[..|old(pool.ids)| - 1]
                                && pool.lent == old(pool.lent) + {id.value})
          && (rel !in St.CoordModes ==>
                err == Some(St.SetCoordMode("tooltip", rel).error) && host.log == old(host.log)
                && timer == old(timer) && Held() == old(Held()))
          && (rel in St.CoordModes ==>
                var a := ArmStep(old(Held()), old(HeldLegacy()), Resolve(newTimeout, old(timeout)), onTimeout);
                && host.log == old(host.log)
                     + [Call("CoordMode", [S("tooltip"), S(rel)]),
                        ShowCall(ShowText(newText, old(text)).value, Coord(newX, old(x)), Coord(newY, old(y)), id.value)]
                     + a.calls
                && err == a.error
                && (timer.Some? <==> a.state.Some?) && (timer.Some? ==> timer.value.Attributes() == a.state.value))
      ensures old(Valid()) ==> Valid()
      ensures text == old(text) && x == old(x) && y == old(y) && relativeTo == old(relativeTo) && timeout == old(timeout)
    {
      var shown := ShowText(newText, text);
      if shown.Err? {
        return Some(shown.error);
      }
      var cx := Coord(newX, x);
      var cy := Coord(newY, y);
      var rel := if newRelativeTo.Some? then newRelativeTo.value else relativeTo;
      var n := Acquire();
      if n.Err? {
        return Some(n.error);
      }
      err := Present(host, rel, ShowCall(shown.value, cx, cy, n.value), Resolve(newTimeout, timeout));
    }

    /** Checks the coordinate mode, sends the CoordMode and ToolTip commands, then arms the timer for the timeout. */
    method Present(host: Host, rel: string, show: Call, t: Option<real>) returns (err: Option<Error>)
      modifies this, host, Timer()
      ensures rel !in St.CoordModes ==>
        err == Some(St.SetCoordMode("tooltip", rel).error) && host.log == old(host.log) && timer == old(timer)
        && Held() == old(Held())
      ensures rel in St.CoordModes ==>
        var a := ArmStep(old(Held()), old(HeldLegacy()), t, onTimeout);
        && host.log == old(host.log) + [Call("CoordMode", [S("tooltip"), S(rel)]), show] + a.calls && err == a.error
        && (timer.Some? <==> a.state.Some?) && (timer.Some? ==> timer.value.Attributes() == a.state.value)
      ensures text == old(text) && x == old(x) && y == old(y) && relativeTo == old(relativeTo)
              && timeout == old(timeout) && id == old(id)
    {
      var mode := St.SetCoordMode("tooltip", rel);
      if mode.Err? {
        return Some(mode.error);
      }
      host.Emit(mode.value);
      host.Emit(show);
      err := ArmTimer(host, t);
    }
  }
}
