/**
 * Thread settings (`settings` module): the `Settings` record of delays and
 * modes, the per-thread current-settings cell, the `local_settings`
 * context manager, the seconds-to-milliseconds rule and CoordMode
 * validation. The older `ahkpy/settings.py` and `ahkpy/converters.py`
 * follow the same rules.
 */
module Settings {

  import opened Base
  import opened Text

  /** The field values of a `Settings` object at one moment. Delays are in seconds. */
  datatype Values = Values(
    controlDelay: real,
    keyDelay: real,
    keyDuration: real,
    keyDelayPlay: real,
    keyDurationPlay: real,
    mouseDelay: real,
    mouseDelayPlay: real,
    mouseSpeed: int,
    sendLevel: int,
    sendMode: string,
    winDelay: real)

  /** The dataclass defaults of `Settings()`. */
  const Defaults := Values(0.02, 0.01, -1.0, -1.0, -1.0, 0.01, -1.0, 2, 0, "input", 0.1)

  /** A mutable `Settings` dataclass instance. */
  class Settings {
    var controlDelay: real
    var keyDelay: real
    var keyDuration: real
    var keyDelayPlay: real
    var keyDurationPlay: real
    var mouseDelay: real
    var mouseDelayPlay: real
    var mouseSpeed: int
    var sendLevel: int
    var sendMode: string
    var winDelay: real

    function Value(): Values
      reads this
    {
      Values(controlDelay, keyDelay, keyDuration, keyDelayPlay, keyDurationPlay,
             mouseDelay, mouseDelayPlay, mouseSpeed, sendLevel, sendMode, winDelay)
    }

    /** `Settings(**fields)`. */
    constructor (v: Values)
      ensures Value() == v
    {
      controlDelay, keyDelay, keyDuration := v.controlDelay, v.keyDelay, v.keyDuration;
      keyDelayPlay, keyDurationPlay := v.keyDelayPlay, v.keyDurationPlay;
      mouseDelay, mouseDelayPlay, mouseSpeed := v.mouseDelay, v.mouseDelayPlay, v.mouseSpeed;
      sendLevel, sendMode, winDelay := v.sendLevel, v.sendMode, v.winDelay;
    }

    /** `copy()`: a new object, field-wise equal to this one. */
    method Copy() returns (c: Settings)
      ensures fresh(c) && c.Value() == Value()
    {
      c := new Settings(Value());
    }

    /** `__delattr__`: no attribute of a Settings object can be deleted. */
    function DelAttr(name: string): (r: Result<()>)
      ensures r.Err? && r.error.AttributeError?
      ensures r.error.msg == name + " cannot be deleted"
    {
      Err(AttributeError(name + " cannot be deleted"))
    }
  }

  /** The `_current_settings` context variable as one thread sees it. */
  class Context {
    /** null while the thread has no settings of its own yet. */
    var current: Settings?
    /** The module's `default_settings` object. */
    const defaults: Settings

    /** The importing thread: `set_settings(default_settings)` at import time. */
    constructor (defaults: Settings)
      ensures this.defaults == defaults && current == defaults
    {
      this.defaults := defaults;
      current := defaults;
    }

    /** Any other thread, whose context variable starts empty. */
    constructor Thread(defaults: Settings)
      ensures this.defaults == defaults && current == null
    {
      this.defaults := defaults;
      current := null;
    }

    /**
     * `get_settings()`: the current object, or a copy of the defaults that
     * is installed on first use.
     */
    method GetSettings() returns (s: Settings)
      modifies this
      ensures current == s
      ensures old(current) != null ==> s == old(current)
      ensures old(current) == null ==> fresh(s) && s.Value() == defaults.Value()
    {
      if current != null {
        s := current;
      } else {
        s := defaults.Copy();
        current := s;
      }
    }

    /** `set_settings(settings)`. */
    method SetSettings(s: Settings)
      modifies this
      ensures current == s
    {
      current := s;
    }
  }

  /** `_SettingsManager`, the object `local_settings()` returns. */
  class Manager {
    var newSettings: Settings
    /** null until `activate` has run (the attribute does not exist yet). */
    var priorSettings: Settings?

    /** Snapshots a copy of the given settings. */
    constructor (s: Settings)
      ensures fresh(newSettings) && newSettings.Value() == s.Value()
      ensures priorSettings == null
    {
      var c := s.Copy();
      newSettings := c;
      priorSettings := null;
    }

    /** `activate()` / `__enter__`: remember the prior settings, install the copy. */
    method Activate(ctx: Context) returns (s: Settings)
      modifies ctx, this`priorSettings
      ensures s == newSettings && ctx.current == newSettings
      ensures old(ctx.current) != null ==> priorSettings == old(ctx.current)
      ensures old(ctx.current) == null ==>
                priorSettings != null && fresh(priorSettings) && priorSettings.Value() == ctx.defaults.Value()
    {
      priorSettings := ctx.GetSettings();
      ctx.SetSettings(newSettings);
      s := newSettings;
    }

    /** `__exit__`: reinstate the prior settings; fails if `activate` never ran. */
    method Exit(ctx: Context) returns (r: Result<()>)
      modifies ctx
      ensures priorSettings == null ==> r.Err? && r.error.AttributeError? && ctx.current == old(ctx.current)
      ensures priorSettings != null ==> r == Ok(()) && ctx.current == priorSettings
    {
      if priorSettings == null {
        r := Err(AttributeError("'_SettingsManager' object has no attribute 'prior_settings'"));
      } else {
        ctx.SetSettings(priorSettings);
        r := Ok(());
      }
    }
  }

  /** `local_settings(settings=None)`: a manager over a copy of the given or current settings. */
  method LocalSettings(ctx: Context, settings: Settings?) returns (m: Manager)
    modifies ctx
    ensures fresh(m) && fresh(m.newSettings) && m.priorSettings == null
    ensures settings != null ==> m.newSettings.Value() == settings.Value() && ctx.current == old(ctx.current)
    ensures settings == null ==> ctx.current != null && m.newSettings.Value() == ctx.current.Value()
    ensures old(ctx.current) != null ==> ctx.current == old(ctx.current)
  {
    var s := settings;
    if s == null {
      s := ctx.GetSettings();
    }
    m := new Manager(s);
  }

  /**
   * The `with local_settings() as settings:` block: edits made to the
   * settings inside the block do not leak, and on exit the thread is back
   * on the very object it had before.
   */
  method WithLocalSettings(ctx: Context, winDelay: real) returns (inside: real)
    requires ctx.current != null
    modifies ctx
    ensures inside == winDelay
    ensures ctx.current == old(ctx.current) && ctx.current.Value() == old(ctx.current.Value())
  {
    var m := LocalSettings(ctx, null);
    var s := m.Activate(ctx);
    s.winDelay := winDelay;
    var cur := ctx.GetSettings();
    inside := cur.winDelay;
    var _ := m.Exit(ctx);
  }

  /**
   * `optional_ms(value)`: None or a negative number of seconds means -1
   * ("no delay" to AutoHotkey); otherwise whole milliseconds.
   */
  function OptionalMs(value: Option<real>): (r: int)
    ensures r >= -1
    ensures r == -1 <==> value.None? || value.value < 0.0
    ensures value.Some? && value.value >= 0.0 ==> r as real <= value.value * 1000.0 < r as real + 1.0
  {
    if value.None? || value.value < 0.0 then -1 else Ms(value.value)
  }

  /** `converters.default(a, b)`: a unless it is None, whatever its truthiness. */
  function Default<T>(a: Option<T>, b: T): (r: T)
    ensures a.Some? ==> r == a.value
    ensures a.None? ==> r == b
  {
    if a.Some? then a.value else b
  }

  const CoordTargets: set<string> := {"tooltip", "pixel", "mouse", "caret", "menu"}
  const CoordModes: set<string> := {"screen", "window", "client"}

  /** `_set_coord_mode(target, relative_to)`: validate both, then send CoordMode. */
  function SetCoordMode(target: string, relativeTo: string): (r: Result<Call>)
    ensures r.Ok? <==> target in CoordTargets && relativeTo in CoordModes
    ensures target !in CoordTargets ==> r == Err(ValueError(Repr(target) + " is not a valid coord target"))
    ensures target in CoordTargets && relativeTo !in CoordModes ==>
              r == Err(ValueError(Repr(relativeTo) + " is not a valid coord mode"))
    ensures r.Ok? ==> r.value == Call("CoordMode", [S(target), S(relativeTo)])
  {
    if target !in CoordTargets then Err(ValueError(Repr(target) + " is not a valid coord target"))
    else if relativeTo !in CoordModes then Err(ValueError(Repr(relativeTo) + " is not a valid coord mode"))
    else Ok(Call("CoordMode", [S(target), S(relativeTo)]))
  }
}
