# AutoHotkey.py — a Dafny model of the Python side

AutoHotkey.py embeds Python in AutoHotkey. The Python package
(`src/ahkpy`, with `ahkpy` and `ahk` as older trees) turns Python arguments
into AutoHotkey commands and option strings and hands each command to the
host through one foreign call. This project models that Python side: the
option encoders, the validators, the small state machines (timers, the
tooltip number pool, the thread settings), and the codecs and command-line
rules of the runner and the launcher. It proves what each of them promises.

The host is an append-only log of commands. `Base.Call(cmd, args)` is one
command. `Base.Host` is the log, and its `Emit` appends to it. Pure
operations return the commands they would send. Stateful objects are
classes whose methods append to a `Host` and update their own fields.
Whatever the host answers is a parameter of the operation.

Python's optional arguments are `Base.Arg<T>` (`Unset`, `Null` for
`None`, `Given(v)`). Exceptions are `Base.Error` values inside `Result`.
Seconds are `real`, and `int(x * 1000)` is written out as
truncation toward zero (`Base.Trunc`). A float that is formatted verbatim
carries its decimal text (`Base.Num`).

| module | file | models |
|---|---|---|
| `Base` | base.dfy | arguments, errors, values and the command log |
| `Text` | text.dfy | the Python string operations the library uses |
| `Colors` | colors.dfy | `colors.py` (`src/ahkpy` and `ahk`) |
| `Settings` | settings.dfy | `settings.py`, `ahkpy/converters.py` |
| `Sending` | sending.dfy | `sending.py` |
| `KeyState` | keystate.dfy | `key_state.py`, the key helpers of `ahkpy/keys.py` and `ahk/keys.py` |
| `Hotkey` | hotkey.dfy | `hotkey.py`, `Hotkey` in `ahkpy/keys.py`, `ahkpy/hotkeys.py`, `ahk/keys.py` |
| `Hotstring` | hotstring.dfy | `hotstring.py`, `Hotstring` in `ahkpy/keys.py` and `ahkpy/hotkeys.py` |
| `Menu` | menu.dfy | `menu.py` (the `legacy` flag selects the `ahkpy` version) |
| `MessageBox` | messagebox.dfy | `message_box.py`, `message_box` of `ahk/api.py` |
| `Mouse` | mouse.dfy | `mouse.py` of both `ahkpy` trees |
| `RemapKey` | remapkey.dfy | `remap_key.py`, `ahkpy/remap.py` |
| `Window` | window.dfy | `Windows` in `window.py`, `ahk/window.py`, the title-match helpers of `ahk/api.py` |
| `Control` | control.dfy | `Control` and window properties in `window.py` |
| `Timers` | timer.dfy | `timer.py` (class `Timer`; its `legacy` flag selects `ahkpy/timer.py`) |
| `Flow` | flow.dfy | `ahkpy/flow.py` (class `Timer`, which also plays `Countdown`) and `ahk/flow.py` |
| `ToolTips` | tooltip.dfy | `tooltip.py` (classes `Pool` and `ToolTip`) |
| `Runner` | runner.dfy | the `main.py` of each tree (class `Interpreter` holds `sys.argv` and `sys.path`) |
| `Launcher` | launcher.dfy | `launcher.py` of both `ahkpy` trees |

Some files in the older trees are byte-identical to current ones and share
their model: `ahkpy/tooltip.py`, `ahkpy/remap_key.py` and `ahk/colors.py`.
`ahkpy/remap.py` has the same logic under other names and is covered by
`RemapKey`. `ahkpy/sending.py`, `ahkpy/settings.py`, `ahkpy/converters.py`
and `ahkpy/key_state.py` follow the same rules as the current members that
cite them. Members named `Legacy…` model the `ahk` package or the older
`keys`/`hotkeys` modules. Members named `Older…` model `ahkpy/timer.py`,
`ahkpy/main.py` and `ahkpy/launcher.py`. In each case the cited path says
which file is meant.

Where the code and its documentation disagree, the model follows the code.
For example, `ToolTip.__init__` accepts `timeout` but never assigns it, so a
new tooltip's timeout is the class attribute's None and `show()` without a
timeout arms no countdown; the model does the same.
The exceptions are listed under "## Findings": for each, the code as written
is modelled next to the corrected behaviour that the rest of the model uses.

## Model

| member | source | states |
|---|---|---|
| Base.PartialOf | src/ahkpy/menu.py:311-312 | `functools.partial` fails with TypeError "the first argument must be callable" exactly for a non-callable, and otherwise gives a callable binding the arguments |
| Base.Bind | src/ahkpy/hotkey.py:79-80 | `if args: func = partial(func, *args)`: the function itself without arguments; with arguments their partial, or partial's TypeError exactly for a non-callable |
| Colors.ToHex | src/ahkpy/colors.py:1-4 | TypeError "color values must be integers" exactly when some component is not an int |
| Colors.HexField | src/ahkpy/colors.py:13 | `int(field, 16)` succeeds exactly on a string of hex digits |
| Colors.ToTuple | src/ahkpy/colors.py:7-13 | a string whose length is not 6 gives ValueError with its repr; an accepted string's components are the base-16 values of characters [0:2], [2:4], [4:6] |
| Colors.ToTupleInRange | src/ahkpy/colors.py:10-13 | every component `to_tuple` returns is in 0..255 |
| Colors.ToTupleAcceptsHexDigits | src/ahkpy/colors.py:7-13 | every six-character string of hex digits is accepted |
| Colors.RoundTripTwoDigitComponents | src/ahkpy/colors.py:1-13 | `to_tuple(to_hex(r, g, b)) == (r, g, b)` when every component is in 16..255 |
| Colors.RoundTripFailsForBlue | src/ahkpy/colors.py:4 | as written, (0, 0, 255) is written "00ff", which `to_tuple` rejects |
| Colors.ToHexPadded | src/ahkpy/colors.py:4 | the zero-padded encoding: same type check, and always six characters for byte components |
| Colors.ParsePadded | src/ahkpy/colors.py:10-13 | a padded two-digit field parses back to the byte it encodes |
| Colors.RoundTripPadded | src/ahkpy/colors.py:1-13 | with padding, the round trip holds for every color in 0..255 |
| Settings.Settings.constructor | src/ahkpy/settings.py:19 | a new Settings object holds exactly the given field values |
| Settings.Settings.Copy | src/ahkpy/settings.py:138-139 | `copy()` is a fresh object, field-wise equal to the original |
| Settings.Settings.DelAttr | src/ahkpy/settings.py:141-142 | deleting any attribute raises AttributeError "<name> cannot be deleted" |
| Settings.Context.constructor | src/ahkpy/settings.py:219-220 | at import time the current settings are the default settings object itself |
| Settings.Context.Thread | src/ahkpy/settings.py:15 | a thread that has not set settings yet has no current settings |
| Settings.Context.GetSettings | src/ahkpy/settings.py:145-155 | returns the current settings if set; otherwise installs and returns a fresh copy of the defaults |
| Settings.Context.SetSettings | src/ahkpy/settings.py:158-160 | the given object becomes the current settings |
| Settings.Manager.constructor | src/ahkpy/settings.py:205-206 | the manager snapshots a fresh copy of the given settings and has no prior settings yet |
| Settings.Manager.Activate | src/ahkpy/settings.py:208-213 | records the previous current settings (installing defaults first if none), installs the copy and returns it |
| Settings.Manager.Exit | src/ahkpy/settings.py:215-216 | reinstates the recorded settings; without a prior `activate` it fails with AttributeError and changes nothing |
| Settings.LocalSettings | src/ahkpy/settings.py:163-196 | the manager holds a copy of the given settings, or of the current ones when None is given |
| Settings.WithLocalSettings | src/ahkpy/settings.py:169-181 | a change made inside `with local_settings()` is visible inside, and afterwards the thread is back on the same, unchanged settings object |
| Settings.OptionalMs | src/ahkpy/settings.py:223-227 | -1 exactly for None or a negative value, otherwise `int(value*1000)` truncated; never below -1 |
| Settings.Default | ahkpy/converters.py:1-4 | `default(a, b)` is a whenever a is not None, else b |
| Settings.SetCoordMode | src/ahkpy/settings.py:230-239 | succeeds exactly for a known target and mode, checking the target first, with the two error messages; on success sends CoordMode target, mode |
| Sending.GetSendMode | src/ahkpy/sending.py:70-80 | an explicit mode wins; with none, Input becomes Event when any delay is a number >= 0, and otherwise the setting is used |
| Sending.SendLevel | src/ahkpy/sending.py:106-111 | an explicit level outside 0..100 raises "level must be between 0 and 100"; otherwise SendLevel is sent with the level or the setting |
| Sending.SetDelayShape | src/ahkpy/sending.py:114-141 | SetKeyDelay is issued unless key_delay or key_duration is UNSET, then SetMouseDelay unless mouse_delay is UNSET; each delay is >= -1 and tagged "Play" exactly in play mode |
| Sending.SetDelayNoneUsesSettings | src/ahkpy/sending.py:114-141 | None delays come from the settings, the `*_play` fields in play mode |
| Sending.SendOutcome | src/ahkpy/sending.py:13-111 | `send` fails exactly on an invalid resolved mode or, outside Play, an invalid level; its last command sends the keys in the resolved mode; Play never sets the level |
| Sending.GivenKeyDelayRevertsToEvent | src/ahkpy/sending.py:73-80 | with Input as the setting, a given key delay makes `send` use Event mode and apply that delay |
| KeyState.GetKeyState | src/ahkpy/key_state.py:65-69 | the host's "" raises ValueError naming the key; otherwise the result is the reply's truthiness |
| KeyState.LockWordDecodes | src/ahkpy/key_state.py:84-91 | the words are On, Off, AlwaysOn, AlwaysOff, and each names exactly one (state, always) pair |
| KeyState.LegacyLockWord | ahk/keys.py:62-71 | always_on/alwayson and always_off/alwaysoff (any case) give the Always words; other values go by truthiness |
| KeyState.LegacyLockWordCaseInsensitive | ahk/keys.py:62-71 | the comparison ignores case |
| KeyState.KeyWaitOptions | ahkpy/key_state.py:92-99 | the options are "D" if down, "L" if logical, then "T<timeout>" if a timeout is given, in that order |
| KeyState.KeyWaitOptionsDecode | ahkpy/key_state.py:92-99 | the three flags can be read back from the option string |
| KeyState.KeyWait | ahkpy/key_state.py:92-101 | sends KeyWait with `str(key)` and the options; returns `not timed_out` |
| KeyState.KeyNameFromCode | src/ahkpy/key_state.py:135-157 | the queried name is "vk" or "sc" followed by the decimal code, which parses back to the code |
| KeyState.GetKey | src/ahkpy/key_state.py:181-185 | a falsy reply raises "<repr> is not a valid key"; otherwise the reply is returned |
| KeyState.IsKeyToggled | ahk/keys.py:37-47 | only CapsLock, NumLock, ScrollLock, Insert and Ins (any case) are accepted, others raise ValueError; the host's reply to the GetKeyState "T" query is a parameter, and an empty reply raises ValueError while any other gives its truthiness |
| KeyState.IsKeyToggledAnyCase | ahk/keys.py:37-40 | "CapsLock" and "INS" are accepted, "Shift" is rejected |
| KeyState.LegacySendLevel | ahk/keys.py:169-173 | a level outside 0..100 raises ValueError; otherwise SendLevel with the level is sent |
| Hotkey.BufferOf | src/ahkpy/hotkey.py:164-167 | a buffer flag is sent exactly when buffer is not None (`NoneV`), "B" for a truthy value and "B0" for a falsy one |
| Hotkey.LegacyBufferOf | ahk/keys.py:124-127 | only the identities `False` and `True` give "B0" and "B"; any other value is ignored |
| Hotkey.ReadBufferPart | src/ahkpy/hotkey.py:164-167 | the buffer flag is read back from the front of an option string |
| Hotkey.DecodeTaggedParts | src/ahkpy/hotkey.py:169-176 | the P, T and I parts are read back in order |
| Hotkey.DecodeEncode | src/ahkpy/hotkey.py:162-178 | every option string the library builds decodes to the options it was built from |
| Hotkey.EncodeInjective | src/ahkpy/hotkey.py:162-178 | different options never share an option string |
| Hotkey.OptionString | src/ahkpy/hotkey.py:162-178 | the appended parts are the buffer flag, then P, T and I for the non-None values, with no separators, and they decode back to the arguments |
| Hotkey.LegacyOptionString | ahk/keys.py:121-134 | the `ahk` builder gives the same string over the buffer flag compared by identity |
| Hotkey.EncodeEmpty | src/ahkpy/hotkey.py:162-178 | the option string is empty exactly when no option is given |
| Hotkey.Update | src/ahkpy/hotkey.py:145-181 | a non-None, non-callable func raises TypeError "object <repr> must be callable"; otherwise one Hotkey command carries the key, the func slot and the option string |
| Hotkey.LegacyUpdate | ahkpy/keys.py:560-583 | the older update rejects every non-callable func, None included, and otherwise sends one Hotkey command |
| Hotkey.Register | src/ahkpy/hotkey.py:13-92 | a blank key name raises ValueError "key_name must not be blank"; with func None a decorator is returned and nothing is sent; with extra args a non-callable func raises partial's TypeError "the first argument must be callable", without them update's "must be callable" error; otherwise the Hotkey command carries func bound to args (func itself when there are none), then the hotkey is enabled |
| Hotkey.DefaultOptions | src/ahkpy/hotkey.py:18-21 | with the keyword defaults the option string is "B0P0T1I0" |
| Hotkey.LegacyRegister | ahk/keys.py:74-100 | "" raises the AutoHotkey error "invalid key name"; func None gives a decorator; a non-callable raises TypeError; otherwise Hotkey is sent, then the options only when there are any |
| Hotkey.LegacySetOptionsSilent | ahk/keys.py:121-136 | `set_options` sends nothing exactly when every option is left out or ignored |
| Hotkey.Switch | src/ahkpy/hotkey.py:130-143 | enable, disable and toggle send HotkeySpecial with the key and On, Off or Toggle |
| Hotstring.NewHotstring | src/ahkpy/hotstring.py:224-226 | a case-insensitive trigger is stored lower-cased (ASCII letters only), a case-sensitive one as given |
| Hotstring.TriggerCaseFolding | src/ahkpy/hotstring.py:224-226 | triggers equal up to case name the same case-insensitive hotstring; "btw" and "BTW" are the same unless case-sensitive |
| Hotstring.IdOptions | src/ahkpy/hotstring.py:243-246 | "C" when case-sensitive, followed by "?" or "?0" |
| Hotstring.IdOptionsInjective | src/ahkpy/hotstring.py:243-246 | the identity options determine both flags |
| Hotstring.Switch | src/ahkpy/hotstring.py:228-241 | enable, disable and toggle address the hotstring as ":<id options>:<trigger>" with On, Off or Toggle |
| Hotstring.Switch3 | src/ahkpy/hotstring.py:290-293 | a two-valued switch is on for a truthy value, off for another non-None value, absent for None |
| Hotstring.KeyDelayText | src/ahkpy/hotstring.py:296-298 | a positive delay is written as whole milliseconds, zero or negative delays verbatim |
| Hotstring.OptionsOf | src/ahkpy/hotstring.py:265-320 | an unknown non-None send mode raises ValueError "<repr> is not a valid send mode" |
| Hotstring.OptionRules | src/ahkpy/hotstring.py:267-288 | the case rule (C, C0, C1, nothing) and the end-character rule ("*" whenever `wait_for_end_char is False`, "*0O" for a truthy omit_end_char, else "*0" and "O0" each when they apply) |
| Hotstring.LowerRun | src/ahkpy/hotstring.py:298 | helper for decoding: the run of characters before the next option letter |
| Hotstring.DecodeRest | src/ahkpy/hotstring.py:295-320 | the K, P, T, S and Z parts are read back |
| Hotstring.DecodeFrontPart | src/ahkpy/hotstring.py:267-293 | the C, ?, *, O and B parts are read back |
| Hotstring.DecodeEncode | src/ahkpy/hotstring.py:265-322 | every option string decodes to the options it was built from |
| Hotstring.EncodeInjective | src/ahkpy/hotstring.py:265-322 | different options never share an option string |
| Hotstring.IntDelaysArePlain | src/ahkpy/hotstring.py:296-298 | every int and every positive delay is written as an int, so the string stays readable |
| Hotstring.OptionString | src/ahkpy/hotstring.py:265-322 | the successive appends build exactly the encoding of the options, in the order C ? * O B K P T S Z, or the send-mode error |
| Hotstring.AppendSwitch | src/ahkpy/hotstring.py:290-293 | one switch appends its letter, the letter with "0", or nothing |
| Hotstring.AppendCase | src/ahkpy/hotstring.py:267-272 | appends "C", "C0", "C1" or nothing |
| Hotstring.AppendEndChars | src/ahkpy/hotstring.py:279-288 | appends "*", "*0" and "O", or "*0" and "O0" each when they apply |
| Hotstring.AppendKeyDelay | src/ahkpy/hotstring.py:295-298 | appends "K<delay>" when a key delay is given |
| Hotstring.AppendPriority | src/ahkpy/hotstring.py:300-301 | appends "P<priority>" when a priority is given |
| Hotstring.AppendMode | src/ahkpy/hotstring.py:308-315 | appends SI, SP or SE; any other non-None mode raises ValueError |
| Hotstring.OptionsOfParts | src/ahkpy/hotstring.py:265-322 | the option string, part by part, for the arguments |
| Hotstring.EncodeParts | src/ahkpy/hotstring.py:322 | the option string is the left-to-right join of its parts |
| Hotstring.Update | src/ahkpy/hotstring.py:248-325 | one Hotstring command ":<options>:<trigger>" with the replacement, or the send-mode error before anything is sent |
| Hotstring.LegacyUpdate | ahkpy/keys.py:622-688 | the older update sends the same options with `repl or ""` |
| Hotstring.ResolveModeAndDelay | src/ahkpy/hotstring.py:156-160 | the mode `_get_send_mode` resolves; a missing key delay becomes 0 exactly when that mode is not Input |
| Hotstring.BoundRepl | src/ahkpy/hotstring.py:154-155 | a callable replacement with extra args becomes their partial; a text, or a callable without args, is kept; callability is unchanged |
| Hotstring.Register | src/ahkpy/hotstring.py:153-182 | no replacement gives a decorator; otherwise the Hotstring command carries the replacement bound to args, with the resolved mode and delay, then the hotstring is enabled |
| Hotstring.DefaultOptionsInput | src/ahkpy/hotstring.py:19-35 | with the keyword defaults and Input mode the options are "C0?0*0O0BP0T0SIZ0" |
| Hotstring.DefaultOptionsEvent | src/ahkpy/hotstring.py:153-161 | in Event mode the same defaults carry K0: "C0?0*0O0BK0P0T0SEZ0" |
| Menu.NewMenu | src/ahkpy/menu.py:79-82 | the name is stored lower-cased (ASCII letters only), a fresh uuid string when omitted |
| Menu.ItemName | src/ahkpy/menu.py:597-600 | an int position n becomes "<n+1>&"; anything else is passed through |
| Menu.ItemNamePosition | src/ahkpy/menu.py:597-600 | a position reference ends in "&" and its number reads back as n+1; position 0 is "1&"; names pass through |
| Menu.Thing | src/ahkpy/menu.py:308-318 | a submenu gives ":<submenu name>" and wins over a callback; a non-callable callback raises partial's TypeError "the first argument must be callable"; a callable gives a new handler wrapping `partial(callback, *args)`; None exactly when neither is given |
| Menu.OptionString | src/ahkpy/menu.py:320-329 | the appended words are P<priority>, ±Radio, ±Break, ±BarBreak (±Right before ±Break in the older module), each only when given, joined with spaces, and they decode back to the arguments |
| Menu.AppendSign | src/ahkpy/menu.py:322-329 | a given flag appends "+word" or "-word", an absent one nothing |
| Menu.InsertDefaultOptions | src/ahkpy/menu.py:179-216 | `insert`'s defaults give "P0 -Radio -Break -BarBreak" |
| Menu.ReadSignPart | src/ahkpy/menu.py:322-329 | a sign word is read back from the front of the word list |
| Menu.ReadPriorityPart | src/ahkpy/menu.py:320-321 | the priority word is read back |
| Menu.PartsShape | src/ahkpy/menu.py:320-329 | every option word is non-empty and space-free; there are no words exactly when no option is given |
| Menu.SignsRead | src/ahkpy/menu.py:322-329 | the sign words read back as the flags |
| Menu.DecodeWordsParts | src/ahkpy/menu.py:320-329 | the word list reads back as the options |
| Menu.DecodeEncode | src/ahkpy/menu.py:320-329 | the option string reads back as the options it was built from |
| Menu.EncodeInjective | src/ahkpy/menu.py:320-329 | different options never share an option string |
| Menu.SetIconCall | src/ahkpy/menu.py:511-535 | `set_icon` sends the item reference, the file, `number+1` with None counting as 0, and the width |
| Menu.FollowUpsOrder | src/ahkpy/menu.py:355-363 | after a named insert the follow-ups are Default, Disable, Check and Icon, in that order, each when it applies |
| Menu.FollowUpsTargets | src/ahkpy/menu.py:355-363 | every follow-up is about the new name |
| Menu.InsertOrder | src/ahkpy/menu.py:352-363 | the insert path sends one Insert and then the follow-ups only when new_name is truthy |
| Menu.InsertTargets | src/ahkpy/menu.py:352-363 | everything after the Insert is about the new name |
| Menu.UpdateStatesOrder | src/ahkpy/menu.py:335-349 | Enable/Disable, then Check/Uncheck, then Icon/NoIcon (never NoIcon in the older module), each when its argument is given |
| Menu.UpdateStatesTargets | src/ahkpy/menu.py:335-349 | each of those commands is about the item |
| Menu.UpdateHeadOrder | src/ahkpy/menu.py:331-334 | the options Add only when the option string is non-empty, then the action Add when one is given |
| Menu.UpdateOrder | src/ahkpy/menu.py:331-351 | the update path's commands are, in order: options Add, action Add, Enable/Disable, Check/Uncheck, Icon/NoIcon, Rename |
| Menu.UpdateNothing | src/ahkpy/menu.py:331-351 | with nothing to change the update path sends nothing |
| Menu.UpdateTargets | src/ahkpy/menu.py:331-351 | every command of the update path is about the item |
| Menu.InsertItem | src/ahkpy/menu.py:299-363 | the insert path converts the reference and chooses the action; partial's TypeError leaves the log unchanged; otherwise it builds the options and appends exactly the insert commands to the log |
| Menu.EmitFollowUps | src/ahkpy/menu.py:355-363 | appends exactly the follow-up commands |
| Menu.Insert | src/ahkpy/menu.py:179-216 | None as insert_before raises TypeError, and a non-callable callback partial's TypeError, before anything is sent; otherwise the insert commands with the callback bound to args |
| Menu.Update | src/ahkpy/menu.py:262-297 | None as item_name raises TypeError, and a non-callable callback partial's TypeError, before anything is sent; otherwise the update commands |
| Menu.UpdateItem | src/ahkpy/menu.py:299-351 | partial's TypeError for a non-callable callback leaves the log unchanged; otherwise the update path appends exactly the update commands |
| Menu.EmitUpdate | src/ahkpy/menu.py:331-351 | appends exactly the update commands for a known reference, action and option string |
| Menu.EmitStates | src/ahkpy/menu.py:335-349 | appends exactly the state commands |
| Menu.AddSeparator | src/ahkpy/menu.py:148-155 | a bare Insert; the older module's `_insert_or_update(None, None)` sends the same single Insert |
| Menu.InsertSeparator | src/ahkpy/menu.py:218-232 | None raises TypeError; otherwise Insert before the converted reference |
| Menu.SetColor | src/ahkpy/menu.py:579-595 | the Color command carries "Single" exactly when the submenus are not affected |
| Menu.Show | src/ahkpy/menu.py:549-577 | an unknown coordinate mode raises ValueError; otherwise CoordMode menu, then Show |
| Menu.Freeze | src/ahkpy/menu.py:708-713 | affected_by_suspend truthy gives "0", another non-None value "1", None gives None |
| Menu.SetTrayIcon | src/ahkpy/menu.py:683-715 | None resets the icon with "*"; otherwise the file or "", an int number plus one, and the freeze word |
| Menu.LegacySetTrayIcon | ahkpy/menu.py:289-296 | the older setter sends the file as given and `number+1` |
| Menu.TrayIconNumber | src/ahkpy/menu.py:659-675 | the host's number minus one when it is an int, else None |
| Menu.TrayIconNumberRoundTrip | src/ahkpy/menu.py:659-715 | setting a tray icon number and reading it back gives the number |
| Menu.TrayIconFile | src/ahkpy/menu.py:638-652 | the host's A_IconFile, None when it is empty |
| Menu.SetTrayIconNumber | src/ahkpy/menu.py:677-681 | the setter sends nothing without an icon file, otherwise that file with the new number |
| MessageBox.IconAliases | src/ahkpy/message_box.py:23-34 | warning/exclamation, error/hand/stop and info/information/asterisk share their icon codes |
| MessageBox.TablesInjective | src/ahkpy/message_box.py:13-47 | different button sets and different default buttons never share a code |
| MessageBox.OptionBits | src/ahkpy/message_box.py:36-41 | the option bits stay within the four option flags |
| MessageBox.OptionBitsInjective | src/ahkpy/message_box.py:36-41 | different option sets give different bits |
| MessageBox.OptionTableBits | src/ahkpy/message_box.py:262-263 | adding a named option ORs in its table value |
| MessageBox.OptionsOf | src/ahkpy/message_box.py:262-265 | an unknown option name fails, otherwise the set holds exactly the options named |
| MessageBox.NamesWithOption | src/ahkpy/message_box.py:262-263 | adding one option name adds exactly that option |
| MessageBox.OptionsWordSteps | src/ahkpy/message_box.py:262-265 | the reduction starts from 0 and ORs each option's value in turn |
| MessageBox.OptionsWordSet | src/ahkpy/message_box.py:262-265 | two option lists give the same word exactly when they name the same options, whatever the order or repeats |
| MessageBox.DisjointParts | src/ahkpy/message_box.py:13-47 | the four fields occupy disjoint bit ranges, so each reads back from the combined word |
| MessageBox.TableRanges | src/ahkpy/message_box.py:13-47 | every table value lies within its field's mask |
| MessageBox.Flags | src/ahkpy/message_box.py:257-265 | an unknown buttons, icon, default button or option raises KeyError, checked in that order; otherwise buttons, icon, default button and options ORed |
| MessageBox.FlagsDetermineParts | src/ahkpy/message_box.py:257-273 | equal flag words come from the same buttons, icon code, default button and set of options |
| MessageBox.SameWordSameOptions | src/ahkpy/message_box.py:262-265 | equal option words name the same options |
| MessageBox.FlagsParts | src/ahkpy/message_box.py:257-273 | each field of the flag word is the table value of its argument |
| MessageBox.MsgBoxCall | src/ahkpy/message_box.py:257-273 | a lookup error is raised before the host is called; otherwise MsgBox gets the flags, `str(title)` or "", `str(text)` and the timeout |
| MessageBox.Reply | src/ahkpy/message_box.py:274-276 | "timeout" becomes None, any other reply is returned |
| MessageBox.DefaultText | src/ahkpy/message_box.py:248-252 | with no text, "Press OK to continue." exactly for a plain OK box with no icon, otherwise "" |
| MessageBox.MessageBoxDefaults | src/ahkpy/message_box.py:180-254 | `message_box()` with no arguments shows "Press OK to continue." with flags 0 |
| MessageBox.Answer | src/ahkpy/message_box.py:132-135 | a timeout gives None; otherwise whether the reply is the affirmative button ("ok", "yes", "retry") |
| MessageBox.StaticFlags | src/ahkpy/message_box.py:101-177 | each static method's defaults give the expected MsgBox flags |
| MessageBox.Replaced | src/ahkpy/message_box.py:83-98 | `show` takes each given argument over the stored field, where a None text or title keeps the stored one, and a None icon clears it |
| MessageBox.ShowWithoutArguments | src/ahkpy/message_box.py:83-98 | `show()` with nothing given shows the box as stored |
| MessageBox.ShowTextOverride | src/ahkpy/message_box.py:83-98 | a text other than None given to `show` is what is displayed |
| MessageBox.LegacyMessageBox | ahk/api.py:17-22 | the ahk package sends a bare MsgBox without text, otherwise options, title, text and timeout |
| Mouse.IntStrCommaFree | src/ahkpy/mouse.py:148-150 | a number's text never contains a comma, so the joined arguments split back |
| Mouse.ClickArgs | src/ahkpy/mouse.py:132-150 | bad button, then bad event type, then negative times raise ValueError in that order; otherwise button, "down"/"up"/nothing, and the count |
| Mouse.ClickArgsMeaning | src/ahkpy/mouse.py:132-150 | the arguments are comma-free and begin with the button and end with the count |
| Mouse.UnknownModifiers | src/ahkpy/mouse.py:241-244 | exactly the characters of the modifier that are not one of "!+^#", each once |
| Mouse.SendClickKeys | src/ahkpy/mouse.py:240-257 | an unknown modifier raises ValueError; otherwise "{Blind}" when blind, the modifier and "{Click, args}" |
| Mouse.ModifierRun | src/ahkpy/mouse.py:241-250 | the length of the leading run of modifier characters |
| Mouse.ParseClickString | src/ahkpy/mouse.py:248-251 | the click string reads back as the blind flag, the modifier and the arguments |
| Mouse.Click | src/ahkpy/mouse.py:132-153 | invalid arguments raise; otherwise the click string is sent with the key delays unset, and it reads back as the arguments |
| Mouse.Scroll | src/ahkpy/mouse.py:176-180 | a bad direction or negative count raises ValueError; otherwise "wheel<direction>" and the count are sent with no mouse delay |
| Mouse.MoveModeAndSpeed | src/ahkpy/mouse.py:215-221 | a given speed forces "event" mode unless one is given; otherwise the mouse speed setting is used |
| Mouse.MouseMoveOutcome | src/ahkpy/mouse.py:215-237 | speed outside 0..100 raises and a bad coord mode fails, both with nothing sent; otherwise CoordMode (skipped for "cursor") and SetDefaultMouseSpeed are sent first, and then `send` either raises with nothing more sent or sends the click last; the keys read back as the truncated coordinates, "0" and the offset |
| Mouse.MoveAfterChecks | src/ahkpy/mouse.py:229-237 | once the speed and the coord mode pass, CoordMode and SetDefaultMouseSpeed stay sent before the result of `send`, an error or the click |
| Mouse.LegacyClickArgs | ahkpy/mouse.py:77-108 | the older arguments: the coordinates first, the same checks, then "relative" for "pointer" |
| Mouse.LegacyClick | ahkpy/mouse.py:77-111 | a bad button, event type, count or coord mode raises with nothing sent; otherwise CoordMode (unless `relative_to` is "pointer") stays sent when the modifier check or `send` then raises, and on success it is followed by `send`'s commands for a click string that reads back as the arguments |
| Mouse.LegacyArgsCommaFree | ahkpy/mouse.py:84-105 | the older arguments are comma-free |
| Mouse.ControlUnderMouseFlag | src/ahkpy/mouse.py:321 | flag 3 exactly when simple is truthy, otherwise 2 |
| RemapKey.MouseIsNotAlt | src/ahkpy/remap_key.py:27-39 | a mouse destination is never an Alt key, so the Ctrl-to-Alt case never applies to it |
| RemapKey.NoDelayKeepsMode | src/ahkpy/remap_key.py:31-53 | a delay of -1 leaves the send mode as given or set |
| RemapKey.RunOutcome | src/ahkpy/remap_key.py:27-53 | a mouse press first sends the GetKeyState query for the destination; a "" reply then raises ValueError and a truthy reply sends nothing more; otherwise the handler's keys are sent after the query, in the given or set mode, and fail exactly when that mode or level is invalid, with nothing sent after the query |
| RemapKey.SentOutcome | src/ahkpy/remap_key.py:31-53 | the handler's `send` call fails exactly when its mode or level is invalid; on success its last command sends the handler's keys in that mode |
| RemapKey.HotkeyNames | src/ahkpy/remap_key.py:55-56 | the hotkeys are "*origin" and "*origin Up", and they differ |
| RemapKey.RemapKey | src/ahkpy/remap_key.py:55-57 | the press handler is registered first, then the release handler, each with the default options |
| RemapKey.Switch | src/ahkpy/remap_key.py:74-87 | enable, disable and toggle switch the origin hotkey, then the origin-up hotkey |
| RemapKey.EnableRepeatsRegistration | src/ahkpy/remap_key.py:55-77 | enabling repeats exactly the On commands that registration sent |
| RemapKey.MouseAnyCase | src/ahkpy/remap_key.py:27-39 | the key classes ignore case |
| Window.Filter | src/ahkpy/window.py:93-113 | no criteria and no mode give the same windows; an invalid match mode raises ValueError; otherwise each given criterion replaces its field and the rest are kept |
| Window.FilterCompose | src/ahkpy/window.py:93-113 | filtering twice equals filtering once with the later criteria overriding the earlier |
| Window.FilterIdempotent | src/ahkpy/window.py:93-113 | refiltering with the same criteria changes nothing |
| Window.Exclude | src/ahkpy/window.py:115-143 | an invalid match mode raises; otherwise only the exclusions and the mode change |
| Window.FilterExcludeCommute | src/ahkpy/window.py:93-143 | filtering and excluding without a mode commute |
| Window.LegacyFilter | ahkpy/window.py:49-67 | the older `filter` also rejects a None match mode, and otherwise agrees with `filter` |
| Window.LegacyExclude | ahkpy/window.py:70-79 | the older `exclude` never fails and agrees with `exclude` without a mode |
| Window.AppendPart | src/ahkpy/window.py:597-616 | appends a part only when its criterion is set |
| Window.Include | src/ahkpy/window.py:597-616 | WinTitle is the set criteria title, ahk_class, ahk_id, ahk_pid, ahk_exe joined by spaces; WinText is the text or "" |
| Window.ExcludeSlots | src/ahkpy/window.py:618-622 | each exclusion is its value, or "" when UNSET |
| Window.SplitWinTitle | src/ahkpy/window.py:597-616 | a WinTitle of space-free criteria splits back into the title word and the tagged words |
| Window.DecodeTails | src/ahkpy/window.py:606-615 | the tagged words read back, field by field, as the criteria |
| Window.DecodeWinTitleInclude | src/ahkpy/window.py:597-616 | a WinTitle built from space-free criteria reads back as those criteria |
| Window.WinTitleInjective | src/ahkpy/window.py:597-616 | two such criteria sets with the same WinTitle have the same criteria |
| Window.QueryExamples | src/ahkpy/window.py:594-616 | the default windows query four empty strings; a title filter or an id filter fills the WinTitle |
| Window.ActiveQuery | src/ahkpy/window.py:257-259 | an all-empty query becomes the active window "A", any other is kept |
| Window.ActiveWithoutCriteria | src/ahkpy/window.py:257-259 | with no criterion set, `get_active` asks for "A" |
| Window.Fields | src/ahkpy/window.py:34-45 | the twelve dataclass fields in declaration order |
| Window.FieldStrs | src/ahkpy/window.py:555-561 | keeps at most one string per field |
| Window.ReprWindows | src/ahkpy/window.py:555-561 | `__repr__` is "Windows(", the name=repr(value) strings of the fields that are not UNSET joined by ", ", and ")" |
| Window.FieldStrsCount | src/ahkpy/window.py:555-561 | exactly one string per field that is not UNSET |
| Window.FieldStrsAppend | src/ahkpy/window.py:555-561 | the strings of two runs of fields concatenate |
| Window.FieldStrsAllSet | src/ahkpy/window.py:555-561 | with every field set, each field gives its string in order |
| Window.FieldStrsNoneSet | src/ahkpy/window.py:555-561 | with no field set, nothing is shown |
| Window.ReprFields | src/ahkpy/window.py:555-561 | the repr lists exactly the fields that are not UNSET |
| Window.ReprDefault | src/ahkpy/window.py:555-561 | the default windows show hidden_windows, hidden_text, title_mode and text_mode |
| Window.SetTitleMatchMode | src/ahkpy/window.py:2672-2682 | a mode outside startswith, contains, exact, regex raises ValueError; otherwise one SetTitleMatchMode command |
| Window.SetTitleMatchModeInjective | src/ahkpy/window.py:2672-2682 | different modes send different commands |
| Window.WinCallShape | src/ahkpy/window.py:563-592 | nothing is sent for a missing window; DetectHiddenWindows comes first; an error exactly for an invalid title or text mode, and an invalid title mode stops after the DetectHidden commands; on success the command comes last |
| Window.DetectHiddenText | src/ahkpy/window.py:563-592 | DetectHiddenText is sent exactly when a text or exclude-text criterion is set |
| Window.LegacyDetectHiddenWindows | ahk/window.py:8-10 | "On" for a truthy value, "Off" otherwise |
| Window.LegacySetTitleMatchModeShape | ahk/window.py:13-33 | with no arguments nothing is sent; the mode is matched without case and sent first; an error exactly for an unknown mode or speed, and an unknown speed fails after the mode was sent |
| Control.GetLine | src/ahkpy/window.py:2233-2263 | None without a line count; an index out of range after counting negatives from the end raises "line number out of range"; a returned line is `str` of the reply; message 1 gives "" for a line still in range and the range error otherwise; other errors propagate |
| Control.GetLineIndexing | src/ahkpy/window.py:2246-2252 | an index is in range exactly when -count <= lineno < count, it resolves to lineno mod count and the host is asked for a line 1..count |
| Control.GetLineExamples | src/ahkpy/window.py:2246-2263 | on three lines -1, -2, -3 are lines 2, 1, 0 and 3, 4, -5 are out of range; line 2 failing with message 1 after a recount of 2 is the range error |
| Control.LegacyGetLine | ahkpy/window.py:1032-1048 | the older `get_line` returns `str` of the reply; on message 1 "" only for the last line, else None; other errors propagate |
| Control.GetLineVersionsDiffer | ahkpy/window.py:1043-1046 | on message 1 the current `get_line` gives "" for every line in range, the older one only for the last |
| Control.AppendWhen | src/ahkpy/window.py:2522-2526 | appends the word only when its flag is set |
| Control.ListOptions | src/ahkpy/window.py:2522-2533 | no column count gives None; otherwise "Selected", "Focused" and "Col<n+1>" (negatives from the end) joined by spaces |
| Control.OptionWordsShape | src/ahkpy/window.py:2522-2533 | the option words are non-empty and space-free |
| Control.OptionWordsRoundTrip | src/ahkpy/window.py:2533 | a space-joined option string splits back into its words |
| Control.ListOptionsDecode | src/ahkpy/window.py:2522-2533 | the option string reads back as the flags and the column |
| Control.ListOptionFlags | src/ahkpy/window.py:2522-2526 | "Selected" and "Focused" appear exactly when asked for |
| Control.ListOptionColumn | src/ahkpy/window.py:2528-2532 | the "Col" word names the resolved column, and is absent without a column |
| Control.SplitListItems | src/ahkpy/window.py:2555-2558 | "" is no rows; otherwise one row per line |
| Control.JoinSplitListItems | src/ahkpy/window.py:2555-2558 | joining the split rows and columns rebuilds the host's text |
| Control.SplitJoinListItems | src/ahkpy/window.py:2555-2558 | splitting the text of a table without tabs or newlines in its cells gives the table back |
| Control.ListItems | src/ahkpy/window.py:2534-2553 | one column's cells or all rows split; on message 1 None unless the control is a SysListView32, else an error that says "column index out of range" exactly when the column is |
| Control.SetOpacity | src/ahkpy/window.py:1760-1767 | None turns transparency off; a level outside 0..255 raises ValueError; otherwise the level is sent |
| Control.SetOpacityInjective | src/ahkpy/window.py:1760-1767 | distinct levels send distinct commands, and none turns transparency off |
| Control.IsEnabled | src/ahkpy/window.py:1050-1053 | None for a missing window, otherwise whether DISABLED is clear |
| Control.IsVisible | src/ahkpy/window.py:1101-1104 | False for a missing window, otherwise whether VISIBLE is set |
| Control.AlwaysOnTop | src/ahkpy/window.py:1599-1602 | None for a missing window, otherwise whether TOPMOST is set |
| Control.StyleBitsIndependent | src/ahkpy/window.py:1050-1104 | setting or clearing DISABLED leaves VISIBLE as it was |
| Control.SetAlwaysOnTop | src/ahkpy/window.py:1605-1609 | WinSet AlwaysOnTop, "On" exactly when the value is truthy |
| Timers.New | src/ahkpy/timer.py:105-118 | a negative interval, then a priority outside the 32-bit range, raise ValueError; otherwise the attributes as given, with no wrapper yet |
| Timers.RegisterShape | src/ahkpy/timer.py:155-193 | at most one SetTimer is sent; a wrapper exists afterwards exactly when one did or the callback is callable; after a command the wrapper is live; a live wrapper is reused |
| Timers.UpdateKeepsValid | src/ahkpy/timer.py:129-201 | every update and every stop keep the interval non-negative, the priority in range and the reference pointing at a wrapper this timer made |
| Timers.RegisterKeepsValid | src/ahkpy/timer.py:155-193 | the register part of an update keeps the attributes valid |
| Timers.ReplaceFunc | src/ahkpy/timer.py:148-153 | a new callback first deletes the live wrapper, then registers a fresh wrapper of the new callback; a callback that is not callable raises TypeError |
| Timers.UpdateWithoutFunc | src/ahkpy/timer.py:152-153 | without any callback, update raises TypeError and changes nothing |
| Timers.DeadTimerRestarts | src/ahkpy/timer.py:157-181 | a dead or missing wrapper forces a full restart: one SetTimer with a new wrapper, the interval in ms (negated for a one-shot timer) and the priority |
| Timers.PriorityOnlyUpdate | src/ahkpy/timer.py:168-193 | a priority-only update of a live timer sends "" as the interval and changes only the priority |
| Timers.NothingToSend | src/ahkpy/timer.py:192-193 | with both slots empty nothing is sent and nothing changes |
| Timers.SendsWhenSlotSet | src/ahkpy/timer.py:168-193 | exactly one command goes out when an interval, priority, periodic flag or forced restart is given, and none otherwise |
| Timers.StartIgnoresPeriodic | src/ahkpy/timer.py:120-127 | as written, `start` drops its `periodic` argument: the stored flag and the interval's sign are unchanged |
| Timers.StartHonoursPeriodic | src/ahkpy/timer.py:120-127 | corrected, `start(periodic=...)` stores the flag and the restart interval takes its sign |
| Timers.StopIdempotent | src/ahkpy/timer.py:195-201 | stopping sends Delete for a live wrapper only, and stopping again sends nothing |
| Timers.Timer.constructor | src/ahkpy/timer.py:105-118 | the object holds the given attributes |
| Timers.Timer.Create | src/ahkpy/timer.py:105-118 | construction fails or succeeds as the attribute value does |
| Timers.Timer.Released | src/ahkpy/timer.py:155-160 | the host dropping the wrapper kills only the weak reference |
| Timers.Timer.Stop | src/ahkpy/timer.py:195-201 | the object and the host log move as `stop` says |
| Timers.Timer.Update | src/ahkpy/timer.py:129-193 | the object and the host log move as `update` says (the older Timer: with `stop()` for `cancel()`) |
| Timers.Timer.Replace | src/ahkpy/timer.py:148-151 | stop, then the new callback with no wrapper |
| Timers.Timer.Register | src/ahkpy/timer.py:155-193 | the wrapper, the slots and at most one SetTimer |
| Timers.Timer.AcquireWrapper | src/ahkpy/timer.py:155-166 | reuses a live wrapper, otherwise a non-callable callback raises TypeError, otherwise a new wrapper and a forced restart |
| Timers.Timer.FillInterval | src/ahkpy/timer.py:168-181 | the interval slot: "" or the interval in ms with the sign of periodicity, or ValueError |
| Timers.Timer.FillPriority | src/ahkpy/timer.py:183-190 | the priority slot: "" or the priority, or ValueError |
| Timers.Timer.Start | src/ahkpy/timer.py:120-127 | the object and the host log move as the corrected `start` says |
| Timers.ScheduleCalls | src/ahkpy/timer.py:15-88 | `set_timer` and `set_countdown` validate interval and priority first; without a callback they return the decorator holding the new Timer and the arguments, with nothing sent; a callable, bound to `args` by partial when there are any, is registered once with a new wrapper, the interval and the priority; a non-callable raises TypeError in partial or in the update |
| Timers.DecoratorStarts | src/ahkpy/timer.py:41-50 | applying the returned decorator to a callback gives the same outcome as passing that callback directly |
| Timers.OlderReplaceFuncRaises | ahkpy/timer.py:153 | as written, the older `update(func=f)` calls the missing `cancel` and raises AttributeError with nothing changed |
| Timers.OlderReplaceFunc | ahkpy/timer.py:152-156 | with `stop()` for `cancel()`, the older update behaves as the current one |
| Timers.OlderAgreesWithoutFunc | ahkpy/timer.py:130-195 | without a new callback the older update agrees with the current one, except that a missing callback raises "must be callable" |
| Flow.New | ahkpy/flow.py:71-82 | a negative interval, then a priority outside the 32-bit range, raise ValueError; otherwise the attributes as given, with no wrapper |
| Flow.UpdateCall | ahkpy/flow.py:131-132 | a Timer sends the slots as they are; a Countdown negates an interval that is there, which is what the code as written sends whenever it does not fail |
| Flow.CountdownSlotRoundTrip | ahkpy/flow.py:142-144 | negating the Countdown's interval slot again gives the slot back |
| Flow.ReplaceFuncRaises | ahkpy/flow.py:89-92 | as written, `update(func=f)` calls the missing `cancel` and raises AttributeError with nothing changed |
| Flow.ReplaceFunc | ahkpy/flow.py:89-129 | corrected, a new callback deletes the live wrapper, then registers a fresh wrapper with the interval (negated for a Countdown) and the priority |
| Flow.CountdownPriorityOnlyRaises | ahkpy/flow.py:110-144 | as written, a priority-only update of a live Countdown stores the priority, then raises TypeError and sends nothing |
| Flow.CountdownPriorityOnly | ahkpy/flow.py:110-132 | corrected, it sends the empty interval and the priority, as a Timer does |
| Flow.EarlyReturn | ahkpy/flow.py:107-108 | a live timer with nothing given returns before any command, in both versions |
| Flow.CorrectedAgrees | ahkpy/flow.py:88-144 | wherever the code as written does not fail on `-""`, the corrected update does the same |
| Flow.UpdateKeepsValid | ahkpy/flow.py:88-139 | every update keeps the interval non-negative, the priority in range and the reference pointing at a wrapper this timer made |
| Flow.PrepareKeepsValid | ahkpy/flow.py:94-127 | the part of an update before `_update` keeps the attributes valid |
| Flow.StartWithInterval | ahkpy/flow.py:84-86 | `start(interval=x)` on a live timer is no forced restart: the new interval and an empty priority |
| Flow.Timer.constructor | ahkpy/flow.py:71-82 | the object holds the given attributes |
| Flow.Timer.Create | ahkpy/flow.py:71-82 | construction fails or succeeds as the attribute value does |
| Flow.Timer.Released | ahkpy/flow.py:94-100 | the host dropping the wrapper kills only the weak reference |
| Flow.Timer.Stop | ahkpy/flow.py:134-139 | the object and the host log move as `stop` says |
| Flow.Timer.Update | ahkpy/flow.py:88-132 | the object and the host log move as the corrected `update` says |
| Flow.Timer.Register | ahkpy/flow.py:94-132 | the wrapper, the slots and at most one SetTimer |
| Flow.Timer.AcquireWrapper | ahkpy/flow.py:94-105 | reuses a live wrapper, otherwise a non-callable callback raises TypeError, otherwise a new wrapper and a forced restart |
| Flow.Timer.FillInterval | ahkpy/flow.py:110-118 | the interval slot: "" or the interval in ms, or ValueError |
| Flow.Timer.FillPriority | ahkpy/flow.py:120-127 | the priority slot: "" or the priority, or ValueError |
| Flow.Timer.Start | ahkpy/flow.py:84-86 | the object and the host log move as `start` says |
| Flow.Sleep | ahkpy/flow.py:147-154 | a negative length raises ValueError; 0 sends Sleep -1; otherwise the whole milliseconds, which never exceed the length |
| Flow.SleepMonotonic | ahkpy/flow.py:147-154 | longer sleeps never wait less |
| Flow.LegacySetBatchLines | ahk/flow.py:17-24 | "<interval>ms" takes precedence over the line count; with neither, ValueError |
| Flow.BatchLinesDistinct | ahk/flow.py:17-24 | an interval and an integer line count never send the same command |
| Flow.LegacySetTimer | ahk/flow.py:27-42 | without a callback the decorator `partial(set_timer, ...)` holding period, countdown and priority comes back, with nothing checked or sent; otherwise a negative countdown raises ValueError; a countdown replaces the period, negated, in ms; the command carries the callback and priority and the handle holds the callback |
| Flow.LegacyTimerCommands | ahk/flow.py:45-60 | every handle command addresses its callback; On, Off and Delete differ; set_priority sends an empty period |
| ToolTips.Descending | src/ahkpy/tooltip.py:40-41 | the numbers 20 down to 1, in the order they are put |
| ToolTips.ElemsAppend | src/ahkpy/tooltip.py:135-142 | putting a number back adds exactly that number to the pool's contents |
| ToolTips.Pool.constructor | src/ahkpy/tooltip.py:39-42 | the pool holds 20, 19, ..., 1, nothing is taken, and the free and taken numbers are 1..20 each exactly once |
| ToolTips.Pool.Get | src/ahkpy/tooltip.py:127-133 | an empty pool gives None and changes nothing; otherwise the last number put comes out and is counted as taken; the partition of 1..20 is kept |
| ToolTips.Pool.Put | src/ahkpy/tooltip.py:135-142 | a full pool refuses and changes nothing; otherwise the number goes back and is no longer taken; a taken number is always accepted |
| ToolTips.PoolEmptyIffAllTaken | src/ahkpy/tooltip.py:19-42 | the pool is empty exactly when all 20 numbers are taken, and every taken number is in 1..20 |
| ToolTips.LowestFirst | src/ahkpy/tooltip.py:39-42 | successive gets from a fresh pool return 1, 2, 3, ... |
| ToolTips.ShowText | src/ahkpy/tooltip.py:86-89 | with neither the argument nor the attribute non-empty, ValueError; otherwise the argument when non-empty, else the attribute |
| ToolTips.Coord | src/ahkpy/tooltip.py:91-96 | a given coordinate is sent; UNSET falls back to the attribute; None is sent as "" |
| ToolTips.HideCallIsShowCall | src/ahkpy/tooltip.py:104-121 | hiding sends the show command with every slot but the number emptied |
| ToolTips.ToolTip.constructor | src/ahkpy/tooltip.py:44-53 | the object holds text, x, y and relative_to, with no number and no timer; its timeout is None because `__init__` never assigns it |
| ToolTips.ToolTip.Create | src/ahkpy/tooltip.py:44-53 | a relative_to outside the coordinate modes raises ValueError; otherwise a new tooltip with no number and no timer, holding the given attributes except `timeout`, which stays None |
| ToolTips.ToolTip.Acquire | src/ahkpy/tooltip.py:127-133 | a held number is kept; an empty pool raises "cannot show more than 20 tooltips simultaneously"; otherwise the next free number is taken; the pool stays consistent |
| ToolTips.ToolTip.Release | src/ahkpy/tooltip.py:135-142 | nothing without a number; a full pool raises "tooltip pool is corrupted"; otherwise the number goes back and is cleared; a consistent pool never raises |
| ToolTips.ToolTip.DropTimer | src/ahkpy/tooltip.py:113-124 | the timer, when there is one, takes `stop()`'s new attributes and its commands are logged, and then it is forgotten |
| ToolTips.ToolTip.Hide | src/ahkpy/tooltip.py:117-125 | text, coordinates, relative_to and timeout are kept; nothing else is done without a number; otherwise exactly the hide command followed by the timer's stop commands, the timer stopped and cleared, and the number moved from the lent set back to the end of the free list |
| ToolTips.ArmIsCountdown | src/ahkpy/tooltip.py:108-112 | without a timer, arming does what `set_countdown(timeout, self.hide)` does, and keeps the timer only when that call returns |
| ToolTips.ArmHidesAfterTimeout | src/ahkpy/tooltip.py:106-115 | a new countdown is one-shot, runs `hide`, and is registered with minus the timeout in milliseconds; a kept timer is restarted with the timeout; no timeout deletes a live timer's wrapper and sends nothing else |
| ToolTips.ToolTip.ArmTimer | src/ahkpy/tooltip.py:106-115 | the commands, the error and the timer's attributes after arming are those of ArmStep: restart the existing timer, make a new countdown running `hide`, or stop and forget it |
| ToolTips.ToolTip.Present | src/ahkpy/tooltip.py:102-115 | a bad coordinate mode raises with nothing sent and the timer untouched; otherwise CoordMode and the ToolTip command, then exactly the arming commands of ArmStep |
| ToolTips.ToolTip.Show | src/ahkpy/tooltip.py:55-115 | empty text raises before anything; an empty pool raises; otherwise the number is held, CoordMode and the ToolTip command are sent with the resolved text and coordinates, a bad coordinate mode raises after the number is taken; every error leaves the timer and the held number alone; after the two commands the log, the error and the timer's attributes are those of ArmStep for the resolved timeout; a held number leaves the pool as it was, a new one is popped from the end of the free list and joins the lent set |
| Runner.HandleSystemExit | src/ahkpy/main.py:46-65 | None gives status 0; the exception's code is unwrapped; an int or bool code is the status, with nothing shown; anything else is shown and gives status 1 |
| Runner.SystemExitStatus | src/ahkpy/main.py:46-65 | `sys.exit(n)` gives n, `sys.exit()` 0, `sys.exit("bye")` shows "bye" and gives 1, `sys.exit(True)` gives 1 |
| Runner.HandleSystemExitVersions | ahk/main.py:25-40 | the two versions agree on every value but None, which the `ahk` version shows and turns into status 1 |
| Runner.RunCode | src/ahkpy/main.py:232-260 | SystemExit passes through; Ctrl+C becomes exit status 0xC000013A, any other exception status 1 |
| Runner.OlderRunCode | ahkpy/main.py:165-190 | the older version turns every other exception into status 1 |
| Runner.FailureStatus | src/ahkpy/main.py:246-249 | a failing program never ends with 0, Ctrl+C is reported as 0xC000013A only by the current version, and a second pass changes nothing |
| Runner.Interpreter.constructor | src/ahkpy/main.py:88-154 | the interpreter holds the given argv and path, not quiet |
| Runner.Interpreter.AddToPath | src/ahkpy/main.py:131-151 | a directory is put first on `sys.path` unless it is already there |
| Runner.Interpreter.RunFromArgs | src/ahkpy/main.py:88-154 | GetVar A_AhkVersion is sent first, for the version text; then the tray icon is shown unless --no-tray; the program chosen is `Dispatch`, and argv, path and quiet become what it says |
| Runner.Interpreter.OlderRunFromArgs | ahkpy/main.py:61-115 | the older program choice; under two arguments nothing changes; -c sets argv to "-c" and the rest and keeps path; -m sets argv and puts the working directory first in path unless it is there; stdin sets argv to "-" and the rest; a script run sets argv and puts its directory first in path; a usage error or an exit for a script run keeps argv and path |
| Runner.Interpreter.LegacyRunFromArgs | ahk/main.py:43-87 | the `ahk` program choice from `parse_args`, with argv, path and quiet |
| Runner.CommandArgv | src/ahkpy/main.py:125-128 | `-c CMD ARGS` runs CMD with argv `["-c", ARGS...]` |
| Runner.StdinArgv | src/ahkpy/main.py:135-145 | reading stdin gives argv `[""]` with no words, the words themselves after "-"; with no stdin and no words, usage and exit status 2 |
| Runner.ArgvStartsWithProgram | src/ahkpy/main.py:129-151 | a module or script sees argv starting at its own name, and only they touch `sys.path` |
| Runner.OlderDispatchVersions | ahkpy/main.py:92-115 | the older version reads stdin only after "-", never opens a console and exits 0 on an empty name |
| Runner.ParseArgs | ahk/main.py:90-122 | help or quiet only as the first word; help takes nothing else; then either "-m MOD" or a file, never both, then the rest in order; too few words give None |
| Runner.ParseUnparse | ahk/main.py:90-122 | a command line built from expressible arguments parses back to them |
| Runner.LongModuleIsFile | ahk/main.py:48-120 | "--module" is declared but taken as a file name; "-m" or "-q" alone are rejected; options after the file are passed on |
| Runner.LegacyRunsWhatItNames | ahk/main.py:56-87 | every expressible command line runs the module or file it names |
| Launcher.NameOfJoin | src/ahkpy/launcher.py:99-105 | the name and parent of a joined path are its parts |
| Launcher.NameHasNoSeparator | src/ahkpy/launcher.py:99-105 | the name of a path has no separator |
| Launcher.ExePath | src/ahkpy/launcher.py:54-63 | AUTOHOTKEY wins when set; then the associated program when its name starts with "autohotkey", ignoring case; otherwise the default install |
| Launcher.ExePathNamed | src/ahkpy/launcher.py:54-63 | the path is never empty, and without the variable it names AutoHotkey |
| Launcher.DefaultAhkParts | src/ahkpy/launcher.py:10 | the default is AutoHotkey.exe in "C:\Program Files\AutoHotkey" |
| Launcher.OlderExePath | ahkpy/launcher.py:20 | the older launcher takes the association when there is one, else the default |
| Launcher.FixPlatformRenames | src/ahkpy/launcher.py:99-105 | AutoHotkey.exe in any case becomes AutoHotkeyU<bits>.exe in the same directory, keeping the original letters |
| Launcher.FixPlatformIdempotent | src/ahkpy/launcher.py:99-105 | rewriting again changes nothing |
| Launcher.DefaultAhkBuild | src/ahkpy/launcher.py:10-105 | the default install becomes "...\AutoHotkeyU64.exe" on a 64-bit Python |
| Launcher.BuildPathKept | src/ahkpy/launcher.py:99-105 | a path already naming a build is kept |
| Launcher.Int32Of | src/ahkpy/launcher.py:39-42 | the status is in the signed 32-bit range and agrees with the code modulo 2^32 |
| Launcher.Int32RoundTrip | src/ahkpy/launcher.py:39-42 | the unsigned code is recovered; codes below 2^31 are kept; 0xC000013A reads as -1073741510 |
| Launcher.FirstExit | src/ahkpy/launcher.py:23-42 | the first code that is not the restart request 65530, with all before it restarts |
| Launcher.LaunchArgs | src/ahkpy/launcher.py:21 | the command line is the AutoHotkey program, then the script, then the arguments after the first, in order |
| Launcher.Supervise | src/ahkpy/launcher.py:21-42 | AutoHotkey is started with the LaunchArgs command line once per restart request and once more; the launcher exits with the first other code, read as signed 32 bits (the older launcher: unchanged) |
| Launcher.FirstExitAt | src/ahkpy/launcher.py:23-42 | the first non-restart code is found where it is |

## Left out

- Host effects: what AutoHotkey does with a command is not modelled. Commands only go into the log, and the host's replies (`GetKeyState`, `WinExist`, the style bits, the message-box result, a child's return code) are parameters.
- Concurrency: the global lock and its timeout in `ahk_call`, `coop` threads, every polling `wait_*` and the thread locality of context variables. A `Settings.Context` object stands for one thread's current-settings cell.
- Garbage collection: the weak reference a timer keeps to its wrapper is a boolean `alive` flag. The host clears it through `Released` when it deletes the timer.
- Timer firing: callbacks are never run, and a one-shot timer that has fired is only its dead reference.
- Floating point: seconds are reals and `int(x * 1000)` is truncation. The text of a float's `repr` is carried with the number and is not computed.
- Python's `int(s, 16)` leniency (signs, spaces, underscores, a `0x` prefix): `to_tuple` fields are accepted only when they are hex digits.
- `repr` escaping: `Text.Repr` quotes a string in single quotes and does not escape quotes or control characters.
- `src/ahkpy/unset.py` is not part of this model. `UNSET` is treated as falsy, which is what `menu.py`'s `if icon:` relies on.
- `Mouse.UnknownModifiers` lists the unknown characters in the order they are written. Python builds them as a set, whose order is not fixed.
- Argument parsing with `argparse` in `src/ahkpy/main.py` and `ahkpy/main.py`: the parsed options are given as a datatype. The manual parser of `ahk/main.py` is modelled.
- Running the program (`runpy`, `exec`, `compile`), tracebacks, console reopening and reading stdin: a program's outcome is a parameter of `Runner.RunCode`.
- The launcher's subprocess, its stdin pipe and its `KeyboardInterrupt` wait loop: only the relaunch rule and the exit status are modelled. The older launcher's environment settings are left out as well.
- `python_dll_path` and the `AssocQueryStringW` file-association lookup are parameters of the launcher functions. Windows path rules beyond single backslash separators (drive letters, forward slashes, UNC names) are not modelled.
- `win_exist` and the other window queries that only forward to the host.
- `set_timer` and `set_countdown` of `ahkpy/flow.py` construct a timer and start it, which is `Flow.Timer.Create` followed by `Flow.Timer.Start`.
- The copies of `set_timer`, `Timer` and `set_batch_lines` in `ahk/api.py` match those of `ahk/flow.py` except for the names of the enable, disable and delete methods. Only the `ahk/flow.py` copies are modelled.
- Text.Lower: folds only the ASCII letters A-Z. Python's `str.lower()` folds all of Unicode, so "Ä" becomes "ä" and the Kelvin sign (U+212A) becomes "k". Every case-insensitive rule below goes through `Text.Lower` and is ASCII-only in the model.
- NewHotstring: a case-insensitive trigger keeps its non-ASCII capitals, where Python lower-cases them.
- TriggerCaseFolding: triggers that differ only in the case of non-ASCII letters are distinct in the model, though Python's `lower()` makes them one hotstring.
- NewMenu: a menu name keeps its non-ASCII capitals, where Python lower-cases them.
- KeyState.IsKeyToggled: a key name that only Python's Unicode folding turns into a lock key (such as "ScrollLoc" followed by the Kelvin sign) is rejected in the model. The same goes for the words of `KeyState.LegacyLockWord`.
- RemapKey.MouseIsNotAlt: the mouse-button, Ctrl and Alt classes of `remap_key` compare ASCII-lower-cased names.
- Control.ListItems: the "syslistview32" class-name test is ASCII-only.
- Launcher.ExePath: the "autohotkey" name test is ASCII-only. The same holds for the "autohotkey.exe" test of `Launcher.FixPlatformRenames`.
- Hotkey.Update: sends the callback as given. In the source, `_wrap_callback` (src/ahkpy/flow.py:222-245) replaces it with a partial of a handler that matches its signature, and raises TypeError when the callback accepts only some of the handler's keyword arguments. Signatures are not modelled.
- Hotkey.Switch: its single HotkeySpecial command is what a context without `active_when` sends. With `active_when`, `HotkeyContext._manager` (src/ahkpy/hotkey_context.py:134-168) sends HotkeyContext before and HotkeyExitContext after every update, enable, disable and toggle. This also holds for `Hotkey.Update`, `Hotkey.Register`, `Hotstring.Update`, `Hotstring.Switch` and `Hotstring.Register`. Contexts are not modelled.
- Menu.Thing: the handler `_wrap_callback` (src/ahkpy/flow.py:222-245) makes from the partial is one `Wrapped` value. The model does not choose between the bare and keyword handlers by the callback's signature, and it omits the TypeError for a callback that accepts only some of `item_name`, `item_pos` and `menu`. Signatures are not modelled.
- MessageBox.Replaced: attributes are modelled as omitted or given a valid-typed value. An explicit `buttons=None`, `default_button=None` or `options=None` passed to `show` (src/ahkpy/message_box.py:83-98) replaces the field with None. The lookups of `_message_box` (src/ahkpy/message_box.py:257-265) then raise KeyError(None), or TypeError for the options; the model has no such input.
- Hotstring.Update: its one Hotstring command holds for a context without `active_when`, as for `Hotkey.Switch`. A callable replacement goes through `_wrap_callback` too, as for `Hotkey.Update`.
- Hotstring.DecodeEncode: proved only for key-delay texts without upper-case letters. The decoder ends the delay at the next upper-case option letter. Every delay the library writes, including a float's repr, satisfies this.
- Hotstring.EncodeInjective: proved over the same key-delay texts as `Hotstring.DecodeEncode`.
- Window.DecodeWinTitleInclude: proved only for `Readable` criteria, because the parts are joined with spaces and read back by splitting on spaces. In those criteria no field is None and no value contains a space. A title is also not empty and is not one of the `ahk_` tag words.
- Window.WinTitleInjective: proved over the same `Readable` criteria.
- Control.SplitJoinListItems: proved only for tables with at least one row and one cell per row, whose cells hold neither tab nor newline. The table holding a single empty cell is also excluded, because it is written as "", which reads back as no rows.
- Runner.ParseUnparse: proved only for expressible argument lists. These exclude help, a file named "-m", and a file named like -h or -q when no -q comes before it, because such a command line parses differently.

## Findings

| source | as written | input that shows it | evidently intended | confidence | as-written member | corrected member |
|---|---|---|---|---|---|---|
| src/ahkpy/colors.py:4 | `to_hex` writes each component in hex without zero padding | `to_hex(0, 0, 255)` is "00ff", which `to_tuple` rejects for its length | two digits per component, so `to_tuple(to_hex(c)) == c` for every color | not executed | Colors.RoundTripFailsForBlue | Colors.RoundTripPadded |
| src/ahkpy/timer.py:120-127 | `start(interval, priority, periodic)` passes only interval and priority on to `update`, so `periodic` is dropped (the same in ahkpy/timer.py:121-128) | `start(periodic=False)` on a periodic timer restarts it as periodic, with a positive interval | the flag is stored and the restart interval is negated for a one-shot timer, as the docstring says | not executed | Timers.StartIgnoresPeriodic | Timers.StartHonoursPeriodic |
| ahkpy/timer.py:153 | `update(func=f)` calls `self.cancel()`, which the class does not define | any `update(func=f)` raises AttributeError | `self.stop()`, as in the current `src/ahkpy/timer.py` | not executed | Timers.OlderReplaceFuncRaises | Timers.OlderReplaceFunc |
| ahkpy/flow.py:89-92 | `update(func=f)` calls `self.cancel()`, which the class does not define | any `update(func=f)` raises AttributeError | stop the wrapper and register the new callback | not executed | Flow.ReplaceFuncRaises | Flow.ReplaceFunc |
| ahkpy/flow.py:143-144 | `Countdown._update` negates the interval slot, which holds "" on a priority-only update | `update(priority=1)` on a live Countdown raises TypeError after the priority is stored | negate only a given interval, as the Timer sends "" for it | not executed | Flow.CountdownPriorityOnlyRaises | Flow.CountdownPriorityOnly |
