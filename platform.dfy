/**
  The operating-system boundary of MouseFix, as an abstract capability.

  Everything the program asks of macOS (the accessibility trust query, event-tap
  creation and enabling, run-loop attachment, the frontmost application, the creation
  and posting of keyboard events, timers and AppleScript) is a method of class `Os`.
  Its answers come from `world`, a value that stands for whatever the system happens
  to say, so every property proved against it holds for every possible answer.
  What the program does to the system is recorded, in order, in `log`.
 */
module Platform {
  import opened Wrappers

  /** `pid_t`. */
  newtype Int32 = x: int | -0x8000_0000 <= x < 0x8000_0000
  type Pid = Int32

  /** `CGKeyCode`, an unsigned 16-bit virtual key code. */
  newtype KeyCode = x: int | 0 <= x < 0x1_0000

  /** The type of `CGEvent.getIntegerValueField`. */
  newtype Int64 = x: int | -0x8000_0000_0000_0000 <= x < 0x8000_0000_0000_0000

  /** `CGEventFlags` and `CGEventMask`, both 64-bit words. */
  type Flags = bv64
  type EventMask = bv64

  /** `CGEventFlags.maskCommand`. */
  const MaskCommand: Flags := 0x10_0000

  /** The kinds of `CGEventType`, with their raw values. */
  datatype EventType =
    | Null | LeftMouseDown | LeftMouseUp | RightMouseDown | RightMouseUp | MouseMoved
    | LeftMouseDragged | RightMouseDragged | KeyDown | KeyUp | FlagsChanged
    | ScrollWheel | TabletPointer | TabletProximity
    | OtherMouseDown | OtherMouseUp | OtherMouseDragged
    | TapDisabledByTimeout | TapDisabledByUserInput
  {
    function Raw(): nat {
      match this
      case Null => 0
      case LeftMouseDown => 1
      case LeftMouseUp => 2
      case RightMouseDown => 3
      case RightMouseUp => 4
      case MouseMoved => 5
      case LeftMouseDragged => 6
      case RightMouseDragged => 7
      case KeyDown => 10
      case KeyUp => 11
      case FlagsChanged => 12
      case ScrollWheel => 22
      case TabletPointer => 23
      case TabletProximity => 24
      case OtherMouseDown => 25
      case OtherMouseUp => 26
      case OtherMouseDragged => 27
      case TapDisabledByTimeout => 0xFFFF_FFFE
      case TapDisabledByUserInput => 0xFFFF_FFFF
    }
  }

  /** A mouse event as the tap callback sees it: its button-number field and its flags. */
  datatype MouseEvent = MouseEvent(buttonNumber: Int64, flags: Flags)

  /** A keyboard event built by `CGEvent(keyboardEventSource:virtualKey:keyDown:)`. */
  datatype KeyEvent = KeyEvent(keyCode: KeyCode, keyDown: bool, flags: Flags)

  /** Handles the system gives out: an event tap (`CFMachPort`), its run-loop source, a timer. */
  datatype Tap = Tap(id: nat)
  datatype RunLoopSource = RunLoopSource(tap: Tap)
  datatype Timer = Timer(id: nat)

  /** Where a tap is installed (`CGEventTapLocation`), where among the taps there it goes
      (`CGEventTapPlacement`) and whether it may change or drop events (`CGEventTapOptions`):
      only a `DefaultTap` swallows an event whose callback returns nothing. */
  datatype TapLocation = HidEventTap | SessionEventTap | AnnotatedSessionEventTap
  datatype TapPlacement = HeadInsertEventTap | TailAppendEventTap
  datatype TapOptions = DefaultTap | ListenOnly
  datatype TapConfig = TapConfig(location: TapLocation, place: TapPlacement, options: TapOptions)

  /** The AppleScript programs the application runs against System Events. */
  datatype Script = ListItemsScript | MakeItemScript | DeleteItemScript

  /** One effect on the system, in the order the program causes them. */
  datatype Call =
    | TapCreated(config: TapConfig, mask: EventMask, result: Option<Tap>)
    | TapEnableSet(tap: Tap, enable: bool)
    | SourceAdded(source: RunLoopSource)
    | SourceRemoved(source: RunLoopSource)
    | Posted(event: KeyEvent, pid: Pid)
    | TrustCheckedWithPrompt
    | TimerScheduled(timer: Timer, intervalMs: nat, repeats: bool)
    | TimerInvalidated(timer: Timer)
    | ScriptRun(script: Script, succeeded: bool)

  /** What the system answers: the trust query, whether it refuses a tap, the frontmost
      application, whether it refuses to build the key-down or the key-up event, the
      flags an event built from the HID system state source starts with, and which
      AppleScript programs fail. */
  datatype World = World(
    trusted: bool,
    tapCreationFails: bool,
    frontmost: Option<Pid>,
    keyDownCreationFails: bool,
    keyUpCreationFails: bool,
    sourceFlags: Flags,
    failingScripts: set<Script>)

  /** What the program's calls have changed in the system. */
  datatype OsState = OsState(
    nextTap: nat,
    enabled: set<Tap>,
    attached: set<RunLoopSource>,
    nextTimer: nat,
    timers: set<Timer>,
    loginItem: bool)

  const InitialState := OsState(0, {}, {}, 0, {}, false)

  class Os {
    var world: World
    var state: OsState
    var log: seq<Call>

    constructor (world: World)
      ensures this.world == world && state == InitialState && log == []
    {
      this.world := world;
      state := InitialState;
      log := [];
    }

    /** `AXIsProcessTrusted()`. */
    method IsProcessTrusted() returns (trusted: bool)
      ensures trusted == world.trusted
    {
      trusted := world.trusted;
    }

    /** `AXIsProcessTrustedWithOptions` with the prompt option. The system shows its consent
        prompt only to a process that is not yet trusted; the log entry records the call,
        not whether a prompt was shown. */
    method IsProcessTrustedWithPrompt() returns (trusted: bool)
      modifies this
      ensures trusted == world.trusted
      ensures world == old(world) && state == old(state) && log == old(log) + [TrustCheckedWithPrompt]
    {
      trusted := world.trusted;
      log := log + [TrustCheckedWithPrompt];
    }

    /** `CGEvent.tapCreate`: a fresh tap, or nothing when the system refuses. */
    method TapCreate(config: TapConfig, mask: EventMask) returns (tap: Option<Tap>)
      modifies this
      ensures tap == if old(world).tapCreationFails then None else Some(Tap(old(state).nextTap))
      ensures world == old(world) && log == old(log) + [TapCreated(config, mask, tap)]
      ensures state == if tap.None? then old(state) else old(state).(nextTap := old(state).nextTap + 1)
    {
      if world.tapCreationFails {
        tap := None;
      } else {
        tap := Some(Tap(state.nextTap));
        state := state.(nextTap := state.nextTap + 1);
      }
      log := log + [TapCreated(config, mask, tap)];
    }

    /** `CFMachPortCreateRunLoopSource`. */
    method CreateRunLoopSource(tap: Tap) returns (source: RunLoopSource)
      ensures source.tap == tap
    {
      source := RunLoopSource(tap);
    }

    /** `CFRunLoopAddSource` on the current run loop, common modes. */
    method AddSource(source: RunLoopSource)
      modifies this
      ensures world == old(world) && log == old(log) + [SourceAdded(source)]
      ensures state == old(state).(attached := old(state).attached + {source})
    {
      state := state.(attached := state.attached + {source});
      log := log + [SourceAdded(source)];
    }

    /** `CFRunLoopRemoveSource` on the current run loop, common modes. */
    method RemoveSource(source: RunLoopSource)
      modifies this
      ensures world == old(world) && log == old(log) + [SourceRemoved(source)]
      ensures state == old(state).(attached := old(state).attached - {source})
    {
      state := state.(attached := state.attached - {source});
      log := log + [SourceRemoved(source)];
    }

    /** `CGEvent.tapEnable`. */
    method TapEnable(tap: Tap, enable: bool)
      modifies this
      ensures world == old(world) && log == old(log) + [TapEnableSet(tap, enable)]
      ensures state == old(state).(enabled := if enable then old(state).enabled + {tap}
                                              else old(state).enabled - {tap})
    {
      state := state.(enabled := if enable then state.enabled + {tap} else state.enabled - {tap});
      log := log + [TapEnableSet(tap, enable)];
    }

    /** The system's own watchdog (or the user) switching a tap off; the tap's callback
        then receives a tap-disabled event. */
    method DisableTapBySystem(tap: Tap)
      modifies this
      ensures world == old(world) && log == old(log)
      ensures state == old(state).(enabled := old(state).enabled - {tap})
    {
      state := state.(enabled := state.enabled - {tap});
    }

    /** The system's answers change: the user grants or revokes access, brings another
        application to the front, and so on. */
    method ChangeWorld(world: World)
      modifies this
      ensures this.world == world && state == old(state) && log == old(log)
    {
      this.world := world;
    }

    /** The process identifier of `NSWorkspace.shared.frontmostApplication`, if any. */
    method FrontmostApplication() returns (pid: Option<Pid>)
      ensures pid == world.frontmost
    {
      pid := world.frontmost;
    }

    /** `CGEvent(keyboardEventSource:virtualKey:keyDown:)` on the HID system state source. */
    method CreateKeyboardEvent(keyCode: KeyCode, keyDown: bool) returns (event: Option<KeyEvent>)
      ensures event == if (if keyDown then world.keyDownCreationFails else world.keyUpCreationFails)
                       then None else Some(KeyEvent(keyCode, keyDown, world.sourceFlags))
    {
      var fails := if keyDown then world.keyDownCreationFails else world.keyUpCreationFails;
      event := if fails then None else Some(KeyEvent(keyCode, keyDown, world.sourceFlags));
    }

    /** `CGEvent.postToPid`. */
    method PostToPid(event: KeyEvent, pid: Pid)
      modifies this
      ensures world == old(world) && state == old(state) && log == old(log) + [Posted(event, pid)]
    {
      log := log + [Posted(event, pid)];
    }

    /** `Timer.scheduledTimer(withTimeInterval:repeats:)`, the interval in milliseconds. */
    method ScheduledTimer(intervalMs: nat, repeats: bool) returns (timer: Timer)
      modifies this
      ensures timer == Timer(old(state).nextTimer)
      ensures world == old(world) && log == old(log) + [TimerScheduled(timer, intervalMs, repeats)]
      ensures state == old(state).(nextTimer := old(state).nextTimer + 1, timers := old(state).timers + {timer})
    {
      timer := Timer(state.nextTimer);
      state := state.(nextTimer := state.nextTimer + 1, timers := state.timers + {timer});
      log := log + [TimerScheduled(timer, intervalMs, repeats)];
    }

    /** `Timer.invalidate`. */
    method Invalidate(timer: Timer)
      modifies this
      ensures world == old(world) && log == old(log) + [TimerInvalidated(timer)]
      ensures state == old(state).(timers := old(state).timers - {timer})
    {
      state := state.(timers := state.timers - {timer});
      log := log + [TimerInvalidated(timer)];
    }

    /** Runs one of the login-item editing scripts; the login item exists afterwards exactly
        when an add succeeded, and is gone exactly when a delete succeeded. */
    method ExecuteAppleScript(script: Script) returns (succeeded: bool)
      modifies this
      ensures succeeded == (script !in old(world).failingScripts)
      ensures world == old(world) && log == old(log) + [ScriptRun(script, succeeded)]
      ensures state == old(state).(loginItem :=
        if succeeded && script == MakeItemScript then true
        else if succeeded && script == DeleteItemScript then false
        else old(state).loginItem)
    {
      succeeded := script !in world.failingScripts;
      if succeeded && script == MakeItemScript {
        state := state.(loginItem := true);
      } else if succeeded && script == DeleteItemScript {
        state := state.(loginItem := false);
      }
      log := log + [ScriptRun(script, succeeded)];
    }

    /** Runs the login-item listing script: whether the application's item is listed, or
        nothing when the script fails. */
    method ListLoginItems() returns (listed: Option<bool>)
      ensures listed == if ListItemsScript in world.failingScripts then None else Some(state.loginItem)
    {
      listed := if ListItemsScript in world.failingScripts then None else Some(state.loginItem);
    }
  }
}
