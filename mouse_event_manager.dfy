/**
  The event-interception core of MouseFix: a global event tap that sees every
  auxiliary mouse-button event, swallows presses of buttons number 3 and 4 (the
  fourth and fifth buttons, counted from zero) and sends Command+] or Command+[ to
  the frontmost application instead, re-enabling itself whenever the system turns it off.
 */
module MouseEvents {
  import opened Wrappers
  import opened Platform

  // ---------------------------------------------------------------------------
  // The event mask
  // ---------------------------------------------------------------------------

  /** The mask bit of the event kind with raw value `raw`. */
  function Bit(raw: nat): (m: EventMask)
    requires raw < 64
  {
    (1 as bv64) << raw
  }

  /** The mask handed to `CGEvent.tapCreate`: the other-mouse-down and other-mouse-up bits. */
  const OtherMouseMask: EventMask := Bit(OtherMouseDown.Raw()) | Bit(OtherMouseUp.Raw())

  /** The tap `startMonitoring` asks for: at the HID level, ahead of the other taps there,
      and allowed to swallow the events whose callback returns nothing. */
  const MonitoringTap := TapConfig(HidEventTap, HeadInsertEventTap, DefaultTap)

  /** Whether `mask` asks for events of kind `t`. */
  predicate Selects(mask: EventMask, t: EventType) {
    t.Raw() < 64 && mask & Bit(t.Raw()) != 0
  }

  /** The tap asks for exactly the auxiliary-button press and release kinds. */
  lemma OtherMouseMaskSelectsExactly(t: EventType)
    ensures Selects(OtherMouseMask, t) <==> t == OtherMouseDown || t == OtherMouseUp
  {
    assert OtherMouseMask == 0x600_0000;
  }

  // ---------------------------------------------------------------------------
  // The remapping decision
  // ---------------------------------------------------------------------------

  /** A keyboard shortcut to synthesize: a virtual key code and whether Command is held. */
  datatype Shortcut = Shortcut(keyCode: KeyCode, withCommand: bool)

  /** The remap rule: button number 3 (Forward) becomes Command+] (key code 0x1E),
      button number 4 (Back) becomes Command+[ (key code 0x21). */
  const RemapTable: map<Int64, Shortcut> := map[3 := Shortcut(0x1E, true), 4 := Shortcut(0x21, true)]

  /** What the tap callback does with one event: swallow it or pass it on, re-enable
      the tap or not, and which shortcut, if any, it synthesizes. */
  datatype Decision = Decision(consume: bool, reenableTap: bool, shortcut: Option<Shortcut>)

  /** The two kinds the system sends when it has switched the tap off. */
  predicate IsTapDisabled(t: EventType) {
    t == TapDisabledByTimeout || t == TapDisabledByUserInput
  }

  /** The decision `handleMouseEvent` makes for an event of kind `t` whose button-number
      field is `buttonNumber`: a tap-disabled notice re-enables the tap and passes; a
      press of a button in the remap table is swallowed and becomes its shortcut;
      everything else passes untouched. */
  function Classify(t: EventType, buttonNumber: Int64): (d: Decision)
    ensures d.reenableTap <==> IsTapDisabled(t)
    ensures d.consume <==> d.shortcut.Some?
    ensures d.shortcut.Some? <==> t == OtherMouseDown && buttonNumber in RemapTable
    ensures d.shortcut.Some? ==> d.shortcut.value == RemapTable[buttonNumber]
  {
    if IsTapDisabled(t) then
      Decision(false, true, None)
    else if t != OtherMouseDown then
      Decision(false, false, None)
    else if buttonNumber == 3 then
      Decision(true, false, Some(Shortcut(0x1E, true)))
    else if buttonNumber == 4 then
      Decision(true, false, Some(Shortcut(0x21, true)))
    else
      Decision(false, false, None)
  }

  /** The table itself: exactly two buttons are remapped, both with Command. */
  lemma RemapTableHasTwoCommandShortcuts()
    ensures RemapTable.Keys == {3, 4}
    ensures forall b | b in RemapTable :: RemapTable[b].withCommand
    ensures RemapTable[3].keyCode == 0x1E && RemapTable[4].keyCode == 0x21
  {
  }

  // ---------------------------------------------------------------------------
  // Shortcut synthesis
  // ---------------------------------------------------------------------------

  predicate IsKeyDownPost(c: Call) {
    c.Posted? && c.event.keyDown
  }

  predicate IsKeyUpPost(c: Call) {
    c.Posted? && !c.event.keyDown
  }

  /** The key events `sendKeyboardShortcut` posts when the system answers as `world` does:
      none without a frontmost application; otherwise the key-down, then the key-up, of
      those the system agrees to build, all to that application, all with the flags set
      to Command when the shortcut asks for it (and left as built otherwise). */
  function Synthesis(world: World, s: Shortcut): (calls: seq<Call>)
    ensures world.frontmost.None? ==> calls == []
    ensures world.frontmost.Some? ==>
      |calls| == (if world.keyDownCreationFails then 0 else 1) + (if world.keyUpCreationFails then 0 else 1)
    ensures forall i | 0 <= i < |calls| ::
      && calls[i].Posted?
      && world.frontmost == Some(calls[i].pid)
      && calls[i].event.keyCode == s.keyCode
      && calls[i].event.flags == (if s.withCommand then MaskCommand else world.sourceFlags)
      && (if calls[i].event.keyDown then !world.keyDownCreationFails else !world.keyUpCreationFails)
    ensures forall i, j | 0 <= i < j < |calls| ::
      calls[i].Posted? && calls[j].Posted? && calls[i].event.keyDown && !calls[j].event.keyDown
  {
    match world.frontmost
    case None => []
    case Some(pid) =>
      var flags := if s.withCommand then MaskCommand else world.sourceFlags;
      var down := Posted(KeyEvent(s.keyCode, true, flags), pid);
      var up := Posted(KeyEvent(s.keyCode, false, flags), pid);
      match (world.keyDownCreationFails, world.keyUpCreationFails)
      case (false, false) => [down, up]
      case (false, true) => [down]
      case (true, false) => [up]
      case (true, true) => []
  }

  /** With a frontmost application and both events built, exactly one press-and-release
      pair is posted; when only the key-up cannot be built, a key-down goes out alone, and
      when only the key-down cannot be built, a key-up goes out alone. */
  lemma SynthesisShapes(world: World, s: Shortcut)
    requires world.frontmost.Some?
    ensures !world.keyDownCreationFails && !world.keyUpCreationFails ==>
      |Synthesis(world, s)| == 2 && IsKeyDownPost(Synthesis(world, s)[0]) && IsKeyUpPost(Synthesis(world, s)[1])
    ensures !world.keyDownCreationFails && world.keyUpCreationFails ==>
      |Synthesis(world, s)| == 1 && IsKeyDownPost(Synthesis(world, s)[0])
    ensures world.keyDownCreationFails && !world.keyUpCreationFails ==>
      |Synthesis(world, s)| == 1 && IsKeyUpPost(Synthesis(world, s)[0])
  {
  }

  /** A press of a remapped button is swallowed, and with a frontmost application and
      both events built it becomes exactly one press and then one release of the mapped
      key, both carrying Command, both sent to that application. */
  lemma RemappedPressBecomesShortcut(world: World, buttonNumber: Int64)
    requires buttonNumber in RemapTable
    requires world.frontmost.Some? && !world.keyDownCreationFails && !world.keyUpCreationFails
    ensures Classify(OtherMouseDown, buttonNumber).consume
    ensures Classify(OtherMouseDown, buttonNumber).shortcut.Some?
    ensures var key := RemapTable[buttonNumber].keyCode;
      Synthesis(world, Classify(OtherMouseDown, buttonNumber).shortcut.value) ==
        [Posted(KeyEvent(key, true, MaskCommand), world.frontmost.value),
         Posted(KeyEvent(key, false, MaskCommand), world.frontmost.value)]
  {
  }

  // ---------------------------------------------------------------------------
  // Teardown
  // ---------------------------------------------------------------------------

  /** The calls `stopMonitoring` makes for the stored tap and source: the tap is disabled
      before the source is taken off the run loop, nothing happens for an absent one, and
      with neither stored there is no call at all. */
  function StopCalls(tap: Option<Tap>, source: Option<RunLoopSource>): (calls: seq<Call>)
    ensures calls == [] <==> tap.None? && source.None?
    ensures |calls| == |Elements(tap)| + |Elements(source)|
    ensures forall c | c in calls ::
      (c.TapEnableSet? && !c.enable && tap == Some(c.tap)) || (c.SourceRemoved? && source == Some(c.source))
    ensures tap.Some? ==> TapEnableSet(tap.value, false) in calls
    ensures source.Some? ==> SourceRemoved(source.value) in calls
    ensures forall i, j | 0 <= i < |calls| && 0 <= j < |calls| && calls[i].SourceRemoved? && calls[j].TapEnableSet? :: j < i
  {
    (if tap.Some? then [TapEnableSet(tap.value, false)] else []) +
    (if source.Some? then [SourceRemoved(source.value)] else [])
  }

  // ---------------------------------------------------------------------------
  // The manager
  // ---------------------------------------------------------------------------

  /** `MouseEventManager`: owns the event tap and its run-loop source. The callback's
      opaque user-data pointer is the plain reference the methods are called on. */
  class MouseEventManager {
    const os: Os
    var eventTap: Option<Tap>
    var runLoopSource: Option<RunLoopSource>

    /** A stored tap always comes with its own run-loop source, attached to the run loop. */
    ghost predicate Valid()
      reads this, os
    {
      match eventTap
      case None => runLoopSource.None?
      case Some(tap) => runLoopSource == Some(RunLoopSource(tap)) && RunLoopSource(tap) in os.state.attached
    }

    constructor (os: Os)
      ensures this.os == os && eventTap == None && runLoopSource == None && Valid()
    {
      this.os := os;
      eventTap := None;
      runLoopSource := None;
    }

    /** What `startMonitoring` leaves behind, `ok` being its result: it succeeds exactly
        when the process is trusted and the system builds the tap; then it stores the new
        tap and its source, attaches the source and enables the tap, in that order. On
        failure the stored tap and source are untouched, and the only call made is the
        refused creation (none at all when the process is not trusted). */
    twostate predicate StartedWith(ok: bool)
      reads this, os
    {
      var w := old(os.world);
      var tap := Tap(old(os.state.nextTap));
      && ok == (w.trusted && !w.tapCreationFails)
      && os.world == w
      && (ok ==>
           && eventTap == Some(tap)
           && runLoopSource == Some(RunLoopSource(tap))
           && os.state == old(os.state).(nextTap := tap.id + 1,
                                         attached := old(os.state.attached) + {RunLoopSource(tap)},
                                         enabled := old(os.state.enabled) + {tap})
           && os.log == old(os.log) + [TapCreated(MonitoringTap, OtherMouseMask, Some(tap)), SourceAdded(RunLoopSource(tap)),
                                       TapEnableSet(tap, true)])
      && (!ok ==>
           && eventTap == old(eventTap)
           && runLoopSource == old(runLoopSource)
           && os.state == old(os.state)
           && os.log == old(os.log) + (if w.trusted then [TapCreated(MonitoringTap, OtherMouseMask, None)] else []))
    }

    /** `startMonitoring`. There is no guard against a second start: it builds a second tap. */
    method StartMonitoring() returns (ok: bool)
      requires Valid()
      modifies this, os
      ensures Valid() && StartedWith(ok)
    {
      var trusted := os.IsProcessTrusted();
      if !trusted {
        return false;
      }
      var tap := os.TapCreate(MonitoringTap, OtherMouseMask);
      if tap.None? {
        return false;
      }
      eventTap := tap;
      var source := os.CreateRunLoopSource(tap.value);
      runLoopSource := Some(source);
      os.AddSource(source);
      os.TapEnable(tap.value, true);
      return true;
    }

    /** `stopMonitoring` (also what `deinit` does): disables the stored tap, removes the
        stored source from the run loop, then forgets both. */
    method StopMonitoring()
      modifies this, os
      ensures Valid() && eventTap == None && runLoopSource == None
      ensures os.world == old(os.world)
      ensures os.log == old(os.log) + StopCalls(old(eventTap), old(runLoopSource))
      ensures os.state == old(os.state).(enabled := old(os.state.enabled) - Elements(old(eventTap)),
                                         attached := old(os.state.attached) - Elements(old(runLoopSource)))
    {
      if eventTap.Some? {
        os.TapEnable(eventTap.value, false);
      }
      if runLoopSource.Some? {
        os.RemoveSource(runLoopSource.value);
      }
      eventTap := None;
      runLoopSource := None;
    }

    /** `handleMouseEvent`, the tap callback: acts out `Classify` and returns the original
        event to pass it on, or nothing to swallow it. */
    method HandleMouseEvent(kind: EventType, event: MouseEvent) returns (result: Option<MouseEvent>)
      modifies os
      ensures var d := Classify(kind, event.buttonNumber);
        && result == (if d.consume then None else Some(event))
        && os.world == old(os.world)
        && os.log == old(os.log)
                     + (if d.reenableTap && eventTap.Some? then [TapEnableSet(eventTap.value, true)] else [])
                     + (if d.shortcut.Some? then Synthesis(old(os.world), d.shortcut.value) else [])
        && os.state == if d.reenableTap && eventTap.Some?
                       then old(os.state).(enabled := old(os.state.enabled) + {eventTap.value})
                       else old(os.state)
      ensures old(Valid()) ==> Valid()
    {
      if IsTapDisabled(kind) {
        if eventTap.Some? {
          os.TapEnable(eventTap.value, true);
        }
        return Some(event);
      }
      if kind != OtherMouseDown {
        return Some(event);
      }
      var buttonNumber := event.buttonNumber;
      if buttonNumber == 3 {
        SendKeyboardShortcut(0x1E, true);
        return None;
      } else if buttonNumber == 4 {
        SendKeyboardShortcut(0x21, true);
        return None;
      }
      return Some(event);
    }

    /** `sendKeyboardShortcut`: posts `Synthesis` of the shortcut, to the application that
        is frontmost when it runs. The 10 ms pause between the two events is not modelled. */
    method SendKeyboardShortcut(keyCode: KeyCode, withCommand: bool)
      modifies os
      ensures os.world == old(os.world) && os.state == old(os.state)
      ensures os.log == old(os.log) + Synthesis(old(os.world), Shortcut(keyCode, withCommand))
    {
      var frontApp := os.FrontmostApplication();
      if frontApp.None? {
        return;
      }
      var pid := frontApp.value;
      var keyDown := os.CreateKeyboardEvent(keyCode, true);
      if keyDown.Some? {
        var event := keyDown.value;
        if withCommand {
          event := event.(flags := MaskCommand);
        }
        os.PostToPid(event, pid);
      }
      var keyUp := os.CreateKeyboardEvent(keyCode, false);
      if keyUp.Some? {
        var event := keyUp.value;
        if withCommand {
          event := event.(flags := MaskCommand);
        }
        os.PostToPid(event, pid);
      }
    }
  }

  // ---------------------------------------------------------------------------
  // Whole runs
  // ---------------------------------------------------------------------------

  /** Any running manager, after the system switches its tap off: the tap-disabled notice
      (of either kind) re-enables the tap and is passed on unchanged, and a following press
      of a remapped button is still swallowed and becomes that button's shortcut, posted as
      `Synthesis` says for the system's current answers. */
  method DisablementRecovery(manager: MouseEventManager, kind: EventType, notice: MouseEvent, press: MouseEvent)
    returns (passed: Option<MouseEvent>, reenabled: bool, swallowed: Option<MouseEvent>)
    requires manager.Valid() && manager.eventTap.Some?
    requires IsTapDisabled(kind) && press.buttonNumber in RemapTable
    modifies manager.os
    ensures passed == Some(notice) && reenabled && swallowed == None
    ensures manager.Valid() && manager.eventTap.value in manager.os.state.enabled
    ensures manager.os.log == old(manager.os.log) + [TapEnableSet(manager.eventTap.value, true)]
                              + Synthesis(old(manager.os.world), RemapTable[press.buttonNumber])
  {
    var os := manager.os;
    var tap := manager.eventTap.value;
    os.DisableTapBySystem(tap);
    passed := manager.HandleMouseEvent(kind, notice);
    reenabled := tap in os.state.enabled;
    swallowed := manager.HandleMouseEvent(OtherMouseDown, press);
  }

  /** Stopping twice, from any state: the first stop makes the `StopCalls` of what is
      stored; the second finds nothing stored, makes no call and changes nothing. */
  method StopTwice(m: MouseEventManager) returns (first: seq<Call>, second: seq<Call>, between: OsState)
    modifies m, m.os
    ensures first == StopCalls(old(m.eventTap), old(m.runLoopSource))
    ensures second == [] && m.os.state == between
    ensures m.eventTap == None && m.runLoopSource == None
  {
    var mark := |m.os.log|;
    m.StopMonitoring();
    first := m.os.log[mark..];
    between := m.os.state;
    mark := |m.os.log|;
    m.StopMonitoring();
    second := m.os.log[mark..];
  }

  /** Starting twice, for any manager whose process is trusted and whose taps the system
      builds: the second start builds a different tap, and the first tap stays enabled and
      its source attached to the run loop although the manager no longer holds them. */
  method StartTwice(m: MouseEventManager) returns (first: Tap, second: Tap)
    requires m.Valid() && m.os.world.trusted && !m.os.world.tapCreationFails
    modifies m, m.os
    ensures first != second && m.eventTap == Some(second)
    ensures RunLoopSource(first) in m.os.state.attached && first in m.os.state.enabled
  {
    var ok := m.StartMonitoring();
    first := m.eventTap.value;
    ok := m.StartMonitoring();
    second := m.eventTap.value;
  }
}
