/**
  The application delegate of MouseFix: it keeps a stored copy of the accessibility
  permission and follows the system's answer with a five-second timer, starts the
  mouse monitoring only when that copy says the permission is held, and turns the
  "launch at login" menu item on or off when the login-item script succeeds.
 */
module AppDelegateModel {
  import opened Wrappers
  import opened Platform
  import opened MouseEvents

  // ---------------------------------------------------------------------------
  // Permission tracking
  // ---------------------------------------------------------------------------

  /** The stored permission after one timer tick, and whether the tick shows the
      "permission granted" notification. */
  datatype TickResult = TickResult(stored: bool, notify: bool)

  /** One tick of the permission timer, with `stored` the stored permission and
      `current` the trust query's answer: afterwards the stored value is the answer,
      and the notification is shown exactly on a change from false to true. */
  function Tick(stored: bool, current: bool): (r: TickResult)
    ensures r.stored == current
    ensures r.notify <==> !stored && current
  {
    if !stored && current then TickResult(true, true)
    else if stored && !current then TickResult(false, false)
    else TickResult(stored, false)
  }

  /** The stored permission after a run of ticks, and how many notifications they showed. */
  datatype TickRun = TickRun(stored: bool, notifications: nat)

  function RunTicks(stored: bool, answers: seq<bool>): (r: TickRun)
    decreases |answers|
  {
    if answers == [] then TickRun(stored, 0)
    else
      var t := Tick(stored, answers[0]);
      var rest := RunTicks(t.stored, answers[1..]);
      TickRun(rest.stored, rest.notifications + if t.notify then 1 else 0)
  }

  /** The number of steps from false to true in `s`. */
  function RisingEdges(s: seq<bool>): (n: nat)
    decreases |s|
  {
    if |s| < 2 then 0
    else RisingEdges(s[..|s| - 1]) + (if !s[|s| - 2] && s[|s| - 1] then 1 else 0)
  }

  /** Counting the steps of `[b] + s` from its front. */
  lemma {:induction false} RisingEdgesCons(b: bool, s: seq<bool>)
    requires |s| > 0
    ensures RisingEdges([b] + s) == (if !b && s[0] then 1 else 0) + RisingEdges(s)
    decreases |s|
  {
    var t := [b] + s;
    if |s| == 1 {
      assert t[..|t| - 1] == [b];
    } else {
      assert t[..|t| - 1] == [b] + s[..|s| - 1];
      RisingEdgesCons(b, s[..|s| - 1]);
    }
  }

  /** Over any run of ticks the stored permission ends equal to the last answer, and
      the notification is shown once per change from false to true, counting the
      change from the value stored before the run. */
  lemma {:induction false} RunTicksFollowsAnswers(stored: bool, answers: seq<bool>)
    ensures RunTicks(stored, answers).stored == if answers == [] then stored else answers[|answers| - 1]
    ensures RunTicks(stored, answers).notifications == RisingEdges([stored] + answers)
    decreases |answers|
  {
    if answers != [] {
      RunTicksFollowsAnswers(answers[0], answers[1..]);
      assert [answers[0]] + answers[1..] == answers;
      RisingEdgesCons(stored, answers);
    }
  }

  // ---------------------------------------------------------------------------
  // The auto-launch toggle
  // ---------------------------------------------------------------------------

  /** `NSControl.StateValue`. */
  datatype ControlState = On | Off | Mixed

  /** The menu item's state after `toggleAutoLaunch`, `succeeded` being the outcome of
      the login-item script it ran: the state changes exactly when the script succeeds,
      and then an item that was on goes off and any other goes on. */
  function ToggledState(state: ControlState, succeeded: bool): (r: ControlState)
    ensures r != state <==> succeeded
    ensures succeeded ==> r != Mixed && (r == Off <==> state == On)
  {
    if state == On then (if succeeded then Off else On)
    else (if succeeded then On else state)
  }

  /** An `NSMenuItem`, reduced to its state. */
  class MenuItem {
    var state: ControlState

    constructor (state: ControlState)
      ensures this.state == state
    {
      this.state := state;
    }
  }

  /** The dialogs the delegate shows. */
  datatype Alert = AccessibilityRequired | PermissionGranted | DisableAutoLaunchFailed | EnableAutoLaunchFailed

  // ---------------------------------------------------------------------------
  // The delegate
  // ---------------------------------------------------------------------------

  /** The repeat interval of the permission timer, in milliseconds. */
  const PermissionCheckIntervalMs: nat := 5000

  class AppDelegate {
    const os: Os
    const mouseEventManager: MouseEventManager
    var permissionCheckTimer: Option<Timer>
    var hasAccessibilityPermission: bool
    var alerts: seq<Alert>

    ghost predicate Valid()
      reads this, mouseEventManager, os
    {
      mouseEventManager.os == os && mouseEventManager.Valid()
    }

    constructor (manager: MouseEventManager)
      requires manager.Valid()
      ensures Valid() && mouseEventManager == manager && os == manager.os
      ensures permissionCheckTimer == None && !hasAccessibilityPermission && alerts == []
    {
      mouseEventManager := manager;
      os := manager.os;
      permissionCheckTimer := None;
      hasAccessibilityPermission := false;
      alerts := [];
    }

    /** `applicationDidFinishLaunching`: stores the prompting trust query's answer, asks for
        access when it is missing, starts the monitoring if the answer allows it and starts
        the permission timer. The menu bar it also builds is not modelled. */
    method ApplicationDidFinishLaunching()
      requires Valid()
      modifies this, mouseEventManager, os
      ensures Valid() && os.world == old(os.world)
      ensures hasAccessibilityPermission == os.world.trusted
      ensures alerts == old(alerts) + (if os.world.trusted then [] else [AccessibilityRequired])
      ensures permissionCheckTimer == Some(Timer(old(os.state.nextTimer)))
      ensures os.state.timers == old(os.state.timers) + {permissionCheckTimer.value}
      ensures mouseEventManager.eventTap ==
        if os.world.trusted && !os.world.tapCreationFails then Some(Tap(old(os.state.nextTap)))
        else old(mouseEventManager.eventTap)
    ensures os.world.trusted && !os.world.tapCreationFails ==> mouseEventManager.eventTap.value in os.state.enabled
    {
      hasAccessibilityPermission := CheckAccessibilityPermissions();
      if !hasAccessibilityPermission {
        ShowAccessibilityAlert();
      }
      StartMouseMonitoring();
      StartPermissionMonitoring();
    }

    /** `startPermissionMonitoring`: schedules the repeating five-second timer whose ticks
        are `PermissionTimerFired`. A timer already stored is not invalidated first. */
    method StartPermissionMonitoring()
      modifies this, os
      ensures permissionCheckTimer == Some(Timer(old(os.state.nextTimer)))
      ensures os.world == old(os.world)
      ensures os.state == old(os.state).(nextTimer := old(os.state.nextTimer) + 1,
                                         timers := old(os.state.timers) + {permissionCheckTimer.value})
      ensures os.log == old(os.log) + [TimerScheduled(permissionCheckTimer.value, PermissionCheckIntervalMs, true)]
      ensures hasAccessibilityPermission == old(hasAccessibilityPermission) && alerts == old(alerts)
    {
      var timer := os.ScheduledTimer(PermissionCheckIntervalMs, true);
      permissionCheckTimer := Some(timer);
    }

    /** The body of the permission timer: one `Tick` of the stored permission against
        `AXIsProcessTrusted()`, showing the granted notification when it says so. A
        revocation is only recorded; it does not stop the monitoring. */
    method PermissionTimerFired()
      modifies this
      ensures var t := Tick(old(hasAccessibilityPermission), os.world.trusted);
        && hasAccessibilityPermission == t.stored
        && alerts == old(alerts) + (if t.notify then [PermissionGranted] else [])
      ensures permissionCheckTimer == old(permissionCheckTimer)
    {
      var currentPermission := os.IsProcessTrusted();
      if !hasAccessibilityPermission && currentPermission {
        hasAccessibilityPermission := true;
        ShowPermissionGrantedNotification();
      } else if hasAccessibilityPermission && !currentPermission {
        hasAccessibilityPermission := false;
      }
    }

    /** `showPermissionGrantedNotification`; its restart button is not modelled. */
    method ShowPermissionGrantedNotification()
      modifies this
      ensures alerts == old(alerts) + [PermissionGranted]
      ensures hasAccessibilityPermission == old(hasAccessibilityPermission)
      ensures permissionCheckTimer == old(permissionCheckTimer)
    {
      alerts := alerts + [PermissionGranted];
    }

    /** `checkAccessibilityPermissions`: the trust query that may bring up the system prompt. */
    method CheckAccessibilityPermissions() returns (trusted: bool)
      modifies os
      ensures trusted == os.world.trusted
      ensures os.world == old(os.world) && os.state == old(os.state) && os.log == old(os.log) + [TrustCheckedWithPrompt]
    {
      trusted := os.IsProcessTrustedWithPrompt();
    }

    /** `showAccessibilityAlert`; its button that opens System Settings is not modelled. */
    method ShowAccessibilityAlert()
      modifies this
      ensures alerts == old(alerts) + [AccessibilityRequired]
      ensures hasAccessibilityPermission == old(hasAccessibilityPermission)
      ensures permissionCheckTimer == old(permissionCheckTimer)
    {
      alerts := alerts + [AccessibilityRequired];
    }

    /** `startMouseMonitoring`: calls `startMonitoring` exactly when the stored permission
        is true, and otherwise touches neither the manager nor the system. */
    method StartMouseMonitoring()
      requires Valid()
      modifies mouseEventManager, os
      ensures Valid()
      ensures hasAccessibilityPermission ==>
        mouseEventManager.StartedWith(old(os.world.trusted) && !old(os.world.tapCreationFails))
      ensures !hasAccessibilityPermission ==> unchanged(mouseEventManager, os)
    {
      if hasAccessibilityPermission {
        var success := mouseEventManager.StartMonitoring();
      }
    }

    /** `isAutoLaunchEnabled`, which seeds the menu item's state: the login item is listed,
        and false when the listing script fails. */
    method IsAutoLaunchEnabled() returns (enabled: bool)
      ensures enabled <==> ListItemsScript !in os.world.failingScripts && os.state.loginItem
    {
      var listed := os.ListLoginItems();
      enabled := listed.Some? && listed.value;
    }

    /** `enableAutoLaunch`: runs the script that adds the login item. */
    method EnableAutoLaunch() returns (succeeded: bool)
      modifies os
      ensures succeeded == (MakeItemScript !in old(os.world.failingScripts))
      ensures os.world == old(os.world) && os.log == old(os.log) + [ScriptRun(MakeItemScript, succeeded)]
      ensures os.state == old(os.state).(loginItem := succeeded || old(os.state.loginItem))
    {
      succeeded := os.ExecuteAppleScript(MakeItemScript);
    }

    /** `disableAutoLaunch`: runs the script that deletes the login item. */
    method DisableAutoLaunch() returns (succeeded: bool)
      modifies os
      ensures succeeded == (DeleteItemScript !in old(os.world.failingScripts))
      ensures os.world == old(os.world) && os.log == old(os.log) + [ScriptRun(DeleteItemScript, succeeded)]
      ensures os.state == old(os.state).(loginItem := !succeeded && old(os.state.loginItem))
    {
      succeeded := os.ExecuteAppleScript(DeleteItemScript);
    }

    /** `toggleAutoLaunch`: an item that is on runs the delete script, any other the add
        script; the item's state becomes `ToggledState` of the script's outcome, and a
        failure shows an error instead. */
    method ToggleAutoLaunch(sender: MenuItem)
      modifies sender, this, os
      ensures var removing := old(sender.state) == On;
              var succeeded := (if removing then DeleteItemScript else MakeItemScript) !in os.world.failingScripts;
        && sender.state == ToggledState(old(sender.state), succeeded)
        && alerts == old(alerts) + (if succeeded then [] else if removing then [DisableAutoLaunchFailed] else [EnableAutoLaunchFailed])
        && os.log == old(os.log) + [ScriptRun(if removing then DeleteItemScript else MakeItemScript, succeeded)]
        && os.state == old(os.state).(loginItem := if succeeded then !removing else old(os.state.loginItem))
      ensures os.world == old(os.world)
      ensures hasAccessibilityPermission == old(hasAccessibilityPermission)
      ensures permissionCheckTimer == old(permissionCheckTimer)
    {
      if sender.state == On {
        var succeeded := DisableAutoLaunch();
        if succeeded {
          sender.state := Off;
        } else {
          alerts := alerts + [DisableAutoLaunchFailed];
        }
      } else {
        var succeeded := EnableAutoLaunch();
        if succeeded {
          sender.state := On;
        } else {
          alerts := alerts + [EnableAutoLaunchFailed];
        }
      }
    }

    /** `applicationWillTerminate`: invalidates the permission timer and forgets it. */
    method ApplicationWillTerminate()
      modifies this, os
      ensures permissionCheckTimer == None
      ensures os.world == old(os.world)
      ensures os.state == old(os.state).(timers := old(os.state.timers) - Elements(old(permissionCheckTimer)))
      ensures os.log == old(os.log) +
        (if old(permissionCheckTimer).Some? then [TimerInvalidated(old(permissionCheckTimer).value)] else [])
      ensures hasAccessibilityPermission == old(hasAccessibilityPermission) && alerts == old(alerts)
    {
      if permissionCheckTimer.Some? {
        os.Invalidate(permissionCheckTimer.value);
      }
      permissionCheckTimer := None;
    }
  }

  // ---------------------------------------------------------------------------
  // Whole runs
  // ---------------------------------------------------------------------------

  /** Launching without access, then being granted it, whatever else the system answers:
      the launch asks for access and does not start the tap; the tick after the grant shows
      the granted notification once, later ticks show nothing more, and the tap stays
      unstarted until a relaunch. */
  method LateGrant(w: World) returns (alerts: seq<Alert>, stored: bool, monitoring: bool)
    requires !w.trusted
    ensures alerts == [AccessibilityRequired, PermissionGranted]
    ensures stored && !monitoring
  {
    var os := new Os(w);
    var manager := new MouseEventManager(os);
    var app := new AppDelegate(manager);
    app.ApplicationDidFinishLaunching();
    app.PermissionTimerFired();
    os.ChangeWorld(w.(trusted := true));
    app.PermissionTimerFired();
    app.PermissionTimerFired();
    alerts := app.alerts;
    stored := app.hasAccessibilityPermission;
    monitoring := manager.eventTap.Some?;
  }

  /** Termination after launch leaves no permission timer scheduled, whatever the system answers. */
  method LaunchThenTerminate(w: World) returns (timer: Option<Timer>, scheduled: set<Timer>)
    ensures timer == None && scheduled == {}
  {
    var os := new Os(w);
    var manager := new MouseEventManager(os);
    var app := new AppDelegate(manager);
    app.ApplicationDidFinishLaunching();
    app.ApplicationWillTerminate();
    timer := app.permissionCheckTimer;
    scheduled := os.state.timers;
  }
}
