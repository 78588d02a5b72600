# MouseFix: the side-button remapper, modelled in Dafny

MouseFix is a macOS menu-bar application. It installs a global event tap that sees
every auxiliary mouse-button event. A press of button number 3 (the fourth button,
counted from zero, "Forward") or button number 4 ("Back") is swallowed. In its place
the application sends Command+] (virtual key 0x1E) or Command+[ (virtual key 0x21)
to the frontmost application. When the system switches the tap off, because the
tap's callback was too slow or because of user input, the tap turns itself back on.
The application delegate keeps a stored copy of the accessibility permission. A
five-second timer keeps that copy in line with the system's answer and shows a
notification when access is granted. Monitoring starts only when the copy says access
is held. A menu item toggles launch at login when the login-item script succeeds.

The project has four files:

- `wrappers.dfy` (`Wrappers`): `Option`, standing for Swift's optionals.
- `platform.dfy` (`Platform`): the operating system as an abstract capability, the
  class `Os`. Its `world` field holds the system's answers: whether the process is
  trusted, whether tap creation is refused, the frontmost application, whether each
  keyboard event can be built, the flags a freshly built event carries, and which
  AppleScript programs fail. Every proof holds for every such answer (`LateGrant`
  only for those in which access is missing at launch). Its `state`
  field holds what the program's calls changed: taps handed out, enabled taps,
  attached run-loop sources, scheduled timers, and the login item. Its `log` field
  records the program's effects on the system in order. Queries (trust, frontmost
  application, event creation, login-item listing) leave no entry. They read `world`;
  the login-item listing also reads `state.loginItem`.
  Effects (tap creation and enabling, source attachment and removal, posting,
  the trust check with the prompt option (logged as a call, whether or not the system
  shows its prompt), timers, the login-item edit scripts) append an entry.
- `mouse_event_manager.dfy` (`MouseEvents`): the event mask; the decision table of
  the tap callback (`Classify`) against the remap table; the posted key events of a
  synthesis (`Synthesis`); the teardown calls (`StopCalls`); and the class
  `MouseEventManager` with its `eventTap` and `runLoopSource` fields. Its methods are
  proved against those functions. Three whole-run methods, each for any manager that
  meets their preconditions, cover recovery from a disabled tap, a double stop and a
  double start.
- `app_delegate.dfy` (`AppDelegateModel`): the permission tick (`Tick`) and runs of
  ticks; the toggle's state function (`ToggledState`); and the class `AppDelegate`
  with `hasAccessibilityPermission`, `permissionCheckTimer` and the alerts it shows.

### Behaviour of the code worth knowing

- `startMonitoring` has no guard against a second start. A second start builds a
  second tap and overwrites the stored one. The first tap's source stays attached to
  the run loop (`MouseEvents.StartTwice`).
- `sendKeyboardShortcut` builds the key-down and the key-up separately and posts each
  one that the system agrees to build. When only the key-up cannot be built, a key-down
  goes out alone. When only the key-down cannot be built, a stray key-up goes out
  alone (`MouseEvents.SynthesisShapes`). Without a frontmost application nothing is posted.
- `startMonitoring` asks `AXIsProcessTrusted()` itself and returns `false` without any
  other system call when the process is not trusted. The test of the stored permission
  lives apart from it, in the delegate's `startMouseMonitoring`.
- The permission timer shows a notification only when access is granted. A revocation
  is only logged. Neither change starts or stops the monitoring: after a grant at run
  time the tap stays unstarted until the application is relaunched
  (`AppDelegateModel.LateGrant`).
- With `withCommand` false the key events keep the flags the event source built them
  with. They are not cleared. Every caller passes `true`.
- A menu item in the mixed state takes the "enable" branch of `toggleAutoLaunch`,
  because the code only tests for `.on`.

## Model

| member | source | states |
|---|---|---|
| `MouseEvents.OtherMouseMaskSelectsExactly` | MouseEventManager.swift:20-21 | the tap's event mask selects an event kind exactly when it is other-mouse-down or other-mouse-up |
| `MouseEvents.Classify` | MouseEventManager.swift:70-105 | a tap-disabled notice (timeout or user input) is recognised first, and it alone re-enables the tap; an event is swallowed exactly when a shortcut is requested; a shortcut is requested exactly for an other-mouse-down whose button number is in the remap table, and it is that button's entry; every other event passes through |
| `MouseEvents.RemapTableHasTwoCommandShortcuts` | MouseEventManager.swift:90-103 | exactly buttons 3 and 4 are remapped, to key codes 0x1E and 0x21, both with Command |
| `MouseEvents.RemappedPressBecomesShortcut` | MouseEventManager.swift:90-99 | a press of a remapped button is swallowed and, when both key events can be built, becomes one key-down then one key-up of the mapped key with Command, to the frontmost application |
| `MouseEvents.Synthesis` | MouseEventManager.swift:107-138 | no frontmost application means no posted event; otherwise one event per key event the system builds, each posted event being a key-down only if the key-down was built and a key-up only if the key-up was built, every one to the frontmost pid with the shortcut's key code, flags set to Command when asked (kept as built otherwise), and any key-down precedes any key-up |
| `MouseEvents.SynthesisShapes` | MouseEventManager.swift:118-135 | with both events built exactly a down-up pair is posted; when only the key-up fails a lone key-down is posted; when only the key-down fails a lone key-up is posted |
| `MouseEvents.StopCalls` | MouseEventManager.swift:55-66 | teardown disables the stored tap before it removes the stored source, makes exactly one call for each of them that is stored and no other call, and makes no call when nothing is stored |
| `MouseEvents.MouseEventManager.constructor` | MouseEventManager.swift:8-11 | a new manager holds no tap and no source |
| `MouseEvents.MouseEventManager.StartMonitoring` | MouseEventManager.swift:13-53 | returns true exactly when the process is trusted and the tap is built; if untrusted there is no call at all and nothing changes; if creation is refused, only the refused creation is logged and the stored fields are untouched; on success it stores the new tap and its source, attaches the source and enables the tap, in that order; the tap asked for is a default (event-swallowing) tap at the HID level, inserted at the head, with the mask of the two auxiliary-button kinds |
| `MouseEvents.MouseEventManager.StopMonitoring` | MouseEventManager.swift:55-68 | makes the `StopCalls` of the stored tap and source, then both fields are empty; the tap is no longer enabled, the source no longer attached, and nothing else in the system changes |
| `MouseEvents.MouseEventManager.HandleMouseEvent` | MouseEventManager.swift:70-105 | returns the original event unchanged or nothing, as `Classify` decides; re-enables the stored tap (if any) on a tap-disabled notice; posts `Synthesis` of the requested shortcut and nothing else |
| `MouseEvents.MouseEventManager.SendKeyboardShortcut` | MouseEventManager.swift:107-138 | the system receives exactly the posts of `Synthesis` for the current answers, and its state is untouched |
| `MouseEvents.DisablementRecovery` | MouseEventManager.swift:72-99 | for any running manager, after the system disables its tap, a tap-disabled notice of either kind re-enables it and is passed on unchanged, and a following press of a remapped button is still swallowed and becomes that button's shortcut, posted as `Synthesis` says; the manager stays valid |
| `MouseEvents.StopTwice` | MouseEventManager.swift:55-68 | for any manager, the first stop makes the `StopCalls` of what is stored (disable the tap, then detach its source); the second finds nothing stored, makes no call and leaves the system's state as the first left it |
| `MouseEvents.StartTwice` | MouseEventManager.swift:13-53 | for any valid manager whose process is trusted and whose taps the system builds, a second start creates a second, different tap and stores it, while the first tap stays enabled and its source stays attached |
| `AppDelegateModel.Tick` | AppDelegate.swift:34-45 | after one tick the stored permission equals the trust query's answer; the granted notification is shown exactly when the stored value was false and the answer is true |
| `AppDelegateModel.RunTicksFollowsAnswers` | AppDelegate.swift:31-46 | over any run of ticks the stored permission ends equal to the last answer, and the number of notifications equals the number of false-to-true changes, starting from the stored value |
| `AppDelegateModel.ToggledState` | AppDelegate.swift:150-168 | the item's state changes exactly when the script succeeds; on success an item that was on goes off and any other goes on |
| `AppDelegateModel.AppDelegate.constructor` | AppDelegate.swift:8-11 | the delegate starts with no timer, no stored permission and no alert shown |
| `AppDelegateModel.AppDelegate.ApplicationDidFinishLaunching` | AppDelegate.swift:13-27 | the stored permission is the prompting query's answer; the access-required alert is shown exactly when access is missing; the tap is started (stored and enabled) exactly when access is held and the tap can be built; a fresh permission timer is scheduled and stored |
| `AppDelegateModel.AppDelegate.StartPermissionMonitoring` | AppDelegate.swift:29-31 | schedules one repeating 5000 ms timer and stores it |
| `AppDelegateModel.AppDelegate.PermissionTimerFired` | AppDelegate.swift:31-46 | the stored permission and the alerts change as `Tick` of the stored value and `AXIsProcessTrusted()` says: the stored value becomes the answer, and the granted notification is added once on a false-to-true change |
| `AppDelegateModel.AppDelegate.ShowPermissionGrantedNotification` | AppDelegate.swift:49-69 | adds the permission-granted alert and changes nothing else |
| `AppDelegateModel.AppDelegate.CheckAccessibilityPermissions` | AppDelegate.swift:71-74 | returns the trust answer and records the prompting call |
| `AppDelegateModel.AppDelegate.ShowAccessibilityAlert` | AppDelegate.swift:76-87 | adds the access-required alert and changes nothing else |
| `AppDelegateModel.AppDelegate.StartMouseMonitoring` | AppDelegate.swift:116-127 | with the stored permission true, the manager and the system change exactly as `startMonitoring` makes them; otherwise neither changes |
| `AppDelegateModel.AppDelegate.IsAutoLaunchEnabled` | AppDelegate.swift:131-148 | true exactly when the listing script succeeds and the login item is present |
| `AppDelegateModel.AppDelegate.EnableAutoLaunch` | AppDelegate.swift:170-179 | runs the add script; on success the login item is present, on failure nothing changes |
| `AppDelegateModel.AppDelegate.DisableAutoLaunch` | AppDelegate.swift:181-189 | runs the delete script; on success the login item is gone, on failure nothing changes |
| `AppDelegateModel.AppDelegate.ToggleAutoLaunch` | AppDelegate.swift:150-168 | an item that is on runs the delete script, any other the add script; the item's state becomes `ToggledState` of the outcome; on failure the state is unchanged and the matching error alert is shown |
| `AppDelegateModel.AppDelegate.ApplicationWillTerminate` | AppDelegate.swift:217-220 | the stored timer, if any, is invalidated (no longer scheduled); the field is empty afterwards |
| `AppDelegateModel.LateGrant` | AppDelegate.swift:13-46 | for any system answers with access missing at launch, an application launched without access asks for it and does not start the tap; it shows the granted notification once when access arrives, and the tap stays unstarted |
| `AppDelegateModel.LaunchThenTerminate` | AppDelegate.swift:217-220 | for any system answers, after launch and termination no permission timer is stored or scheduled |

## Left out

- create_icon.swift is not part of this model. It renders and writes the icon images
  and runs `iconutil`, with no logic to state.
- The real CGEvent, CFRunLoop, accessibility and NSWorkspace interfaces are replaced by
  the `Os` capability. The callback's `Unmanaged` user-data pointer becomes the plain
  `MouseEventManager` reference that the tap callback is called on. The unused tap proxy is dropped.
  The tap's location, placement and options are recorded in the logged creation call.
  What they mean to the system (for instance, that only a default tap can drop an
  event) is not modelled beyond `HandleMouseEvent` returning nothing to swallow.
- The singleton `MouseEventManager.shared`: the model builds one manager explicitly and
  hands it to the delegate.
- The system's event delivery is not modelled. It only calls the tap with the selected
  kinds plus the tap-disabled notices. `HandleMouseEvent` accepts any kind.
- Whether a tap is enabled at creation is not modelled. The model counts a tap as
  enabled only after an explicit `tapEnable`.
- `CFMachPortCreateRunLoopSource` and `CGEventSource(stateID:)` can return nil. The
  model always gets a source. The event source's state shows only as the default
  flags of the key events it builds.
- The 10 ms `usleep` between key-down and key-up: only the order of the two posts is modelled.
- The timer's five-second schedule and its weak capture of the delegate. A tick is
  `PermissionTimerFired`, called by whoever drives the run loop. The model does not
  stop a tick from being called after invalidation.
- `showPermissionGrantedNotification` defers its alert with `DispatchQueue.main.async`.
  The model adds the alert during the tick itself. The delay until the main queue runs
  the block is not modelled.
- The alert dialogs' buttons: the restart through `/usr/bin/open`, opening System
  Settings, and the text of every alert and error message. An alert is recorded only
  by its kind.
- The menu bar, the status item and `quit`. `setupMenuBar` seeds the toggle item's state
  from `isAutoLaunchEnabled`, and only that method is modelled.
- AppleScript text and execution reduce to a success flag per script and one login-item
  flag. The listing's substring test for the application's name reduces to that flag.
  `executeAppleScript` is folded into `Os.ExecuteAppleScript`.
- All `print` logging.
- ApplicationDidFinishLaunching: states the stored permission, the alerts, the stored and
  enabled tap and the timer, but not the full system call log of the launch.

There is no concurrency to model: everything runs on the main run loop.
