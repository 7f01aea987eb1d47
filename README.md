# xfce4-settings-helper: startup, autostart reconcile and teardown

This project models the core of `xfce4-settings-helper/main.c`, the process that hosts the Xfce
settings helpers (displays, pointers, keyboards, accessibility, keyboard shortcuts, keyboard
layout, workspaces and the clipboard manager). It covers two pieces of decision logic:

- **The autostart reconcile** (`xfce_settings_helper_set_autostart_enabled`). The helper opens the
  per-user autostart desktop file and selects group `Desktop Entry`. It reads the boolean key
  `Hidden`, with the argument `enabled` as the default. When the value read equals `enabled`, it
  writes `!enabled` and flushes. It reports failure when the file cannot be opened or is still
  dirty after the flush. In `autostart.dfy` the file on disk is a value (`RcBacking`). The
  resource-config object opened on it is a class (`RcFile`) whose entries and dirty flag change
  in place. `SetAutostartEnabled` is proved against the reference definitions `Reconciled` and
  `ReconcileSucceeds`.
- **The sequencing of `main`**. `lifecycle.dfy` treats `main` as a state machine. Its inputs (`Env`)
  are the outcomes of each external step: option parsing, `--version`, `--debug`, the session bus,
  the reply to the name request, the xfconf connection, the session-manager connection, the
  resumed flag, the value `fork` returned in this process, the clipboard manager's start and the
  signal-handler library's initialisation. The build option `HAVE_XRANDR` is the parameter
  `haveXrandr`. The output is a `Run`: the trace of effects (`seq<Event>`), how the process ends
  (a return status, the forked parent's immediate `_exit`, or an abort from a fatal error), and the
  autostart file left behind. `HelperMain` and `HostSubDaemons` perform the steps one at a time
  and are proved to produce the reference definition `Lifecycle`. `lifecycle_props.dfy` states
  what every run guarantees.

The model follows the code on these points, each of which differs from what one might expect of
a daemon like this one or from the source's own comments:

- Unlike a reverse-order teardown, helpers are released in the order they were created
  (`TeardownIsNotReversed`).
- The bus name is released first, before any helper, not last.
- A failed session-manager connection is not treated as "not resumed". `is_resumed` is read either
  way and passed to the reconcile.
- An unreachable bus or xfconf daemon does not return a failure status: it ends in `g_error`,
  which aborts. The `return EXIT_FAILURE` after it is never reached, so the model ends such runs
  with `Abort`.
- Duplicate quit requests (a signal and a session-manager quit) are not merged; each calls `gtk_main_quit`.
- The comment above the reconcile call (main.c:218-219) says a launch restored from a saved
  session disables autostart. The call at main.c:221 passes the resumed flag as `enabled`, and
  the reconcile stores `Hidden := !enabled`. So a resumed launch leaves the autostart entry
  visible (`Hidden` false), and a fresh launch hides it. The model follows the call
  (`ReconcileNegatesResumedFlag`).

## Model

| member | source | states |
|---|---|---|
| `Autostart.WithEntry` | xfce4-settings-helper/main.c:108 | writing an entry sets exactly that group/key and leaves every other entry as it was; the group is created if missing |
| `Autostart.OpenAutostartFile` | xfce4-settings-helper/main.c:95-103 | opening yields no object exactly when the autostart directory cannot be created; otherwise a fresh clean object holding the file's contents |
| `Autostart.RcFile.Open` | xfce4-settings-helper/main.c:95-97 | a freshly opened resource file holds what is on disk, nothing unsaved |
| `Autostart.RcFile.SetGroup` | xfce4-settings-helper/main.c:105 | selects the group and changes nothing else |
| `Autostart.RcFile.ReadBool` | xfce4-settings-helper/main.c:106 | returns the stored value of the key in the selected group, or the default when the key is absent |
| `Autostart.RcFile.WriteBool` | xfce4-settings-helper/main.c:108 | sets the key in memory only and marks the file dirty; the disk is untouched |
| `Autostart.RcFile.Flush` | xfce4-settings-helper/main.c:109 | a dirty file whose disk accepts writes is saved and becomes clean; otherwise the disk and the dirty flag stay as they were |
| `Autostart.RcFile.IsDirty` | xfce4-settings-helper/main.c:112 | reports whether unsaved changes remain; when it says none, the entries in memory are exactly those on disk |
| `Autostart.SetAutostartEnabled` | xfce4-settings-helper/main.c:91-121 | returns TRUE exactly when the file opens and nothing is left unsaved; the file left on disk is `Reconciled(b, enabled)`; `Hidden` is written (as `!enabled`) and flushed exactly when the file opens and the key is absent or equals `enabled`; an unopenable file is neither written nor flushed |
| `Autostart.SuccessLeavesHiddenNegated` | xfce4-settings-helper/main.c:105-110 | after a successful reconcile `Hidden` is `!enabled` on disk, whatever it was before, absent included |
| `Autostart.AbsentKeyIsWritten` | xfce4-settings-helper/main.c:106-109 | an absent `Hidden` reads as `enabled`, so it is always written |
| `Autostart.ReconcileTouchesOnlyHidden` | xfce4-settings-helper/main.c:105-110 | no entry other than `Desktop Entry`/`Hidden` changes |
| `Autostart.SecondReconcileWritesNothing` | xfce4-settings-helper/main.c:106-110 | after a successful reconcile, a second one with the same argument has nothing to write, changes nothing and succeeds |
| `Autostart.ReconcileToggles` | xfce4-settings-helper/main.c:106-110 | a stored value equal to `enabled` becomes its negation; a stored `!enabled` is left alone |
| `SettingsHelper.ClipboardManager.constructor` | xfce4-settings-helper/main.c:252 | a new clipboard manager is not running |
| `SettingsHelper.ClipboardManager.Start` | xfce4-settings-helper/main.c:253 | the manager runs exactly when its start reports success |
| `SettingsHelper.ClipboardManager.Stop` | xfce4-settings-helper/main.c:285 | only a running manager can be stopped; it is not running afterwards |
| `SettingsHelper.HelperMain` | xfce4-settings-helper/main.c:125-293 | the effects, ending and autostart file of every run equal `Lifecycle(env, haveXrandr, disk)` |
| `SettingsHelper.HostSubDaemons` | xfce4-settings-helper/main.c:241-292 | sub-daemon creation, signal arming, main loop and teardown produce exactly `Creation`, then `RunMainLoop`, then `Teardown` |
| `SettingsHelperProperties.HelpersReleasedInCreationOrder` | xfce4-settings-helper/main.c:242-281 | the helpers released are exactly the helpers created, each once and in the same order: the six or seven of the build when the main loop is reached (in runs whose main loop is ended by a quit request), none otherwise |
| `SettingsHelperProperties.TeardownIsNotReversed` | xfce4-settings-helper/main.c:272-281 | the release order is not the reverse of the creation order |
| `SettingsHelperProperties.TeardownFollowsMainLoop` | xfce4-settings-helper/main.c:266-292 | in runs whose main loop is ended by a quit request, everything after the main loop is the fixed teardown: bus name first, then the helpers, clipboard if running, xfconf, session client last |
| `SettingsHelperProperties.ClipboardStoppedOnlyIfStarted` | xfce4-settings-helper/main.c:252-287 | the clipboard manager's events are create, start, then either stop and release (start succeeded) or an immediate release (start failed); none when the sub-daemons are not reached |
| `SettingsHelperProperties.HandlersInstalledOnlyAfterInit` | xfce4-settings-helper/main.c:259-264 | a handler for SIGQUIT or SIGTERM is installed exactly when the sub-daemons are reached and the handler library initialised |
| `SettingsHelperProperties.TerminationKinds` | xfce4-settings-helper/main.c:157-292 | failure status exactly on an option error; abort exactly on an unreachable bus or xfconf daemon; immediate exit exactly in the forked parent; success for every run that reaches the main loop and whose main loop is ended by a quit request |
| `SettingsHelperProperties.SecondInstanceLeavesQuietly` | xfce4-settings-helper/main.c:183-191 | when the name is not granted, the run returns success after the bus request with no xfconf, session client, autostart change, sub-daemon or name release |
| `SettingsHelperProperties.OptionExitsBeforeBus` | xfce4-settings-helper/main.c:156-181 | option failure returns failure and `--version` returns success, both before any bus contact and with the autostart file untouched |
| `SettingsHelperProperties.FatalErrorsPrecedeSession` | xfce4-settings-helper/main.c:193-205 | an unreachable bus or xfconf daemon aborts before the session client exists, before the autostart file is touched and before any helper or the clipboard manager is created |
| `SettingsHelperProperties.SubDaemonsOnlyPastEarlyExits` | xfce4-settings-helper/main.c:157-270 | the clipboard manager is created, the main loop runs and the bus name is released exactly in runs that pass every early exit and the fork |
| `SettingsHelperProperties.SessionFailureIsNotFatal` | xfce4-settings-helper/main.c:207-221 | the session client is created whatever the connection's outcome; that outcome changes neither the ending, nor the autostart file, nor whether the main loop is reached; the reconcile still runs with the resumed flag |
| `SettingsHelperProperties.AutostartReconciledOnce` | xfce4-settings-helper/main.c:218-221 | past xfconf the autostart file is reconciled with the resumed flag, before the fork; otherwise it is untouched; the reconcile's outcome does not affect the rest of the run |
| `SettingsHelperProperties.ReconcileRunsOnce` | xfce4-settings-helper/main.c:218-239 | past xfconf the trace holds exactly one reconcile event, the last of the startup phase, and any fork comes after it |
| `SettingsHelperProperties.ReconcileNegatesResumedFlag` | xfce4-settings-helper/main.c:218-221 | on a writable file `Hidden` ends as the negation of the resumed flag, whatever it held before: false (visible) after a resumed launch, true (hidden) after a fresh one, contrary to the comment at main.c:218-219 |
| `SettingsHelperProperties.ForkLeavesOneProcess` | xfce4-settings-helper/main.c:223-239 | after a successful fork the parent's whole run is the startup phase then the fork, ending in `_exit(EXIT_SUCCESS)`: no helper, no clipboard manager, no main loop, and its file is the reconciled one; the child shares that history, reaches the main loop, returns success and leaves the same file |
| `SettingsHelperProperties.ForkFailureKeepsRunning` | xfce4-settings-helper/main.c:229-233 | a failed fork is reported and the original process carries on to the main loop |
| `SettingsHelperProperties.DebugNeverForks` | xfce4-settings-helper/main.c:223-225 | with `--debug` there is no fork, and a run past xfconf reaches the main loop itself |

## Left out

- D-Bus, `fork`/`_exit` and `gtk_main` are not performed. Their outcomes are fields of `Env`, and their effects are trace events. The main loop is one event, `RunMainLoop`, standing for "run until a quit arrives".
- `gtk_init` (main.c:154) is assumed to succeed. It has no `Env` field and no event, so the model does not cover the program ending inside it when the display cannot be opened.
- The model assumes the main loop ends through `gtk_main_quit`: the session manager's `quit`, or a SIGQUIT/SIGTERM caught by an installed handler. A SIGQUIT or SIGTERM that arrives while no handler is installed kills the process by the signal's default action, with no teardown (no release of the bus name, the helpers, the clipboard manager, xfconf or the session client) and no `return EXIT_SUCCESS`. That happens always when the handler library fails to initialise (main.c:260), and in any run for a signal that arrives before main.c:263. This is not modelled. `TerminationKinds`, `HelpersReleasedInCreationOrder` and `TeardownFollowsMainLoop` describe runs whose main loop is ended by a quit request.
- TerminationKinds: the success ending for runs that reach the main loop holds only when the loop is ended by a quit request; a process killed by an unhandled SIGQUIT/SIGTERM is not covered.
- HelpersReleasedInCreationOrder: the helpers are released only when the main loop is ended by a quit request; an unhandled SIGQUIT/SIGTERM releases nothing, and that run is not covered.
- TeardownFollowsMainLoop: the teardown follows the main loop only when the loop is ended by a quit request; an unhandled SIGQUIT/SIGTERM ends the process with no teardown, and that run is not covered.
- The signal handler and the session client's `quit` both call `gtk_main_quit`. Which source ends the loop, and how often, is not modelled. The code does not merge duplicate quit requests, and nothing here claims it does.
- Printing of usage, version and warnings, gettext, and the option table's contents are left out. Only a reported session-manager error (`ReportSessionError`) and a failed fork (`WarnForkFailed`) appear in the trace, because they depend on outcomes.
- xfconf, XfceSMClient and the hosted helpers are foreign code. Only their success or failure, the `is_resumed` flag and their creation and release events are kept.
- The XfceRc file format, the autostart file's path and directory creation are abstracted. The file is a map from group to boolean entries, plus two flags: whether its directory can be created (opening succeeds) and whether a flush reaches the disk. Textual values other than booleans are not modelled. `xfce_rc_close` is not modelled; the library's behaviour at close is not part of this model.
- A successful fork gives two processes. The model describes each as its own run: `forkReturn` is the child's pid in the original process and 0 in the child. The child's run includes the history it inherits. Values of `forkReturn` below -1, which `fork` never returns, take the same branch as 0, as in the code.
- The clipboard manager's start, and the value `fork` returns, are outcomes supplied to the model, not computed by it.
