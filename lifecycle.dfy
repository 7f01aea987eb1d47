/**
 * The startup and shutdown sequencing of the settings helper process, as a
 * state machine whose inputs are the outcomes of its external steps (option
 * parsing, the session bus, the configuration daemon, the session manager,
 * fork, the clipboard manager, the signal-handler library) and whose output
 * is the trace of effects performed and how the process ends.
 *
 * `Lifecycle` is the reference definition, phase by phase; `HelperMain`
 * performs the steps one at a time and is proved to produce it.
 */
module SettingsHelper {
  import opened Autostart

  const ExitSuccess: int := 0
  const ExitFailure: int := 1
  /** The bus's reply code for "the name is now ours". */
  const PrimaryOwner: int := 1

  /** The termination signals routed into the main loop's quit. */
  datatype Signal = SigQuit | SigTerm
  const Signums: seq<Signal> := [SigQuit, SigTerm]

  /** The hosted helpers other than the clipboard manager. */
  datatype Helper = Displays | Pointers | Keyboards | Accessibility | Shortcuts | KeyboardLayout | Workspaces

  /** Outcome of connecting to the session manager; a failure may or may not
      come with an error to report. */
  datatype SessionOutcome = SessionConnected | SessionFailed(errorSet: bool)

  /** The outcomes of the external steps, as this process observes them.
      `forkReturn` is what fork returned in this process. */
  datatype Env = Env(
    parseOk: bool,
    optVersion: bool,
    optDebug: bool,
    busConnected: bool,
    nameReply: int,
    xfconfOk: bool,
    session: SessionOutcome,
    resumed: bool,
    forkReturn: int,
    clipboardStarts: bool,
    signalInitOk: bool)

  datatype Event =
    | ConnectBus
    | RequestName
    | InitXfconf
    | CreateSessionClient
    | SetRestartImmediately
    | ConnectQuitToMainLoop
    | ConnectSession
    | ReportSessionError
    | ReconcileAutostart(enabled: bool)
    | Fork
    | WarnForkFailed
    | CreateHelper(helper: Helper)
    | CreateClipboard
    | StartClipboard
    | InitSignalHandlers
    | InstallHandler(signal: Signal)
    | RunMainLoop
    | ReleaseName
    | ReleaseHelper(released: Helper)
    | StopClipboard
    | ReleaseClipboard
    | ShutdownXfconf
    | ReleaseSessionClient

  /** How the process ends: returning from main with a status, exiting the
      forked parent immediately with a status, or a fatal error (which aborts). */
  datatype Termination = Return(status: int) | ImmediateExit(status: int) | Abort

  /** The whole observable run: effects, ending, and the autostart file left behind. */
  datatype Run = Run(trace: seq<Event>, end: Termination, autostart: RcBacking)

  /** The helpers in creation order; the displays helper exists only when
      built with XRandR support. */
  function HelperOrder(haveXrandr: bool): seq<Helper>
  {
    (if haveXrandr then [Displays] else []) + [Pointers, Keyboards, Accessibility, Shortcuts, KeyboardLayout, Workspaces]
  }

  function Creates(hs: seq<Helper>): seq<Event>
  {
    seq(|hs|, i requires 0 <= i < |hs| => CreateHelper(hs[i]))
  }

  function Releases(hs: seq<Helper>): seq<Event>
  {
    seq(|hs|, i requires 0 <= i < |hs| => ReleaseHelper(hs[i]))
  }

  function Installs(ss: seq<Signal>): seq<Event>
  {
    if ss == [] then [] else Installs(ss[..|ss| - 1]) + [InstallHandler(ss[|ss| - 1])]
  }

  /** The helper events of one build, written out one by one. */
  lemma HelperEventsSpelledOut(haveXrandr: bool)
    ensures Creates(HelperOrder(haveXrandr))
      == (if haveXrandr then [CreateHelper(Displays)] else [])
           + [CreateHelper(Pointers), CreateHelper(Keyboards), CreateHelper(Accessibility),
              CreateHelper(Shortcuts), CreateHelper(KeyboardLayout), CreateHelper(Workspaces)]
    ensures Releases(HelperOrder(haveXrandr))
      == (if haveXrandr then [ReleaseHelper(Displays)] else [])
           + [ReleaseHelper(Pointers), ReleaseHelper(Keyboards), ReleaseHelper(Accessibility),
              ReleaseHelper(Shortcuts), ReleaseHelper(KeyboardLayout), ReleaseHelper(Workspaces)]
  {
  }

  lemma Associative<T>(a: seq<T>, b: seq<T>, c: seq<T>)
    ensures (a + b) + c == a + (b + c)
  {
  }

  /** Bus connection and the single-instance name request. */
  const Claim: seq<Event> := [ConnectBus, RequestName]

  /** Session-client creation and connection; only a failure that comes
      with an error is reported. */
  function SessionSetup(s: SessionOutcome): seq<Event>
  {
    [CreateSessionClient, SetRestartImmediately, ConnectQuitToMainLoop, ConnectSession]
      + (if s == SessionFailed(true) then [ReportSessionError] else [])
  }

  /** Everything from the bus up to (not including) the fork decision, for a
      process that owns the name and reached the configuration daemon. */
  function Startup(env: Env): seq<Event>
  {
    Claim + [InitXfconf] + SessionSetup(env.session) + [ReconcileAutostart(env.resumed)]
  }

  /** The daemonising step as seen by a process that continues past it. */
  function Detach(env: Env): seq<Event>
  {
    if env.optDebug then [] else [Fork] + (if env.forkReturn == -1 then [WarnForkFailed] else [])
  }

  /** Creation of the sub-daemons and arming of the signal handlers. */
  function Creation(haveXrandr: bool, env: Env): seq<Event>
  {
    Creates(HelperOrder(haveXrandr)) + [CreateClipboard, StartClipboard]
      + (if env.clipboardStarts then [] else [ReleaseClipboard])
      + [InitSignalHandlers]
      + (if env.signalInitOk then Installs(Signums) else [])
  }

  /** What happens once the main loop returns. */
  function Teardown(haveXrandr: bool, clipboardRunning: bool): seq<Event>
  {
    [ReleaseName] + Releases(HelperOrder(haveXrandr))
      + (if clipboardRunning then [StopClipboard, ReleaseClipboard] else [])
      + [ShutdownXfconf, ReleaseSessionClient]
  }

  /** The process reaches the sub-daemons and the main loop. */
  predicate ReachesMainLoop(env: Env)
  {
    env.parseOk && !env.optVersion && env.busConnected && env.nameReply == PrimaryOwner
      && env.xfconfOk && (env.optDebug || env.forkReturn <= 0)
  }

  /** Reference definition of a run of the helper. */
  function Lifecycle(env: Env, haveXrandr: bool, disk: RcBacking): Run
  {
    if !env.parseOk then Run([], Return(ExitFailure), disk)
    else if env.optVersion then Run([], Return(ExitSuccess), disk)
    else if !env.busConnected then Run([ConnectBus], Abort, disk)
    else if env.nameReply != PrimaryOwner then Run(Claim, Return(ExitSuccess), disk)
    else if !env.xfconfOk then Run(Claim + [InitXfconf], Abort, disk)
    else
      var autostart := Reconciled(disk, env.resumed);
      if !env.optDebug && env.forkReturn > 0 then
        Run(Startup(env) + [Fork], ImmediateExit(ExitSuccess), autostart)
      else
        Run(Startup(env) + Detach(env) + Creation(haveXrandr, env) + [RunMainLoop]
              + Teardown(haveXrandr, env.clipboardStarts),
            Return(ExitSuccess), autostart)
  }

  /** The clipboard manager, whose start may fail. */
  class ClipboardManager {
    var running: bool

    constructor ()
      ensures !running
    {
      running := false;
    }

    /** Starts managing the clipboard; `succeeds` is the outcome the
        manager reports. */
    method Start(succeeds: bool) returns (ok: bool)
      modifies this
      ensures ok == succeeds && running == succeeds
    {
      running := succeeds;
      ok := running;
    }

    /** Stops a running manager. */
    method Stop()
      requires running
      modifies this
      ensures !running
    {
      running := false;
    }
  }

  /**
   * The helper's main: performs each step in turn, appending its effect to
   * the trace, and reconciles the autostart file through
   * SetAutostartEnabled (whose result it ignores).
   */
  method HelperMain(env: Env, haveXrandr: bool, disk: RcBacking)
    returns (trace: seq<Event>, end: Termination, autostart: RcBacking)
    ensures Run(trace, end, autostart) == Lifecycle(env, haveXrandr, disk)
  {
    trace, autostart := [], disk;

    if !env.parseOk {
      return trace, Return(ExitFailure), autostart;
    }
    if env.optVersion {
      return trace, Return(ExitSuccess), autostart;
    }

    trace := trace + [ConnectBus];
    var busConnection := env.busConnected;
    if busConnection {
      trace := trace + [RequestName];
      var result := env.nameReply;
      if result != PrimaryOwner {
        return trace, Return(ExitSuccess), autostart;
      }
    } else {
      return trace, Abort, autostart;
    }

    assert trace == Claim;
    trace := trace + [InitXfconf];
    if !env.xfconfOk {
      return trace, Abort, autostart;
    }

    ghost var connected := trace;
    trace := trace + [CreateSessionClient, SetRestartImmediately, ConnectQuitToMainLoop, ConnectSession];
    if env.session.SessionFailed? && env.session.errorSet {
      trace := trace + [ReportSessionError];
    }
    Associative(connected, [CreateSessionClient, SetRestartImmediately, ConnectQuitToMainLoop, ConnectSession],
      if env.session == SessionFailed(true) then [ReportSessionError] else []);
    assert trace == connected + SessionSetup(env.session);

    var inSession := env.resumed;
    trace := trace + [ReconcileAutostart(inSession)];
    ghost var ops;
    var reported, written;
    reported, written, ops := SetAutostartEnabled(autostart, inSession);
    autostart := written;
    assert trace == Startup(env);

    if !env.optDebug {
      trace := trace + [Fork];
      var pid := env.forkReturn;
      if pid == -1 {
        trace := trace + [WarnForkFailed];
      } else if pid > 0 {
        return trace, ImmediateExit(ExitSuccess), autostart;
      }
    }
    assert trace == Startup(env) + Detach(env);

    var hosted := HostSubDaemons(env, haveXrandr, busConnection);
    Associative(trace, Creation(haveXrandr, env) + [RunMainLoop], Teardown(haveXrandr, env.clipboardStarts));
    Associative(trace, Creation(haveXrandr, env), [RunMainLoop]);
    trace := trace + hosted;
    end := Return(ExitSuccess);
  }

  /**
   * The sub-daemon part of main: creates the helpers and the clipboard
   * manager (dropping the latter when its start fails), arms the signal
   * handlers, runs the main loop until a quit, then releases the bus name
   * and everything it created. `busConnection` is the bus connection held
   * since startup.
   */
  method HostSubDaemons(env: Env, haveXrandr: bool, busConnection: bool) returns (trace: seq<Event>)
    requires busConnection
    ensures trace == Creation(haveXrandr, env) + [RunMainLoop] + Teardown(haveXrandr, env.clipboardStarts)
  {
    trace := [];
    if haveXrandr {
      trace := trace + [CreateHelper(Displays)];
    }
    trace := trace + [CreateHelper(Pointers)];
    trace := trace + [CreateHelper(Keyboards)];
    trace := trace + [CreateHelper(Accessibility)];
    trace := trace + [CreateHelper(Shortcuts)];
    trace := trace + [CreateHelper(KeyboardLayout)];
    trace := trace + [CreateHelper(Workspaces)];
    HelperEventsSpelledOut(haveXrandr);
    assert trace == Creates(HelperOrder(haveXrandr));

    ghost var made := Creates(HelperOrder(haveXrandr));

    var clipboard: ClipboardManager? := new ClipboardManager();
    trace := trace + [CreateClipboard, StartClipboard];
    var started := clipboard.Start(env.clipboardStarts);
    if !started {
      trace := trace + [ReleaseClipboard];
      clipboard := null;
    }
    ghost var clip := made + [CreateClipboard, StartClipboard] + (if env.clipboardStarts then [] else [ReleaseClipboard]);
    assert trace == clip;

    trace := trace + [InitSignalHandlers];
    assert trace == clip + [InitSignalHandlers];
    ghost var armed := trace;
    if env.signalInitOk {
      for i := 0 to |Signums|
        invariant trace == armed + Installs(Signums[..i])
      {
        assert Signums[..i + 1][..i] == Signums[..i];
        trace := trace + [InstallHandler(Signums[i])];
      }
      assert Signums[..|Signums|] == Signums;
    }
    ghost var installed := if env.signalInitOk then Installs(Signums) else [];
    assert trace == armed + installed;
    assert Creation(haveXrandr, env) == clip + [InitSignalHandlers] + installed;
    assert trace == Creation(haveXrandr, env);

    trace := trace + [RunMainLoop];
    ghost var looped := trace;

    if busConnection {
      trace := trace + [ReleaseName];
    }
    ghost var named := trace;
    if haveXrandr {
      trace := trace + [ReleaseHelper(Displays)];
    }
    trace := trace + [ReleaseHelper(Pointers)];
    trace := trace + [ReleaseHelper(Keyboards)];
    trace := trace + [ReleaseHelper(Accessibility)];
    trace := trace + [ReleaseHelper(Shortcuts)];
    trace := trace + [ReleaseHelper(KeyboardLayout)];
    trace := trace + [ReleaseHelper(Workspaces)];
    ghost var released := Releases(HelperOrder(haveXrandr));
    assert trace == named + released;
    Associative(looped, [ReleaseName], released);
    ghost var unreffed := trace;

    if clipboard != null {
      clipboard.Stop();
      trace := trace + [StopClipboard, ReleaseClipboard];
    }
    ghost var stopped := if env.clipboardStarts then [StopClipboard, ReleaseClipboard] else [];
    assert trace == unreffed + stopped;

    trace := trace + [ShutdownXfconf, ReleaseSessionClient];
    Associative(looped, [ReleaseName] + released, stopped);
    Associative(looped, [ReleaseName] + released + stopped, [ShutdownXfconf, ReleaseSessionClient]);
  }
}
