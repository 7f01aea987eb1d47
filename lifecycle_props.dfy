/**
 * What a run of the settings helper guarantees, stated over the reference
 * definition `Lifecycle` (which `HelperMain` is proved to produce): where
 * each kind of exit happens, how many processes survive the fork, that a
 * clipboard manager is stopped only when it started, and the order of
 * teardown.
 */
module SettingsHelperProperties {
  import opened Autostart
  import opened SettingsHelper

  /** The helpers named by creation events, in trace order. */
  function Created(t: seq<Event>): seq<Helper>
  {
    if t == [] then []
    else (if t[0].CreateHelper? then [t[0].helper] else []) + Created(t[1..])
  }

  /** The helpers named by release events, in trace order. */
  function Released(t: seq<Event>): seq<Helper>
  {
    if t == [] then []
    else (if t[0].ReleaseHelper? then [t[0].released] else []) + Released(t[1..])
  }

  /** An event that neither creates nor releases a helper. */
  predicate QuietEvent(e: Event)
  {
    !e.CreateHelper? && !e.ReleaseHelper?
  }

  /** A trace with no helper creation or release in it. */
  predicate Quiet(t: seq<Event>)
  {
    forall i :: 0 <= i < |t| ==> QuietEvent(t[i])
  }

  /** `s` back to front. */
  function Reverse<T>(s: seq<T>): (r: seq<T>)
    ensures |r| == |s|
    ensures forall i :: 0 <= i < |s| ==> r[i] == s[|s| - 1 - i]
  {
    if s == [] then [] else Reverse(s[1..]) + [s[0]]
  }

  /** The process owns the bus name and reached the configuration daemon,
      so it goes on to the session client, the autostart file and the fork. */
  predicate PastXfconf(env: Env)
  {
    env.parseOk && !env.optVersion && env.busConnected && env.nameReply == PrimaryOwner && env.xfconfOk
  }

  // ---------------------------------------------------------------------
  // Projections of traces

  lemma {:induction false} ProjectionsAppend(a: seq<Event>, b: seq<Event>)
    ensures Created(a + b) == Created(a) + Created(b)
    ensures Released(a + b) == Released(a) + Released(b)
  {
    if a == [] {
      assert a + b == b;
    } else {
      assert (a + b)[0] == a[0];
      assert (a + b)[1..] == a[1..] + b;
      ProjectionsAppend(a[1..], b);
      var c := if a[0].CreateHelper? then [a[0].helper] else [];
      var r := if a[0].ReleaseHelper? then [a[0].released] else [];
      Associative(c, Created(a[1..]), Created(b));
      Associative(r, Released(a[1..]), Released(b));
    }
  }

  lemma {:induction false} QuietProjections(t: seq<Event>)
    requires Quiet(t)
    ensures Created(t) == [] && Released(t) == []
  {
    if t != [] {
      assert QuietEvent(t[0]);
      QuietProjections(t[1..]);
    }
  }

  lemma {:induction false} ProjectionsOfCreates(hs: seq<Helper>)
    ensures Created(Creates(hs)) == hs && Released(Creates(hs)) == []
  {
    if hs != [] {
      assert Creates(hs)[1..] == Creates(hs[1..]);
      ProjectionsOfCreates(hs[1..]);
    }
  }

  lemma {:induction false} ProjectionsOfReleases(hs: seq<Helper>)
    ensures Released(Releases(hs)) == hs && Created(Releases(hs)) == []
  {
    if hs != [] {
      assert Releases(hs)[1..] == Releases(hs[1..]);
      ProjectionsOfReleases(hs[1..]);
    }
  }

  /** The events before the handlers are installed: the helpers, the
      clipboard manager and the handler library's initialisation. */
  function Arming(haveXrandr: bool, clipboardStarts: bool): seq<Event>
  {
    Creates(HelperOrder(haveXrandr)) + [CreateClipboard, StartClipboard]
      + (if clipboardStarts then [] else [ReleaseClipboard])
      + [InitSignalHandlers]
  }

  /** Up to the handler installation, every helper is created once, in
      build order, and none is released. */
  lemma ArmingProjections(haveXrandr: bool, clipboardStarts: bool)
    ensures Created(Arming(haveXrandr, clipboardStarts)) == HelperOrder(haveXrandr)
    ensures Released(Arming(haveXrandr, clipboardStarts)) == []
  {
    var made := Creates(HelperOrder(haveXrandr));
    var clip := if clipboardStarts then [] else [ReleaseClipboard];
    var started := made + [CreateClipboard, StartClipboard];
    ProjectionsOfCreates(HelperOrder(haveXrandr));
    QuietProjections([CreateClipboard, StartClipboard]);
    QuietProjections(clip);
    QuietProjections([InitSignalHandlers]);
    ProjectionsAppend(made, [CreateClipboard, StartClipboard]);
    ProjectionsAppend(started, clip);
    ProjectionsAppend(started + clip, [InitSignalHandlers]);
  }

  /** Creation of the sub-daemons creates every helper once, in build
      order, and releases none of them. */
  lemma CreationProjections(haveXrandr: bool, env: Env)
    ensures Created(Creation(haveXrandr, env)) == HelperOrder(haveXrandr)
    ensures Released(Creation(haveXrandr, env)) == []
  {
    var armed := Arming(haveXrandr, env.clipboardStarts);
    var installed := if env.signalInitOk then Installs(Signums) else [];
    assert Creation(haveXrandr, env) == armed + installed;
    ArmingProjections(haveXrandr, env.clipboardStarts);
    InstallsAreQuiet(env.signalInitOk);
    QuietProjections(installed);
    ProjectionsAppend(armed, installed);
  }

  /** Arming the signal handlers creates and releases no helper. */
  lemma InstallsAreQuiet(signalInitOk: bool)
    ensures Quiet(if signalInitOk then Installs(Signums) else [])
  {
    assert Installs(Signums) == [InstallHandler(SigQuit), InstallHandler(SigTerm)];
  }

  /** Teardown releases every helper once, in build order (the order of
      creation, not its reverse), and creates none. */
  lemma TeardownProjections(haveXrandr: bool, clipboardRunning: bool)
    ensures Released(Teardown(haveXrandr, clipboardRunning)) == HelperOrder(haveXrandr)
    ensures Created(Teardown(haveXrandr, clipboardRunning)) == []
  {
    var released := Releases(HelperOrder(haveXrandr));
    var stopped := if clipboardRunning then [StopClipboard, ReleaseClipboard] else [];
    ProjectionsOfReleases(HelperOrder(haveXrandr));
    QuietProjections([ReleaseName]);
    QuietProjections(stopped);
    QuietProjections([ShutdownXfconf, ReleaseSessionClient]);
    ProjectionsAppend([ReleaseName], released);
    ProjectionsAppend([ReleaseName] + released, stopped);
    ProjectionsAppend([ReleaseName] + released + stopped, [ShutdownXfconf, ReleaseSessionClient]);
  }

  // ---------------------------------------------------------------------
  // Sub-daemon lifecycle

  /** Whatever the outcomes, the helpers a run releases are exactly the
      helpers it created, each once and in the same order as they were
      created: all six or seven of the build when the main loop is reached,
      none otherwise. */
  lemma HelpersReleasedInCreationOrder(env: Env, haveXrandr: bool, disk: RcBacking)
    ensures Created(Lifecycle(env, haveXrandr, disk).trace) == (if ReachesMainLoop(env) then HelperOrder(haveXrandr) else [])
    ensures Released(Lifecycle(env, haveXrandr, disk).trace) == Created(Lifecycle(env, haveXrandr, disk).trace)
  {
    var t := Lifecycle(env, haveXrandr, disk).trace;
    if ReachesMainLoop(env) {
      var pre := Startup(env) + Detach(env);
      var made := Creation(haveXrandr, env);
      QuietProjections(pre);
      QuietProjections([RunMainLoop]);
      CreationProjections(haveXrandr, env);
      TeardownProjections(haveXrandr, env.clipboardStarts);
      ProjectionsAppend(pre, made);
      ProjectionsAppend(pre + made, [RunMainLoop]);
      ProjectionsAppend(pre + made + [RunMainLoop], Teardown(haveXrandr, env.clipboardStarts));
    } else {
      QuietProjections(t);
    }
  }

  /** Teardown is not the reverse of creation: the helpers are released in
      the order they were created. */
  lemma TeardownIsNotReversed(env: Env, haveXrandr: bool, disk: RcBacking)
    requires ReachesMainLoop(env)
    ensures Released(Lifecycle(env, haveXrandr, disk).trace) != Reverse(Created(Lifecycle(env, haveXrandr, disk).trace))
  {
    HelpersReleasedInCreationOrder(env, haveXrandr, disk);
    var hs := HelperOrder(haveXrandr);
    assert Reverse(hs)[|hs| - 1] == hs[0] != hs[|hs| - 1];
  }

  /** Once the main loop returns, the rest of the run is the fixed teardown:
      the bus name first, then the helpers, then the clipboard manager if it
      is running, then the configuration daemon and the session client. */
  lemma TeardownFollowsMainLoop(env: Env, haveXrandr: bool, disk: RcBacking)
    requires ReachesMainLoop(env)
    ensures var t := Lifecycle(env, haveXrandr, disk).trace;
      var down := Teardown(haveXrandr, env.clipboardStarts);
      |t| > |down| && t[|t| - |down| - 1] == RunMainLoop && t[|t| - |down|..] == down
    ensures var down := Teardown(haveXrandr, env.clipboardStarts);
      down[0] == ReleaseName && down[|down| - 2..] == [ShutdownXfconf, ReleaseSessionClient]
  {
    var t := Lifecycle(env, haveXrandr, disk).trace;
    var before := Startup(env) + Detach(env) + Creation(haveXrandr, env);
    var down := Teardown(haveXrandr, env.clipboardStarts);
    assert t == before + [RunMainLoop] + down;
    assert t[|t| - |down|..] == down;
  }

  /** Helper creation and release events are the only events in the
      helper phases. */
  lemma QuietEventsAbsentFromHelpers(hs: seq<Helper>, e: Event)
    requires QuietEvent(e)
    ensures e !in Creates(hs) && e !in Releases(hs)
  {
  }

  /** The events in the life of the clipboard manager. */
  predicate ClipboardEvent(e: Event)
  {
    e.CreateClipboard? || e.StartClipboard? || e.StopClipboard? || e.ReleaseClipboard?
  }

  /** The clipboard manager's events, in trace order. */
  function ClipboardLife(t: seq<Event>): seq<Event>
  {
    if t == [] then []
    else (if ClipboardEvent(t[0]) then [t[0]] else []) + ClipboardLife(t[1..])
  }

  lemma {:induction false} ClipboardLifeAppend(a: seq<Event>, b: seq<Event>)
    ensures ClipboardLife(a + b) == ClipboardLife(a) + ClipboardLife(b)
  {
    if a == [] {
      assert a + b == b;
    } else {
      assert (a + b)[0] == a[0];
      assert (a + b)[1..] == a[1..] + b;
      ClipboardLifeAppend(a[1..], b);
      Associative(if ClipboardEvent(a[0]) then [a[0]] else [], ClipboardLife(a[1..]), ClipboardLife(b));
    }
  }

  lemma {:induction false} ClipboardLifeOfNone(t: seq<Event>)
    requires forall i :: 0 <= i < |t| ==> !ClipboardEvent(t[i])
    ensures ClipboardLife(t) == []
  {
    if t != [] {
      ClipboardLifeOfNone(t[1..]);
    }
  }

  lemma {:induction false} ClipboardLifeOfAll(t: seq<Event>)
    requires forall i :: 0 <= i < |t| ==> ClipboardEvent(t[i])
    ensures ClipboardLife(t) == t
  {
    if t != [] {
      ClipboardLifeOfAll(t[1..]);
      assert [t[0]] + t[1..] == t;
    }
  }

  lemma {:induction false} ClipboardLifeOfHelpers(hs: seq<Helper>)
    ensures ClipboardLife(Creates(hs)) == [] && ClipboardLife(Releases(hs)) == []
  {
    if hs != [] {
      assert Creates(hs)[1..] == Creates(hs[1..]);
      assert Releases(hs)[1..] == Releases(hs[1..]);
      ClipboardLifeOfHelpers(hs[1..]);
    }
  }

  lemma ClipboardLifeOfCreation(haveXrandr: bool, env: Env)
    ensures ClipboardLife(Creation(haveXrandr, env))
      == [CreateClipboard, StartClipboard] + (if env.clipboardStarts then [] else [ReleaseClipboard])
  {
    var made := Creates(HelperOrder(haveXrandr));
    var started := [CreateClipboard, StartClipboard];
    var clip := if env.clipboardStarts then [] else [ReleaseClipboard];
    var installed := if env.signalInitOk then Installs(Signums) else [];
    assert Installs(Signums) == [InstallHandler(SigQuit), InstallHandler(SigTerm)];
    ClipboardLifeOfHelpers(HelperOrder(haveXrandr));
    ClipboardLifeOfAll(started);
    ClipboardLifeOfAll(clip);
    ClipboardLifeOfNone(installed);
    ClipboardLifeAppend(made, started);
    ClipboardLifeAppend(made + started, clip);
    ClipboardLifeAppend(made + started + clip, [InitSignalHandlers]);
    ClipboardLifeAppend(made + started + clip + [InitSignalHandlers], installed);
  }

  lemma ClipboardLifeOfTeardown(haveXrandr: bool, clipboardRunning: bool)
    ensures ClipboardLife(Teardown(haveXrandr, clipboardRunning))
      == (if clipboardRunning then [StopClipboard, ReleaseClipboard] else [])
  {
    var released := Releases(HelperOrder(haveXrandr));
    var stopped := if clipboardRunning then [StopClipboard, ReleaseClipboard] else [];
    ClipboardLifeOfHelpers(HelperOrder(haveXrandr));
    ClipboardLifeOfAll(stopped);
    ClipboardLifeOfNone([ShutdownXfconf, ReleaseSessionClient]);
    ClipboardLifeAppend([ReleaseName], released);
    ClipboardLifeAppend([ReleaseName] + released, stopped);
    ClipboardLifeAppend([ReleaseName] + released + stopped, [ShutdownXfconf, ReleaseSessionClient]);
  }

  /** The clipboard manager is created and started once in every run that
      reaches the sub-daemons. If its start fails it is released at once
      and never stopped; if it succeeds it is stopped exactly once, at
      teardown, and then released. */
  lemma ClipboardStoppedOnlyIfStarted(env: Env, haveXrandr: bool, disk: RcBacking)
    ensures ClipboardLife(Lifecycle(env, haveXrandr, disk).trace)
      == if !ReachesMainLoop(env) then []
         else if env.clipboardStarts then [CreateClipboard, StartClipboard, StopClipboard, ReleaseClipboard]
         else [CreateClipboard, StartClipboard, ReleaseClipboard]
  {
    var t := Lifecycle(env, haveXrandr, disk).trace;
    if ReachesMainLoop(env) {
      var pre := Startup(env) + Detach(env);
      var made := Creation(haveXrandr, env);
      var down := Teardown(haveXrandr, env.clipboardStarts);
      ClipboardLifeOfNone(pre);
      ClipboardLifeOfNone([RunMainLoop]);
      ClipboardLifeOfCreation(haveXrandr, env);
      ClipboardLifeOfTeardown(haveXrandr, env.clipboardStarts);
      ClipboardLifeAppend(pre, made);
      ClipboardLifeAppend(pre + made, [RunMainLoop]);
      ClipboardLifeAppend(pre + made + [RunMainLoop], down);
    } else {
      ClipboardLifeOfNone(t);
    }
  }

  lemma HandlersInPhases(haveXrandr: bool, env: Env, s: Signal)
    ensures InstallHandler(s) in Creation(haveXrandr, env) <==> env.signalInitOk
    ensures InstallHandler(s) !in Teardown(haveXrandr, env.clipboardStarts)
  {
    var hs := HelperOrder(haveXrandr);
    QuietEventsAbsentFromHelpers(hs, InstallHandler(s));
    assert Installs(Signums) == [InstallHandler(SigQuit), InstallHandler(SigTerm)];
  }

  /** The signal handlers for SIGQUIT and SIGTERM are installed exactly when
      the sub-daemons were reached and the handler library initialised. */
  lemma HandlersInstalledOnlyAfterInit(env: Env, haveXrandr: bool, disk: RcBacking, s: Signal)
    ensures InstallHandler(s) in Lifecycle(env, haveXrandr, disk).trace <==> ReachesMainLoop(env) && env.signalInitOk
  {
    if ReachesMainLoop(env) {
      HandlersInPhases(haveXrandr, env, s);
    }
  }

  // ---------------------------------------------------------------------
  // Early exits and fatal errors

  /** How a run ends, by outcome: failed option parsing returns failure;
      an unreachable bus or configuration daemon aborts; every other run
      that does not fork away returns success. */
  lemma TerminationKinds(env: Env, haveXrandr: bool, disk: RcBacking)
    ensures var e := Lifecycle(env, haveXrandr, disk).end;
      (e == Return(ExitFailure) <==> !env.parseOk)
      && (e == Abort <==>
            env.parseOk && !env.optVersion && (!env.busConnected || (env.nameReply == PrimaryOwner && !env.xfconfOk)))
      && (e.ImmediateExit? <==> PastXfconf(env) && !env.optDebug && env.forkReturn > 0)
      && (ReachesMainLoop(env) ==> e == Return(ExitSuccess))
  {
  }

  /** A second instance (the bus name is not granted) leaves with success
      having done nothing but ask: no configuration daemon, no session
      client, no autostart change, no sub-daemon and no name release. */
  lemma SecondInstanceLeavesQuietly(env: Env, haveXrandr: bool, disk: RcBacking)
    requires env.parseOk && !env.optVersion && env.busConnected && env.nameReply != PrimaryOwner
    ensures var r := Lifecycle(env, haveXrandr, disk);
      r.end == Return(ExitSuccess) && r.autostart == disk && r.trace == [ConnectBus, RequestName]
    ensures var t := Lifecycle(env, haveXrandr, disk).trace;
      InitXfconf !in t && CreateSessionClient !in t && CreateClipboard !in t && ReleaseName !in t
      && (forall b :: ReconcileAutostart(b) !in t) && (forall h :: CreateHelper(h) !in t)
  {
  }

  /** Option failure and --version leave before any contact with the bus. */
  lemma OptionExitsBeforeBus(env: Env, haveXrandr: bool, disk: RcBacking)
    requires !env.parseOk || env.optVersion
    ensures var r := Lifecycle(env, haveXrandr, disk);
      ConnectBus !in r.trace && r.autostart == disk
      && r.end == Return(if env.parseOk then ExitSuccess else ExitFailure)
  {
  }

  /** An unreachable bus or configuration daemon aborts before the session
      client exists, before the autostart file is touched and before any
      sub-daemon (helper or clipboard manager) is created. */
  lemma FatalErrorsPrecedeSession(env: Env, haveXrandr: bool, disk: RcBacking)
    requires env.parseOk && !env.optVersion
    requires !env.busConnected || (env.nameReply == PrimaryOwner && !env.xfconfOk)
    ensures var r := Lifecycle(env, haveXrandr, disk);
      r.end == Abort && r.autostart == disk && CreateSessionClient !in r.trace
      && (forall b :: ReconcileAutostart(b) !in r.trace) && CreateClipboard !in r.trace
      && (forall h :: CreateHelper(h) !in r.trace)
  {
  }

  /** Sub-daemons are created, the main loop runs and the bus name is
      released only in a run that got past every early exit and the fork. */
  lemma SubDaemonsOnlyPastEarlyExits(env: Env, haveXrandr: bool, disk: RcBacking)
    ensures var t := Lifecycle(env, haveXrandr, disk).trace;
      (CreateClipboard in t <==> ReachesMainLoop(env))
      && (RunMainLoop in t <==> ReachesMainLoop(env))
      && (ReleaseName in t <==> ReachesMainLoop(env))
  {
  }

  // ---------------------------------------------------------------------
  // Session manager and autostart

  /** A session-manager connection failure is not fatal: the session client
      is created whatever the connection's outcome, the ending, the
      autostart file and whether the main loop is reached do not depend on
      it, and the reconcile still runs with the resumed flag. */
  lemma SessionFailureIsNotFatal(env: Env, haveXrandr: bool, disk: RcBacking, s: SessionOutcome)
    ensures var r := Lifecycle(env, haveXrandr, disk);
      var r' := Lifecycle(env.(session := s), haveXrandr, disk);
      r'.end == r.end && r'.autostart == r.autostart
      && (RunMainLoop in r'.trace <==> RunMainLoop in r.trace)
    ensures PastXfconf(env) ==> CreateSessionClient in Lifecycle(env.(session := s), haveXrandr, disk).trace
    ensures PastXfconf(env) ==> ReconcileAutostart(env.resumed) in Lifecycle(env.(session := s), haveXrandr, disk).trace
  {
    if ReachesMainLoop(env) {
      assert RunMainLoop in Lifecycle(env, haveXrandr, disk).trace;
      assert RunMainLoop in Lifecycle(env.(session := s), haveXrandr, disk).trace;
    }
  }

  /** The autostart file is reconciled, with the resumed flag, in every run
      past the configuration daemon (before the fork, so once per launch),
      and left alone otherwise; the result of the reconcile does not
      influence the rest of the run. */
  lemma AutostartReconciledOnce(env: Env, haveXrandr: bool, disk: RcBacking, other: RcBacking)
    ensures Lifecycle(env, haveXrandr, disk).autostart == (if PastXfconf(env) then Reconciled(disk, env.resumed) else disk)
    ensures Lifecycle(env, haveXrandr, other).trace == Lifecycle(env, haveXrandr, disk).trace
    ensures Lifecycle(env, haveXrandr, other).end == Lifecycle(env, haveXrandr, disk).end
  {
  }

  /** A trace with no reconcile of the autostart file in it. */
  predicate Unreconciled(t: seq<Event>)
  {
    forall i :: 0 <= i < |t| ==> !t[i].ReconcileAutostart?
  }

  lemma UnreconciledAppend(a: seq<Event>, b: seq<Event>)
    requires Unreconciled(a) && Unreconciled(b)
    ensures Unreconciled(a + b)
  {
    forall i | 0 <= i < |a + b|
      ensures !(a + b)[i].ReconcileAutostart?
    {
      if i < |a| {
        assert (a + b)[i] == a[i];
      } else {
        assert (a + b)[i] == b[i - |a|];
      }
    }
  }

  /** Everything a process does after the startup phase is free of reconciles. */
  lemma AfterStartupUnreconciled(env: Env, haveXrandr: bool)
    ensures Unreconciled(Detach(env) + Creation(haveXrandr, env) + [RunMainLoop] + Teardown(haveXrandr, env.clipboardStarts))
  {
    var hs := HelperOrder(haveXrandr);
    assert Installs(Signums) == [InstallHandler(SigQuit), InstallHandler(SigTerm)];
    var tail := [CreateClipboard, StartClipboard] + (if env.clipboardStarts then [] else [ReleaseClipboard]);
    var arm := [InitSignalHandlers] + (if env.signalInitOk then Installs(Signums) else []);
    UnreconciledAppend(Creates(hs), tail);
    UnreconciledAppend(Creates(hs) + tail, [InitSignalHandlers]);
    UnreconciledAppend(Creates(hs) + tail + [InitSignalHandlers], if env.signalInitOk then Installs(Signums) else []);
    var clip := if env.clipboardStarts then [StopClipboard, ReleaseClipboard] else [];
    UnreconciledAppend([ReleaseName], Releases(hs));
    UnreconciledAppend([ReleaseName] + Releases(hs), clip);
    UnreconciledAppend([ReleaseName] + Releases(hs) + clip, [ShutdownXfconf, ReleaseSessionClient]);
    UnreconciledAppend(Detach(env), Creation(haveXrandr, env));
    UnreconciledAppend(Detach(env) + Creation(haveXrandr, env), [RunMainLoop]);
    UnreconciledAppend(Detach(env) + Creation(haveXrandr, env) + [RunMainLoop], Teardown(haveXrandr, env.clipboardStarts));
  }

  /** Past the configuration daemon the reconcile happens exactly once per
      launch: its one event closes the startup phase, and any fork comes
      after it. */
  lemma ReconcileRunsOnce(env: Env, haveXrandr: bool, disk: RcBacking)
    requires PastXfconf(env)
    ensures var t := Lifecycle(env, haveXrandr, disk).trace;
      var k := |Startup(env)| - 1;
      0 <= k < |t| && t[k] == ReconcileAutostart(env.resumed)
      && (forall i :: 0 <= i < |t| && i != k ==> !t[i].ReconcileAutostart?)
      && (forall i :: 0 <= i < |t| && t[i] == Fork ==> k < i)
  {
    var pre := Startup(env);
    var t := Lifecycle(env, haveXrandr, disk).trace;
    var rest: seq<Event>;
    if !env.optDebug && env.forkReturn > 0 {
      rest := [Fork];
    } else {
      rest := Detach(env) + Creation(haveXrandr, env) + [RunMainLoop] + Teardown(haveXrandr, env.clipboardStarts);
      AfterStartupUnreconciled(env, haveXrandr);
      var d, c, down := Detach(env), Creation(haveXrandr, env), Teardown(haveXrandr, env.clipboardStarts);
      Associative(pre, d, c);
      Associative(pre, d + c, [RunMainLoop]);
      Associative(pre, d + c + [RunMainLoop], down);
    }
    assert t == pre + rest;
    assert Unreconciled(rest);
    assert forall i :: 0 <= i < |pre| - 1 ==> !pre[i].ReconcileAutostart? && pre[i] != Fork;
    forall i | 0 <= i < |t| && i != |pre| - 1
      ensures !t[i].ReconcileAutostart?
    {
      if i < |pre| {
        assert t[i] == pre[i];
      } else {
        assert t[i] == rest[i - |pre|];
      }
    }
  }

  /** The reconcile is called with the resumed flag as its `enabled`
      argument, so on a writable file "Hidden" ends as the NEGATION of that
      flag: a launch restored from a saved session leaves the autostart
      entry visible ("Hidden" false), and a fresh launch leaves it hidden,
      whatever the file held before. (The comment above the call in the
      source speaks of disabling autostart in a resumed session; the call
      does the opposite, and this model follows the call.) */
  lemma ReconcileNegatesResumedFlag(env: Env, haveXrandr: bool, disk: RcBacking)
    requires PastXfconf(env) && disk.creatable && disk.writable
    ensures Hidden(Lifecycle(env, haveXrandr, disk).autostart) == Some(!env.resumed)
    ensures env.resumed ==> Hidden(Lifecycle(env, haveXrandr, disk).autostart) == Some(false)
    ensures !env.resumed ==> Hidden(Lifecycle(env, haveXrandr, disk).autostart) == Some(true)
  {
    SuccessLeavesHiddenNegated(disk, env.resumed);
  }

  // ---------------------------------------------------------------------
  // Daemonising

  /** The startup phase neither creates a sub-daemon nor runs the main loop. */
  lemma StartupHostsNothing(env: Env)
    ensures RunMainLoop !in Startup(env) && CreateClipboard !in Startup(env)
    ensures forall h :: CreateHelper(h) !in Startup(env)
  {
  }

  /** A successful fork returns the child's pid in the original process and
      0 in the child: the original exits at once with success, the child
      carries on with the same history and is the one process that reaches
      the sub-daemons. */
  lemma ForkLeavesOneProcess(env: Env, haveXrandr: bool, disk: RcBacking, child: int)
    requires PastXfconf(env) && !env.optDebug && child > 0
    ensures var parent := Lifecycle(env.(forkReturn := child), haveXrandr, disk);
      parent.end == ImmediateExit(ExitSuccess)
      && RunMainLoop !in parent.trace && CreateClipboard !in parent.trace
      && (forall h :: CreateHelper(h) !in parent.trace)
      && parent.trace == Startup(env) + [Fork] && parent.trace[|parent.trace| - 1] == Fork
      && parent.autostart == Reconciled(disk, env.resumed)
    ensures var parent := Lifecycle(env.(forkReturn := child), haveXrandr, disk);
      var kid := Lifecycle(env.(forkReturn := 0), haveXrandr, disk);
      kid.end == Return(ExitSuccess) && RunMainLoop in kid.trace
      && parent.trace <= kid.trace && parent.autostart == kid.autostart
  {
    var parentEnv := env.(forkReturn := child);
    assert Startup(parentEnv) == Startup(env);
    var parent := Lifecycle(parentEnv, haveXrandr, disk).trace;
    assert parent == Startup(env) + [Fork];
    StartupHostsNothing(env);
    var kidEnv := env.(forkReturn := 0);
    var pre := Startup(kidEnv) + [Fork];
    assert Detach(kidEnv) == [Fork];
    var kid := Lifecycle(kidEnv, haveXrandr, disk).trace;
    Associative(pre, Creation(haveXrandr, kidEnv), [RunMainLoop]);
    Associative(pre, Creation(haveXrandr, kidEnv) + [RunMainLoop], Teardown(haveXrandr, kidEnv.clipboardStarts));
    assert kid[..|pre|] == pre;
  }

  /** A failed fork is reported and the original process carries on. */
  lemma ForkFailureKeepsRunning(env: Env, haveXrandr: bool, disk: RcBacking)
    requires PastXfconf(env) && !env.optDebug && env.forkReturn == -1
    ensures var r := Lifecycle(env, haveXrandr, disk);
      WarnForkFailed in r.trace && RunMainLoop in r.trace && r.end == Return(ExitSuccess)
  {
  }

  /** In debug mode the process never forks and reaches the sub-daemons itself. */
  lemma DebugNeverForks(env: Env, haveXrandr: bool, disk: RcBacking)
    requires env.optDebug
    ensures Fork !in Lifecycle(env, haveXrandr, disk).trace
    ensures PastXfconf(env) ==> RunMainLoop in Lifecycle(env, haveXrandr, disk).trace
  {
    if PastXfconf(env) {
      var hs := HelperOrder(haveXrandr);
      QuietEventsAbsentFromHelpers(hs, Fork);
      assert Installs(Signums) == [InstallHandler(SigQuit), InstallHandler(SigTerm)];
      var pre := Startup(env) + Detach(env);
      var made := Creation(haveXrandr, env);
      var down := Teardown(haveXrandr, env.clipboardStarts);
      assert Fork !in pre && Fork !in made && Fork !in down;
      assert Lifecycle(env, haveXrandr, disk).trace == pre + made + [RunMainLoop] + down;
    }
  }
}
