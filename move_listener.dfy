/**
 * The repository listener that reacts to moved assets and pages
 * (SampleAEMAssetOrPageMoveListener): its subscription lifecycle (activate /
 * deactivate over the `session` and `observationManager` fields) and the batch
 * processor `onEvent`, which turns moved-node events into reference-update jobs.
 *
 * The repository, the resource resolver, the configuration reader and the job
 * manager are collaborators: they appear as data (what they answer) and as
 * recorded calls (what was asked of them).
 */
module MoveListener {
  import opened Wrappers

  // ===========================================================================
  // Collaborators of onEvent

  /** The job topic constant of the connector; its text is defined outside this model. */
  const JobTopicAssetPageMove: string

  /** The one payload key of a move job. */
  const MovedPathKey: string := "movedAssetOrPagePath"

  /** What `getSampleProps()` returns; a `None` flag is a Java `null` string. */
  datatype SampleConfiguration = SampleConfiguration(updateResourceUrlOnAssetPageMove: Option<string>)

  /** What `adaptTo(SampleConfigReader.class)` returns. */
  datatype SampleConfigReader = SampleConfigReader(sampleProps: Option<SampleConfiguration>)

  /** A resolved resource, as far as this listener looks at it: what it adapts to. */
  datatype Resource = Resource(configReader: Option<SampleConfigReader>)

  /** A delivered event: its path, or an event whose `getPath()` raises `RepositoryException`. */
  datatype MoveEvent = Moved(path: string) | PathUnreadable

  /** A job handed to the job manager. */
  datatype Job = Job(topic: string, properties: map<string, string>)

  function MoveJob(path: string): (j: Job)
    ensures j.topic == JobTopicAssetPageMove
    ensures j.properties.Keys == {MovedPathKey} && j.properties[MovedPathKey] == path
  {
    Job(JobTopicAssetPageMove, map[MovedPathKey := path])
  }

  /** Which lookup came back `null` and ended the batch. */
  datatype Miss = NoResource | NoConfigReader | NoSampleProps

  /** What the loop body does with one event. */
  datatype Decision =
    | Dispatch(path: string)  // a job is added
    | Ignore                  // the flag is not "true": nothing happens, next event
    | Skip                    // RepositoryException caught: next event
    | Abort(miss: Miss)       // resolver closed, method returns
    | Crash                   // the flag is null: `.equals` throws, the exception leaves onEvent

  predicate Halts(d: Decision) {
    d.Abort? || d.Crash?
  }

  /**
   * The loop body for one event, given the resources the resolver can see.
   * A job is added exactly when the path resolves, the resource adapts to a reader,
   * the reader has properties and their flag is the string "true".
   */
  function Decide(tree: map<string, Resource>, e: MoveEvent): (d: Decision)
    ensures d.Dispatch? <==>
      && e.Moved? && e.path in tree
      && tree[e.path].configReader.Some?
      && tree[e.path].configReader.value.sampleProps.Some?
      && tree[e.path].configReader.value.sampleProps.value.updateResourceUrlOnAssetPageMove == Some("true")
    ensures d.Dispatch? ==> d.path == e.path
    ensures d == Skip <==> e == PathUnreadable
    ensures d == Abort(NoResource) <==> e.Moved? && e.path !in tree
    ensures d == Abort(NoConfigReader) <==> e.Moved? && e.path in tree && tree[e.path].configReader.None?
    ensures d == Abort(NoSampleProps) <==>
      && e.Moved? && e.path in tree
      && tree[e.path].configReader.Some?
      && tree[e.path].configReader.value.sampleProps.None?
    ensures d == Crash <==>
      && e.Moved? && e.path in tree
      && tree[e.path].configReader.Some?
      && tree[e.path].configReader.value.sampleProps.Some?
      && tree[e.path].configReader.value.sampleProps.value.updateResourceUrlOnAssetPageMove.None?
    ensures d == Ignore <==>
      && e.Moved? && e.path in tree
      && tree[e.path].configReader.Some?
      && tree[e.path].configReader.value.sampleProps.Some?
      && tree[e.path].configReader.value.sampleProps.value.updateResourceUrlOnAssetPageMove.Some?
      && tree[e.path].configReader.value.sampleProps.value.updateResourceUrlOnAssetPageMove.value != "true"
  {
    match e
    case PathUnreadable => Skip
    case Moved(path) =>
      if path !in tree then Abort(NoResource)
      else match tree[path].configReader
        case None => Abort(NoConfigReader)
        case Some(reader) =>
          match reader.sampleProps
          case None => Abort(NoSampleProps)
          case Some(props) =>
            match props.updateResourceUrlOnAssetPageMove
            case None => Crash
            case Some(flag) => if flag == "true" then Dispatch(path) else Ignore
  }

  // ===========================================================================
  // Specification of one batch

  /** How a batch that got a resolver ended, with the index of the event that ended it. */
  datatype Stop = Exhausted | Aborted(at: nat, miss: Miss) | Crashed(at: nat)

  datatype BatchRun = BatchRun(jobs: seq<Job>, stop: Stop)

  /** What onEvent reports: no resolver at all, or how the batch ended. */
  datatype EventOutcome = NoResolver | Processed(stop: Stop)

  /** The stop that a halting decision at index `k` produces. */
  function StopAt(d: Decision, k: nat): Stop
    requires Halts(d)
  {
    if d.Abort? then Aborted(k, d.miss) else Crashed(k)
  }

  /** One turn of the loop, on event number `k` with decision `d`, after the turns before it produced `prev`. */
  function Step(prev: BatchRun, d: Decision, k: nat): BatchRun {
    if !prev.stop.Exhausted? then prev
    else if d.Dispatch? then BatchRun(prev.jobs + [MoveJob(d.path)], Exhausted)
    else if Halts(d) then BatchRun(prev.jobs, StopAt(d, k))
    else prev
  }

  /** The loop of onEvent over the events seen so far, one event at a time. */
  function Run(tree: map<string, Resource>, es: seq<MoveEvent>): (r: BatchRun)
    ensures Examined(r.stop, |es|) <= |es|
    ensures |r.jobs| <= Examined(r.stop, |es|)
    decreases |es|
  {
    if es == [] then BatchRun([], Exhausted)
    else Step(Run(tree, es[..|es| - 1]), Decide(tree, es[|es| - 1]), |es| - 1)
  }

  lemma RunPrefixStep(tree: map<string, Resource>, es: seq<MoveEvent>, i: nat)
    requires i < |es|
    ensures Run(tree, es[..i + 1]) == Step(Run(tree, es[..i]), Decide(tree, es[i]), i)
  {
    assert es[..i + 1][..i] == es[..i];
  }

  /** Number of events examined before the batch stopped (the stopping event excluded). */
  function Examined(stop: Stop, n: nat): nat {
    match stop
    case Exhausted => n
    case Aborted(k, _) => k
    case Crashed(k) => k
  }

  /** Whether the resolver is closed at the end: on every exit except the uncaught exception. */
  predicate ClosesResolver(stop: Stop) {
    !stop.Crashed?
  }

  /** Reference definition: the jobs of the events that dispatch, in delivery order. */
  function Dispatched(tree: map<string, Resource>, es: seq<MoveEvent>): seq<Job> {
    if es == [] then []
    else
      var d := Decide(tree, es[0]);
      (if d.Dispatch? then [MoveJob(d.path)] else []) + Dispatched(tree, es[1..])
  }

  lemma {:induction false} DispatchedAppend(tree: map<string, Resource>, xs: seq<MoveEvent>, ys: seq<MoveEvent>)
    ensures Dispatched(tree, xs + ys) == Dispatched(tree, xs) + Dispatched(tree, ys)
  {
    if xs != [] {
      var head: seq<Job> := if Decide(tree, xs[0]).Dispatch? then [MoveJob(xs[0].path)] else [];
      assert (xs + ys)[0] == xs[0];
      assert (xs + ys)[1..] == xs[1..] + ys;
      assert Dispatched(tree, xs + ys) == head + Dispatched(tree, xs[1..] + ys);
      DispatchedAppend(tree, xs[1..], ys);
    } else {
      assert xs + ys == ys;
    }
  }

  /**
   * The batch stops at the first event whose decision halts it and nowhere else:
   * every earlier event was examined and did not halt, and the stop names the
   * halting event and its reason.
   */
  lemma {:induction false} RunStopsAtFirstHalt(tree: map<string, Resource>, es: seq<MoveEvent>)
    ensures forall i :: 0 <= i < Examined(Run(tree, es).stop, |es|) ==> !Halts(Decide(tree, es[i]))
    ensures Run(tree, es).stop.Exhausted? <==> forall i :: 0 <= i < |es| ==> !Halts(Decide(tree, es[i]))
    ensures !Run(tree, es).stop.Exhausted? ==>
      var k := Examined(Run(tree, es).stop, |es|);
      k < |es| && Halts(Decide(tree, es[k])) && Run(tree, es).stop == StopAt(Decide(tree, es[k]), k)
    decreases |es|
  {
    if es != [] {
      var front := es[..|es| - 1];
      RunStopsAtFirstHalt(tree, front);
      assert forall i :: 0 <= i < |front| ==> front[i] == es[i];
    }
  }

  /** The jobs of a batch are exactly the dispatching events among those examined, in order. */
  lemma {:induction false} RunJobsAreDispatched(tree: map<string, Resource>, es: seq<MoveEvent>)
    ensures Run(tree, es).jobs == Dispatched(tree, es[..Examined(Run(tree, es).stop, |es|)])
    decreases |es|
  {
    if es != [] {
      var front := es[..|es| - 1];
      var prev := Run(tree, front);
      RunJobsAreDispatched(tree, front);
      RunStopsAtFirstHalt(tree, front);
      if prev.stop.Exhausted? {
        var e := es[|es| - 1];
        assert front[..|front|] == front;
        DispatchedAppend(tree, front, [e]);
        assert es[..|es|] == front + [e];
        assert es[..|es| - 1] == front;
      } else {
        var k := Examined(prev.stop, |front|);
        assert es[..k] == front[..k];
      }
    }
  }

  /** At most one job per event, each with the move topic and the single path key. */
  lemma {:induction false} DispatchedJobsWellFormed(tree: map<string, Resource>, es: seq<MoveEvent>)
    ensures |Dispatched(tree, es)| <= |es|
    ensures forall j :: j in Dispatched(tree, es) ==>
      j.topic == JobTopicAssetPageMove && j.properties.Keys == {MovedPathKey}
      && Moved(j.properties[MovedPathKey]) in es
  {
    if es != [] {
      DispatchedJobsWellFormed(tree, es[1..]);
      assert forall e :: e in es[1..] ==> e in es;
    }
  }

  /** Once the batch has stopped, later events change nothing: the jobs added before stay, none is added. */
  lemma {:induction false} StoppedRunIsFinal(tree: map<string, Resource>, es: seq<MoveEvent>, k: nat)
    requires k <= |es|
    requires !Run(tree, es[..k]).stop.Exhausted?
    ensures Run(tree, es) == Run(tree, es[..k])
    decreases |es|
  {
    if k < |es| {
      var front := es[..|es| - 1];
      assert front[..k] == es[..k];
      StoppedRunIsFinal(tree, front, k);
    } else {
      assert es[..k] == es;
    }
  }

  /** A miss or a null flag at event `i`, after the events before it ran through, ends the batch right there. */
  lemma RunHaltsAt(tree: map<string, Resource>, es: seq<MoveEvent>, i: nat)
    requires i < |es|
    requires Run(tree, es[..i]).stop.Exhausted?
    requires Halts(Decide(tree, es[i]))
    ensures Run(tree, es) == BatchRun(Run(tree, es[..i]).jobs, StopAt(Decide(tree, es[i]), i))
  {
    RunPrefixStep(tree, es, i);
    StoppedRunIsFinal(tree, es, i + 1);
  }

  /** A batch that runs through `xs` hands over to `ys` as if `ys` were a batch of its own. */
  lemma {:induction false} RunAppend(tree: map<string, Resource>, xs: seq<MoveEvent>, ys: seq<MoveEvent>)
    requires Run(tree, xs).stop.Exhausted?
    ensures Run(tree, xs + ys).jobs == Run(tree, xs).jobs + Run(tree, ys).jobs
    ensures Run(tree, xs + ys).stop.Exhausted? == Run(tree, ys).stop.Exhausted?
    decreases |ys|
  {
    if ys == [] {
      assert xs + ys == xs;
    } else {
      var yfront := ys[..|ys| - 1];
      assert (xs + ys)[..|xs + ys| - 1] == xs + yfront;
      RunAppend(tree, xs, yfront);
    }
  }

  /**
   * The asymmetry of the loop, as two facts about splicing a batch: an event whose
   * path cannot be read is as if it were not there, while a lookup miss discards
   * everything delivered after it.
   */
  lemma UnreadableEventIsSkipped(tree: map<string, Resource>, xs: seq<MoveEvent>, ys: seq<MoveEvent>)
    ensures Run(tree, xs + [PathUnreadable] + ys).jobs == Run(tree, xs + ys).jobs
    ensures Run(tree, xs + [PathUnreadable] + ys).stop.Exhausted? == Run(tree, xs + ys).stop.Exhausted?
  {
    var zs := xs + [PathUnreadable];
    assert zs[..|zs| - 1] == xs;
    if Run(tree, xs).stop.Exhausted? {
      assert Run(tree, zs) == Run(tree, xs);
      RunAppend(tree, zs, ys);
      RunAppend(tree, xs, ys);
    } else {
      assert (zs + ys)[..|xs|] == xs && (xs + ys)[..|xs|] == xs;
      StoppedRunIsFinal(tree, zs + ys, |xs|);
      StoppedRunIsFinal(tree, xs + ys, |xs|);
    }
  }

  lemma MissDiscardsRest(tree: map<string, Resource>, xs: seq<MoveEvent>, p: string, ys: seq<MoveEvent>)
    requires Run(tree, xs).stop.Exhausted?
    requires Decide(tree, Moved(p)).Abort?
    ensures Run(tree, xs + [Moved(p)] + ys) == BatchRun(Run(tree, xs).jobs, Aborted(|xs|, Decide(tree, Moved(p)).miss))
  {
    var zs := xs + [Moved(p)];
    assert zs[..|zs| - 1] == xs;
    assert (zs + ys)[..|zs|] == zs;
    StoppedRunIsFinal(tree, zs + ys, |zs|);
  }

  // ===========================================================================
  // Collaborators of activate / deactivate

  /** The checked exceptions of the lifecycle: LoginException, UnsupportedRepositoryOperationException, RepositoryException. */
  datatype RepositoryFailure = LoginFailure | UnsupportedOperation | RepositoryError

  /** An observation manager, told apart from others by its identity. */
  datatype ObservationManager = ObservationManager(id: nat)

  /** A workspace and what `getObservationManager()` answers. */
  datatype Workspace = Workspace(observationManager: Result<ObservationManager, RepositoryFailure>)

  /** A service session and what `getWorkspace()` answers (`None` for null). */
  datatype Session = Session(id: nat, workspace: Option<Workspace>)

  /** javax.jcr.observation.Event.NODE_MOVED */
  const NodeMoved: int := 0x20

  const NtSlingOrderedFolder: string := "sling:OrderedFolder"
  const NtSlingFolder: string := "sling:Folder"
  const NtFolder: string := "nt:folder"
  const NtPage: string := "cq:Page"

  datatype EventFilter = EventFilter(
    absPath: string,
    eventTypes: int,
    isDeep: bool,
    noLocal: bool,
    nodeTypes: seq<string>,
    noExternal: bool)

  /** The filter activate registers: moves of folders and pages anywhere under /content, from other sessions of this cluster node. */
  function MoveFilter(): (f: EventFilter)
    ensures f.absPath == "/content" && f.eventTypes == NodeMoved && f.isDeep
    ensures f.noLocal && f.noExternal
    ensures f.nodeTypes == [NtSlingOrderedFolder, NtSlingFolder, NtFolder, NtPage]
  {
    EventFilter("/content", NodeMoved, true, true, [NtSlingOrderedFolder, NtSlingFolder, NtFolder, NtPage], true)
  }

  /** A call this listener makes into the repository during its lifecycle. */
  datatype RepositoryCall =
    | AddEventListener(manager: ObservationManager, filter: EventFilter)
    | RemoveEventListener(manager: ObservationManager)
    | Logout(session: Session)

  /** The two fields of the listener. */
  datatype Lifecycle = Lifecycle(session: Option<Session>, observationManager: Option<ObservationManager>)

  datatype Transition = Transition(state: Lifecycle, calls: seq<RepositoryCall>)

  /**
   * activate: log in; on success store the session; if its workspace is non-null,
   * store the observation manager and register with MoveFilter. A checked
   * exception at any step is swallowed and leaves the fields as they were set so far.
   */
  function Activation(st: Lifecycle, login: Result<Session, RepositoryFailure>): (t: Transition)
    ensures t.state.session == (if login.Success? then Some(login.value) else st.session)
    ensures t.calls != [] <==>
      login.Success? && login.value.workspace.Some? && login.value.workspace.value.observationManager.Success?
    ensures t.calls != [] ==>
      t.calls == [AddEventListener(login.value.workspace.value.observationManager.value, MoveFilter())]
      && t.state.observationManager == Some(login.value.workspace.value.observationManager.value)
    ensures t.calls == [] ==> t.state.observationManager == st.observationManager
  {
    match login
    case Failure(_) => Transition(st, [])
    case Success(s) =>
      match s.workspace
      case None => Transition(Lifecycle(Some(s), st.observationManager), [])
      case Some(ws) =>
        match ws.observationManager
        case Failure(_) => Transition(Lifecycle(Some(s), st.observationManager), [])
        case Success(om) => Transition(Lifecycle(Some(s), Some(om)), [AddEventListener(om, MoveFilter())])
  }

  /** Occurrences of a logout in a call sequence. */
  function Logouts(calls: seq<RepositoryCall>): nat {
    if calls == [] then 0 else (if calls[0].Logout? then 1 else 0) + Logouts(calls[1..])
  }

  /**
   * deactivate: remove the listener if a manager is set, then, whether or not
   * removal threw, log out a set session. The fields are left as they are.
   */
  function Deactivation(st: Lifecycle): (calls: seq<RepositoryCall>)
    ensures (exists m :: RemoveEventListener(m) in calls) <==> st.observationManager.Some?
    ensures (exists s :: Logout(s) in calls) <==> st.session.Some?
    ensures st.observationManager.Some? ==> calls[0] == RemoveEventListener(st.observationManager.value)
    ensures st.session.Some? ==> calls[|calls| - 1] == Logout(st.session.value)
    ensures Logouts(calls) == (if st.session.Some? then 1 else 0)
    ensures |calls| == (if st.observationManager.Some? then 1 else 0) + (if st.session.Some? then 1 else 0)
  {
    var remove := if st.observationManager.Some? then [RemoveEventListener(st.observationManager.value)] else [];
    var logout := if st.session.Some? then [Logout(st.session.value)] else [];
    LogoutsAppend(remove, logout);
    remove + logout
  }

  lemma {:induction false} LogoutsAppend(xs: seq<RepositoryCall>, ys: seq<RepositoryCall>)
    ensures Logouts(xs + ys) == Logouts(xs) + Logouts(ys)
  {
    if xs != [] {
      assert (xs + ys)[0] == xs[0];
      assert (xs + ys)[1..] == xs[1..] + ys;
      assert Logouts(xs + ys) == (if xs[0].Logout? then 1 else 0) + Logouts(xs[1..] + ys);
      LogoutsAppend(xs[1..], ys);
    } else {
      assert xs + ys == ys;
    }
  }

  /**
   * A freshly created listener, activated then deactivated: the session obtained
   * at login is logged out exactly once (never if login failed), and a listener
   * that was registered on a manager is removed from that same manager, even when
   * removal throws.
   */
  lemma LifecyclePairing(login: Result<Session, RepositoryFailure>)
    ensures var t := Activation(Lifecycle(None, None), login);
      && Logouts(t.calls + Deactivation(t.state)) == (if login.Success? then 1 else 0)
      && (login.Success? ==> Logout(login.value) in Deactivation(t.state))
      && forall m, f :: AddEventListener(m, f) in t.calls ==> RemoveEventListener(m) in Deactivation(t.state)
  {
    var t := Activation(Lifecycle(None, None), login);
    var d := Deactivation(t.state);
    LogoutsAppend(t.calls, d);
    assert Logouts(t.calls) == 0;
  }

  /** A stored observation manager always comes with a stored session, and activate keeps it so. */
  lemma ActivationKeepsManagerWithSession(st: Lifecycle, login: Result<Session, RepositoryFailure>)
    requires st.observationManager.Some? ==> st.session.Some?
    ensures var t := Activation(st, login); t.state.observationManager.Some? ==> t.state.session.Some?
  {
  }

  // ===========================================================================
  // The stateful objects

  /** The job manager: `addJob` queues a job; the queue is recorded, its execution is not modelled. */
  class JobManager {
    ghost var jobs: seq<Job>

    constructor ()
      ensures jobs == []
    {
      jobs := [];
    }

    method AddJob(topic: string, properties: map<string, string>)
      modifies this
      ensures jobs == old(jobs) + [Job(topic, properties)]
    {
      jobs := jobs + [Job(topic, properties)];
    }
  }

  /** A service resource resolver: the resources it resolves, and how often it has been closed. */
  class ResourceResolver {
    const tree: map<string, Resource>
    ghost var closeCount: nat

    constructor (tree: map<string, Resource>)
      ensures this.tree == tree && closeCount == 0
    {
      this.tree := tree;
      closeCount := 0;
    }

    method Close()
      modifies this
      ensures closeCount == old(closeCount) + 1
    {
      closeCount := closeCount + 1;
    }
  }

  class AssetOrPageMoveListener {
    const jobManager: JobManager
    var session: Option<Session>
    var observationManager: Option<ObservationManager>
    /** The calls made into the repository by activate and deactivate, oldest first. */
    ghost var repositoryCalls: seq<RepositoryCall>

    ghost function State(): Lifecycle
      reads this
    {
      Lifecycle(session, observationManager)
    }

    constructor (jobManager: JobManager)
      ensures this.jobManager == jobManager
      ensures session == None && observationManager == None && repositoryCalls == []
    {
      this.jobManager := jobManager;
      session := None;
      observationManager := None;
      repositoryCalls := [];
    }

    /**
     * Handle one batch. `resolver` is what the service-user lookup returned (null when
     * none could be obtained). The jobs added and the resolver's closing follow Run.
     */
    method OnEvent(events: seq<MoveEvent>, resolver: ResourceResolver?) returns (outcome: EventOutcome)
      modifies jobManager, resolver
      ensures resolver == null ==> outcome == NoResolver && jobManager.jobs == old(jobManager.jobs)
      ensures resolver != null ==>
        var run := Run(resolver.tree, events);
        && outcome == Processed(run.stop)
        && jobManager.jobs == old(jobManager.jobs) + run.jobs
        && resolver.closeCount == old(resolver.closeCount) + (if ClosesResolver(run.stop) then 1 else 0)
    {
      if resolver == null {
        return NoResolver;
      }
      var tree := resolver.tree;
      var i := 0;
      while i < |events|
        invariant 0 <= i <= |events|
        invariant Run(tree, events[..i]).stop == Exhausted
        invariant jobManager.jobs == old(jobManager.jobs) + Run(tree, events[..i]).jobs
        invariant resolver.closeCount == old(resolver.closeCount)
      {
        var event := events[i];
        match event {
        case PathUnreadable =>
          // RepositoryException from getPath(): caught, next event
        case Moved(path) =>
          if path !in tree {
            resolver.Close();
            outcome := Processed(Aborted(i, NoResource));
            RunHaltsAt(tree, events, i);
            return;
          }
          var config := tree[path].configReader;
          if config.None? {
            resolver.Close();
            outcome := Processed(Aborted(i, NoConfigReader));
            RunHaltsAt(tree, events, i);
            return;
          }
          var sampleConfig := config.value.sampleProps;
          if sampleConfig.None? {
            resolver.Close();
            outcome := Processed(Aborted(i, NoSampleProps));
            RunHaltsAt(tree, events, i);
            return;
          }
          var flag := sampleConfig.value.updateResourceUrlOnAssetPageMove;
          if flag.None? {
            // NullPointerException from `.equals`: not caught, the resolver stays open
            outcome := Processed(Crashed(i));
            RunHaltsAt(tree, events, i);
            return;
          }
          if flag.value == "true" {
            jobManager.AddJob(JobTopicAssetPageMove, map[MovedPathKey := path]);
          }
        }
        RunPrefixStep(tree, events, i);
        i := i + 1;
      }
      assert events[..i] == events;
      resolver.Close();
      outcome := Processed(Exhausted);
    }

    /** activate, with the outcome of the service login as input. */
    method Activate(login: Result<Session, RepositoryFailure>)
      modifies this
      ensures State() == Activation(old(State()), login).state
      ensures repositoryCalls == old(repositoryCalls) + Activation(old(State()), login).calls
    {
      if login.Failure? {
        return;  // LoginException or RepositoryException from loginService: logged
      }
      session := Some(login.value);
      var filter := MoveFilter();
      var workspace := login.value.workspace;
      if workspace.Some? {
        var manager := workspace.value.observationManager;
        if manager.Failure? {
          return;  // UnsupportedRepositoryOperationException or RepositoryException: logged
        }
        observationManager := Some(manager.value);
        repositoryCalls := repositoryCalls + [AddEventListener(manager.value, filter)];
        // a failing addEventListener throws RepositoryException, which is logged
      }
    }

    /** deactivate: the `finally` block logs out whatever session is set. */
    method Deactivate()
      modifies this
      ensures State() == old(State())
      ensures repositoryCalls == old(repositoryCalls) + Deactivation(old(State()))
    {
      if observationManager.Some? {
        repositoryCalls := repositoryCalls + [RemoveEventListener(observationManager.value)];
        // a failing removeEventListener throws RepositoryException, which is logged
      }
      if session.Some? {
        repositoryCalls := repositoryCalls + [Logout(session.value)];
      }
    }
  }
}
