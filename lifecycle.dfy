/** The server lifecycle: the two module globals `server_url` and
    `server_thread`, the callbacks that start and stop the web server, the
    status text and the toggle button that dispatches between them.

    Every library call (creating and starting the thread, opening and
    closing the tunnel, the HTTP requests) is an oracle outcome passed in
    by the caller: it returns a value or raises. Each call that is
    attempted is recorded in a log, so that "no new thread or tunnel" can
    be stated. */
module Lifecycle {
  import opened Wrappers

  /** The tunnel object `ngrok.connect` returns, as the text it formats to. */
  type Url = string

  /** A `threading.Thread` object. */
  type ThreadId = nat

  /** The port the web server listens on and the tunnel forwards to. */
  const Port := 5000
  const StopEndpoint := "http://localhost:5000/stop-server"
  const EndSessionEndpoint := "http://localhost:5000/end-session"

  const NotRunning := "Server is not running."
  const StoppedOk := "Server stopped successfully."

  function StartedAt(u: Url): string { "Server started at " + u }
  function AlreadyRunningAt(u: Url): string { "Server is already running at " + u }
  function RunningAt(u: Url): string { "Server is running at " + u }
  function StartError(e: string): string { "Error starting server: " + e }
  function StopError(e: string): string { "Error stopping server: " + e }

  /** A call into a library, recorded whether it returned or raised. */
  datatype Call =
    | NewThread                 // threading.Thread(target=run_server, daemon=True)
    | StartThread(t: ThreadId)  // server_thread.start()
    | Connect(port: int)        // ngrok.connect(port)
    | Disconnect(url: Url)      // ngrok.disconnect(server_url)
    | Post(endpoint: string)    // requests.post(endpoint)

  /** The two globals; None is Python's None. */
  datatype State = State(url: Option<Url>, thread: Option<ThreadId>)

  /** Both globals as the module initialises them. */
  const Initial := State(None, None)

  /** The invariant the code keeps: a public address implies a worker
      handle, because start assigns the thread before the address and stop
      clears the address before the thread. */
  predicate Consistent(s: State) {
    s.url.Some? ==> s.thread.Some?
  }

  /** The stronger reading "the address is present exactly when the worker
      handle is", which an exception in mid-transition breaks. */
  predicate Settled(s: State) {
    s.url.Some? <==> s.thread.Some?
  }

  /** Outcomes of the library calls `start_flask_server` may make. */
  datatype StartOracle = StartOracle(spawn: Attempt<ThreadId>, launch: Attempt<()>, connect: Attempt<Url>)

  /** Outcomes of the library calls `stop_flask_server` may make. */
  datatype StopOracle = StopOracle(disconnect: Attempt<()>, post: Attempt<()>)

  /** One callback: the new globals, the text returned, the calls made. */
  datatype Step = Step(next: State, message: string, calls: seq<Call>)

  /** `start_flask_server`. */
  function StartStep(s: State, o: StartOracle): (r: Step)
    ensures Consistent(s) ==> Consistent(r.next)
    ensures r.next.url == s.url || (s.url.None? && r.next.url.Some? && r.next.thread.Some?)
  {
    if s.url.None? then
      match o.spawn
      case Raised(e) => Step(s, StartError(e), [NewThread])
      case Returned(t) =>
        var withThread := s.(thread := Some(t));
        match o.launch
        case Raised(e) => Step(withThread, StartError(e), [NewThread, StartThread(t)])
        case Returned(_) =>
          match o.connect
          case Raised(e) => Step(withThread, StartError(e), [NewThread, StartThread(t), Connect(Port)])
          case Returned(u) =>
            Step(withThread.(url := Some(u)), StartedAt(u), [NewThread, StartThread(t), Connect(Port)])
    else
      Step(s, AlreadyRunningAt(s.url.value), [])
  }

  /** `stop_flask_server`. */
  function StopStep(s: State, o: StopOracle): (r: Step)
    ensures Consistent(s) ==> Consistent(r.next)
    ensures r.next.url == s.url || r.next.url.None?
    ensures r.next.thread == s.thread || r.next.thread.None?
  {
    if s.url.Some? then
      match o.disconnect
      case Raised(e) => Step(s, StopError(e), [Disconnect(s.url.value)])
      case Returned(_) =>
        var cleared := s.(url := None);
        if cleared.thread.Some? then
          match o.post
          case Raised(e) => Step(cleared, StopError(e), [Disconnect(s.url.value), Post(StopEndpoint)])
          case Returned(_) =>
            Step(cleared.(thread := None), StoppedOk, [Disconnect(s.url.value), Post(StopEndpoint)])
        else
          Step(cleared, StoppedOk, [Disconnect(s.url.value)])
    else
      Step(s, NotRunning, [])
  }

  /** `get_server_status`. */
  function StatusOf(s: State): (text: string)
    ensures text == NotRunning <==> s.url.None?
  {
    if s.url.Some? then
      assert RunningAt(s.url.value)[10] != NotRunning[10];
      RunningAt(s.url.value)
    else NotRunning
  }

  /** `toggle_server`: stop when an address is recorded, start otherwise. */
  function ToggleStep(s: State, start: StartOracle, stop: StopOracle): (r: Step)
    ensures Consistent(s) ==> Consistent(r.next)
  {
    if s.url.Some? then StopStep(s, stop) else StartStep(s, start)
  }

  /** Start while running reports the recorded address and changes nothing:
      no thread is created and no tunnel opened. */
  lemma StartWhenRunning(s: State, o: StartOracle)
    requires s.url.Some?
    ensures StartStep(s, o) == Step(s, AlreadyRunningAt(s.url.value), [])
  {
  }

  /** Stop while stopped reports "not running" and changes nothing. */
  lemma StopWhenStopped(s: State, o: StopOracle)
    requires s.url.None?
    ensures StopStep(s, o) == Step(s, NotRunning, [])
  {
  }

  /** A start whose three calls all return records both globals. */
  lemma StartSucceeds(s: State, t: ThreadId, u: Url)
    requires s.url.None?
    ensures StartStep(s, StartOracle(Returned(t), Returned(()), Returned(u))) ==
            Step(State(Some(u), Some(t)), StartedAt(u), [NewThread, StartThread(t), Connect(Port)])
  {
  }

  /** A stop whose calls return clears both globals, from any consistent
      running state. */
  lemma StopSucceeds(s: State)
    requires Consistent(s) && s.url.Some?
    ensures StopStep(s, StopOracle(Returned(()), Returned(()))) ==
            Step(Initial, StoppedOk, [Disconnect(s.url.value), Post(StopEndpoint)])
  {
  }

  /** The status text says "not running" exactly when no address is
      recorded, and names the address otherwise. */
  lemma StatusTracksUrl(s: State)
    ensures StatusOf(s) == NotRunning <==> s.url.None?
    ensures s.url.Some? ==> StatusOf(s) == RunningAt(s.url.value)
  {
    if s.url.Some? {
      assert RunningAt(s.url.value)[..7] == "Server ";
      assert RunningAt(s.url.value)[10] != NotRunning[10];
    }
  }

  /** A successful start followed by a successful stop returns both globals
      to None, and the status text follows: running at the new address,
      then not running. */
  lemma StartThenStop(s: State, t: ThreadId, u: Url)
    requires s.url.None?
    ensures var up := StartStep(s, StartOracle(Returned(t), Returned(()), Returned(u))).next;
            var down := StopStep(up, StopOracle(Returned(()), Returned(()))).next;
            up == State(Some(u), Some(t)) && StatusOf(up) == RunningAt(u) &&
            down == Initial && StatusOf(down) == NotRunning
  {
    StartSucceeds(s, t, u);
    StopSucceeds(State(Some(u), Some(t)));
  }

  /** The toggle's first library call is the tunnel disconnect exactly when
      an address is recorded (it stops), and the thread creation otherwise
      (it starts). */
  lemma ToggleDispatch(s: State, start: StartOracle, stop: StopOracle)
    ensures var calls := ToggleStep(s, start, stop).calls;
            calls != [] &&
            (s.url.Some? <==> calls[0].Disconnect?) &&
            (s.url.Some? ==> calls[0] == Disconnect(s.url.value)) &&
            (s.url.None? <==> calls[0] == NewThread)
  {
  }

  /** An exception after the thread is assigned leaves a worker handle
      without an address: the globals are consistent but no longer
      settled, and the handle is not running a reachable server. */
  lemma StartPartialUpdate(s: State, o: StartOracle)
    requires s.url.None? && o.spawn.Returned?
    requires o.launch.Raised? || o.connect.Raised?
    ensures StartStep(s, o).next == State(None, Some(o.spawn.value))
    ensures !Settled(StartStep(s, o).next)
    ensures StartStep(s, o).message ==
            StartError(if o.launch.Raised? then o.launch.error else o.connect.error)
  {
  }

  /** An exception from creating the thread is caught before either global
      is assigned: both stay as they were and the error text is returned. */
  lemma StartSpawnFails(s: State, o: StartOracle)
    requires s.url.None? && o.spawn.Raised?
    ensures StartStep(s, o) == Step(s, StartError(o.spawn.error), [NewThread])
  {
  }

  /** An exception from the shutdown request leaves the worker handle set
      with the address already cleared. */
  lemma StopPartialUpdate(s: State, o: StopOracle)
    requires s.url.Some? && s.thread.Some?
    requires o.disconnect.Returned? && o.post.Raised?
    ensures StopStep(s, o).next == State(None, s.thread)
    ensures !Settled(StopStep(s, o).next)
    ensures StopStep(s, o).message == StopError(o.post.error)
  {
  }

  /** An exception from closing the tunnel is caught before either global
      is cleared: both stay as they were and the error text is returned. */
  lemma StopDisconnectFails(s: State, o: StopOracle)
    requires s.url.Some? && o.disconnect.Raised?
    ensures StopStep(s, o) == Step(s, StopError(o.disconnect.error), [Disconnect(s.url.value)])
  {
  }

  /** A start after a partial one replaces the old worker handle without
      stopping it. */
  lemma StartDropsStaleThread(stale: ThreadId, t: ThreadId, u: Url)
    ensures StartStep(State(None, Some(stale)), StartOracle(Returned(t), Returned(()), Returned(u))).next ==
            State(Some(u), Some(t))
  {
  }

  /** What the user can do from the control panel: the toggle button and
      the "End Session" button, which stops the server first. */
  datatype Action =
    | ToggleAction(start: StartOracle, stop: StopOracle)
    | EndSessionAction(stop: StopOracle)

  /** The globals after one callback. */
  function Apply(s: State, a: Action): (r: State)
    ensures Consistent(s) ==> Consistent(r)
  {
    match a
    case ToggleAction(start, stop) => ToggleStep(s, start, stop).next
    case EndSessionAction(stop) => StopStep(s, stop).next
  }

  /** The globals after a sequence of callbacks, run one at a time. */
  function Run(s: State, actions: seq<Action>): State
    decreases |actions|
  {
    if actions == [] then s else Run(Apply(s, actions[0]), actions[1..])
  }

  /** Whatever the library calls do, every callback sequence keeps the
      invariant: an address is never recorded without a worker handle. */
  lemma {:induction false} RunKeepsConsistent(s: State, actions: seq<Action>)
    requires Consistent(s)
    ensures Consistent(Run(s, actions))
    decreases |actions|
  {
    if actions != [] {
      RunKeepsConsistent(Apply(s, actions[0]), actions[1..]);
    }
  }

  /** Two successful toggles from the initial state start and stop the
      server and leave both globals as they were. */
  lemma ToggleTwiceRestores(t: ThreadId, u: Url)
    ensures var start := StartOracle(Returned(t), Returned(()), Returned(u));
            var stop := StopOracle(Returned(()), Returned(()));
            Run(Initial, [ToggleAction(start, stop), ToggleAction(start, stop)]) == Initial
  {
    var start := StartOracle(Returned(t), Returned(()), Returned(u));
    var stop := StopOracle(Returned(()), Returned(()));
    StartSucceeds(Initial, t, u);
    StopSucceeds(State(Some(u), Some(t)));
    assert Run(Initial, [ToggleAction(start, stop), ToggleAction(start, stop)]) ==
           Run(State(Some(u), Some(t)), [ToggleAction(start, stop)]);
  }

  /** The two globals as an object whose methods are the callbacks. */
  class Server {
    var url: Option<Url>
    var thread: Option<ThreadId>
    /** Every library call attempted so far. */
    ghost var calls: seq<Call>

    function Snapshot(): State
      reads this
    {
      State(url, thread)
    }

    ghost predicate Valid()
      reads this
    {
      Consistent(Snapshot())
    }

    constructor ()
      ensures Snapshot() == Initial && calls == [] && Valid()
    {
      url := None;
      thread := None;
      calls := [];
    }

    /** `start_flask_server`; a raised exception ends the method early with
        the error text, keeping whatever was already assigned. */
    method Start(o: StartOracle) returns (message: string)
      modifies this
      ensures var step := StartStep(old(Snapshot()), o);
              Snapshot() == step.next && message == step.message &&
              calls == old(calls) + step.calls
      ensures old(Valid()) ==> Valid()
    {
      if url.Some? {
        message := AlreadyRunningAt(url.value);
        return;
      }
      calls := calls + [NewThread];
      if o.spawn.Raised? {
        message := StartError(o.spawn.error);
        return;
      }
      thread := Some(o.spawn.value);
      calls := calls + [StartThread(o.spawn.value)];
      if o.launch.Raised? {
        message := StartError(o.launch.error);
        return;
      }
      calls := calls + [Connect(Port)];
      if o.connect.Raised? {
        message := StartError(o.connect.error);
        return;
      }
      url := Some(o.connect.value);
      message := StartedAt(o.connect.value);
    }

    /** `stop_flask_server`. */
    method Stop(o: StopOracle) returns (message: string)
      modifies this
      ensures var step := StopStep(old(Snapshot()), o);
              Snapshot() == step.next && message == step.message &&
              calls == old(calls) + step.calls
      ensures old(Valid()) ==> Valid()
    {
      if url.None? {
        message := NotRunning;
        return;
      }
      calls := calls + [Disconnect(url.value)];
      if o.disconnect.Raised? {
        message := StopError(o.disconnect.error);
        return;
      }
      url := None;
      if thread.Some? {
        calls := calls + [Post(StopEndpoint)];
        if o.post.Raised? {
          message := StopError(o.post.error);
          return;
        }
        thread := None;
      }
      message := StoppedOk;
    }

    /** `get_server_status`. */
    method Status() returns (text: string)
      ensures text == StatusOf(Snapshot())
      ensures text == NotRunning <==> url.None?
    {
      StatusTracksUrl(Snapshot());
      if url.Some? {
        text := RunningAt(url.value);
      } else {
        text := NotRunning;
      }
    }

    /** `toggle_server`: the callback's text, then the status read after it. */
    method Toggle(start: StartOracle, stop: StopOracle) returns (message: string, status: string)
      modifies this
      ensures var step := ToggleStep(old(Snapshot()), start, stop);
              Snapshot() == step.next && message == step.message &&
              status == StatusOf(step.next) && calls == old(calls) + step.calls
      ensures old(Valid()) ==> Valid()
    {
      if url.Some? {
        message := Stop(stop);
      } else {
        message := Start(start);
      }
      status := Status();
    }

    /** The control panel's "End Session" button: stop the server, then
        ask the web server to end the process and return its reply text. A
        failure of that last request is not caught. */
    method EndSession(stop: StopOracle, reply: Attempt<string>) returns (result: Attempt<string>)
      modifies this
      ensures var step := StopStep(old(Snapshot()), stop);
              Snapshot() == step.next && result == reply &&
              calls == old(calls) + step.calls + [Post(EndSessionEndpoint)]
      ensures old(Valid()) ==> Valid()
    {
      var _ := Stop(stop);
      calls := calls + [Post(EndSessionEndpoint)];
      result := reply;
    }
  }
}
