/** The life cycle of the streaming application: the components it builds, starts and deletes. */
module Application {
  import Streaming

  type StreamState = Streaming.StreamState
  type Buf = Streaming.Buf

  datatype Kind = ServerObj | TaskObj | InputObj | OutputObj | TranscoderObj | ListenerObj

  /** Something built with `new`; `deletes` counts how often it was deleted. */
  datatype Object = Object(kind: Kind, started: bool, deletes: nat)

  /** A pointer field: NULL, an object that exists, or the address of one that was deleted. */
  datatype Ptr = Null | To(id: nat) | Dangling(id: nat)

  /** How a start command goes: which of its steps throws, and the buffers written on the way. */
  datatype Plan = Plan(
    extraNull: bool,      // the message has no configuration
    portOk: bool,         // initWs
    deviceOk: bool,       // initVideo, before the objects
    decoderOk: bool,      // decoder->init
    header: seq<Buf>,     // written by encoder->init
    encoderOk: bool,      // the rest of encoder->init
    graphOk: bool)        // the filter graph

  predicate Succeeds(p: Plan) {
    !p.extraNull && p.portOk && p.deviceOk && p.decoderOk && p.encoderOk && p.graphOk
  }

  /** How many objects a start builds. */
  function Built(p: Plan): nat {
    if p.extraNull || !p.portOk then 0 else if !p.deviceOk then 2 else 5
  }

  /** What can happen to the application: the two commands, the streaming threads changing the queue,
      and the end of the process (SIGINT or the destructor). */
  datatype Event =
    | StartCmd(plan: Plan)
    | StopCmd
    | Traffic(queue: seq<Buf>)
    | Exit

  /** The state after an event; a stopped application has no listener left to receive commands. */
  function Outcome(s: StreamState, e: Event): StreamState {
    if s == Streaming.STOPPED then s
    else match e
      case StartCmd(p) => if Succeeds(p) then Streaming.RUNNING else s
      case StopCmd => Streaming.WAITTING
      case Traffic(_) => s
      case Exit => Streaming.STOPPED
  }

  function Outcomes(es: seq<Event>): StreamState {
    if es == [] then Streaming.WAITTING else Outcome(Outcomes(es[..|es| - 1]), es[|es| - 1])
  }

  /** How many components the events build. */
  function Builds(es: seq<Event>): nat {
    if es == [] then 0
    else
      var before, last := es[..|es| - 1], es[|es| - 1];
      Builds(before) + if last.StartCmd? && Outcomes(before) == Streaming.WAITTING then Built(last.plan) else 0
  }

  /** The i-th event starts a stream that nothing has stopped since. */
  predicate StreamsSince(es: seq<Event>, i: int) {
    && 0 <= i < |es| && es[i].StartCmd? && Succeeds(es[i].plan)
    && forall j :: i < j < |es| ==> !es[j].StopCmd?
  }

  predicate Exited(es: seq<Event>) {
    exists i :: 0 <= i < |es| && es[i].Exit?
  }

  /** The application runs exactly when some start succeeded, no stop followed it, and it has not exited. */
  lemma {:induction false} RunningIff(es: seq<Event>)
    ensures Outcomes(es) == Streaming.STOPPED <==> Exited(es)
    ensures Outcomes(es) == Streaming.RUNNING <==> !Exited(es) && exists i :: StreamsSince(es, i)
    ensures Outcomes(es) != Streaming.ERROR
  {
    if es != [] {
      var n := |es| - 1;
      var before := es[..n];
      RunningIff(before);
      assert Exited(es) <==> Exited(before) || es[n].Exit? by {
        if Exited(before) {
          var i :| 0 <= i < |before| && before[i].Exit?;
          assert es[i].Exit?;
        }
      }
      if i :| StreamsSince(before, i) && !es[n].StopCmd? {
        assert StreamsSince(es, i);
      }
      if i :| StreamsSince(es, i) && i < n {
        assert StreamsSince(before, i);
      }
      if es[n].StartCmd? && Succeeds(es[n].plan) {
        assert StreamsSince(es, n);
      }
    }
  }

  class Application {
    var state: StreamState
    var loop: bool
    var server: Ptr
    var broadcastTask: Ptr
    var videoIn: Ptr
    var videoOut: Ptr
    var transcoder: Ptr
    var mql: Ptr
    var queue: seq<Buf>
    var objects: seq<Object>    // everything ever built

    function Field(k: Kind): Ptr
      reads this`server, this`broadcastTask, this`videoIn, this`videoOut, this`transcoder, this`mql
    {
      match k
      case ServerObj => server
      case TaskObj => broadcastTask
      case InputObj => videoIn
      case OutputObj => videoOut
      case TranscoderObj => transcoder
      case ListenerObj => mql
    }

    /** The field of kind `k` became `p`, and no other field changed. */
    twostate predicate Only(k: Kind, p: Ptr)
      reads this`server, this`broadcastTask, this`videoIn, this`videoOut, this`transcoder, this`mql
    {
      && server == (if k == ServerObj then p else old(server))
      && broadcastTask == (if k == TaskObj then p else old(broadcastTask))
      && videoIn == (if k == InputObj then p else old(videoIn))
      && videoOut == (if k == OutputObj then p else old(videoOut))
      && transcoder == (if k == TranscoderObj then p else old(transcoder))
      && mql == (if k == ListenerObj then p else old(mql))
    }

    /** What existed keeps its kind. */
    twostate predicate KindsStay()
      reads this`objects
    {
      && |old(objects)| <= |objects|
      && forall i {:trigger objects[i]} :: 0 <= i < |old(objects)| ==> objects[i].kind == old(objects)[i].kind
    }

    /** Every object is either held by the field of its kind and not deleted, or deleted exactly once. */
    ghost predicate Ledger()
      reads this
    {
      && (forall k :: Field(k).Dangling? ==> k == ListenerObj)
      && (forall k :: Field(k).To? ==> Field(k).id < |objects| && objects[Field(k).id].kind == k)
      && (forall i {:trigger objects[i]} :: 0 <= i < |objects| ==>
            objects[i].deletes == if Field(objects[i].kind) == To(i) then 0 else 1)
    }

    predicate Started(k: Kind)
      reads this
    {
      Field(k).To? && Field(k).id < |objects| && objects[Field(k).id].started
    }

    predicate AllNull()
      reads this
    {
      server == Null && broadcastTask == Null && videoIn == Null && videoOut == Null && transcoder == Null
    }

    /** What holds whenever the thread that runs commands has none to run. */
    ghost predicate Idle()
      reads this
    {
      && Ledger()
      && (state == Streaming.RUNNING ==>
            && Started(ServerObj) && Started(TaskObj) && Started(TranscoderObj)
            && videoIn.To? && videoOut.To?)
      && (state != Streaming.RUNNING ==> AllNull() && queue == [])
      && (if state == Streaming.STOPPED then mql.Dangling? else mql.To?)
      && loop == (state != Streaming.STOPPED)
      && state != Streaming.ERROR
    }

    constructor ()
      ensures Idle() && state == Streaming.WAITTING && |objects| == 1
    {
      state, loop := Streaming.WAITTING, true;
      server, broadcastTask, videoIn, videoOut, transcoder := Null, Null, Null, Null, Null;
      objects, mql, queue := [Object(ListenerObj, true, 0)], To(0), [];
    }

    /** `new`, and the assignment to the field. */
    method Build(k: Kind)
      requires Ledger() && Field(k) == Null
      modifies this`objects, this`server, this`broadcastTask, this`videoIn, this`videoOut, this`transcoder, this`mql
      ensures Ledger() && Only(k, To(|old(objects)|))
      ensures objects == old(objects) + [Object(k, false, 0)]
    {
      var p := To(|objects|);
      objects := objects + [Object(k, false, 0)];
      Assign(k, p);
    }

    method Assign(k: Kind, p: Ptr)
      modifies this`server, this`broadcastTask, this`videoIn, this`videoOut, this`transcoder, this`mql
      ensures Only(k, p)
      ensures Field(k) == p && forall l :: l != k ==> Field(l) == old(Field(l))
    {
      match k {
        case ServerObj => server := p;
        case TaskObj => broadcastTask := p;
        case InputObj => videoIn := p;
        case OutputObj => videoOut := p;
        case TranscoderObj => transcoder := p;
        case ListenerObj => mql := p;
      }
    }

    /** `stop` or `close`, then `delete` of an object that exists, and what the field holds afterwards.
        The transcoder uses the input and the output as long as it exists. */
    method Delete(k: Kind, after: Ptr)
      requires Ledger() && Field(k).To?
      requires k == InputObj || k == OutputObj ==> transcoder == Null
      requires after == if k == ListenerObj then Dangling(Field(k).id) else Null
      modifies this`objects, this`server, this`broadcastTask, this`videoIn, this`videoOut, this`transcoder, this`mql
      ensures Ledger() && Only(k, after)
      ensures |objects| == |old(objects)| && KindsStay()
    {
      var i := Field(k).id;
      objects := objects[i := objects[i].(started := false, deletes := objects[i].deletes + 1)];
      Assign(k, after);
    }

    /** `run` of a component. */
    method Run(k: Kind)
      requires Ledger() && Field(k).To?
      modifies this`objects
      ensures Ledger() && |objects| == |old(objects)| && Started(k) && KindsStay()
      ensures forall l :: old(Started(l)) ==> Started(l)
    {
      var i := Field(k).id;
      objects := objects[i := objects[i].(started := true)];
    }

    method InitWs(plan: Plan) returns (ok: bool)
      requires Ledger() && AllNull() && mql.To?
      modifies this
      ensures Ledger() && mql == old(mql) && ok == plan.portOk
      ensures if ok then server.To? && broadcastTask.To? else server == Null && broadcastTask == Null
      ensures videoIn == Null && videoOut == Null && transcoder == Null
      ensures objects == old(objects) + if ok then [Object(ServerObj, false, 0), Object(TaskObj, false, 0)] else []
      ensures state == old(state) && loop == old(loop) && queue == old(queue)
    {
      if !plan.portOk { return false; }
      Build(ServerObj);
      Build(TaskObj);
      return true;
    }

    /** The callback through which the output file writes. */
    method Write(data: seq<Buf>)
      modifies this`queue
      ensures queue == if server == Null then old(queue) else old(queue) + data
    {
      if server != Null { queue := queue + data; }
    }

    method InitVideo(plan: Plan) returns (ok: bool)
      requires Ledger() && server.To? && broadcastTask.To? && mql.To?
      requires videoIn == Null && videoOut == Null && transcoder == Null
      modifies this
      ensures Ledger() && mql == old(mql) && server == old(server) && broadcastTask == old(broadcastTask)
      ensures ok == (plan.deviceOk && plan.decoderOk && plan.encoderOk && plan.graphOk)
      ensures if plan.deviceOk then videoIn.To? && videoOut.To? && transcoder.To?
              else videoIn == Null && videoOut == Null && transcoder == Null
      ensures objects == old(objects)
                + if plan.deviceOk
                  then [Object(InputObj, false, 0), Object(OutputObj, false, 0), Object(TranscoderObj, false, 0)]
                  else []
      ensures queue == old(queue) + if plan.deviceOk && plan.decoderOk then plan.header else []
      ensures state == old(state) && loop == old(loop)
    {
      if !plan.deviceOk { return false; }
      Build(InputObj);
      Build(OutputObj);
      Build(TranscoderObj);
      if !plan.decoderOk { return false; }
      Write(plan.header);
      return plan.encoderOk && plan.graphOk;
    }

    method Start()
      requires Ledger() && mql.To?
      modifies this`objects
      ensures Ledger() && |objects| == |old(objects)| && KindsStay()
      ensures broadcastTask != Null ==> Started(TaskObj)
      ensures server != Null ==> Started(ServerObj)
      ensures transcoder != Null ==> Started(TranscoderObj)
    {
      if broadcastTask != Null { Run(TaskObj); }
      if server != Null { Run(ServerObj); }
      if transcoder != Null { Run(TranscoderObj); }
    }

    /** Closing the output writes nothing: closeFile detaches the write callback before closeFormat writes
        the trailer. */
    method StopVideo()
      requires Ledger()
      modifies this
      ensures Ledger() && videoIn == Null && videoOut == Null && transcoder == Null
      ensures server == old(server) && broadcastTask == old(broadcastTask) && mql == old(mql)
      ensures |objects| == |old(objects)| && KindsStay() && state == old(state) && loop == old(loop)
      ensures queue == old(queue)
    {
      if transcoder != Null { Delete(TranscoderObj, Null); }
      if videoOut != Null { Delete(OutputObj, Null); }
      if videoIn != Null { Delete(InputObj, Null); }
    }

    method FlushQueue()
      modifies this`queue
      ensures queue == []
    {
      while queue != []
        decreases |queue|
      {
        queue := queue[1..];
      }
    }

    method StopWs()
      requires Ledger()
      modifies this
      ensures Ledger() && server == Null && broadcastTask == Null
      ensures videoIn == old(videoIn) && videoOut == old(videoOut) && transcoder == old(transcoder) && mql == old(mql)
      ensures |objects| == |old(objects)| && KindsStay() && state == old(state) && loop == old(loop)
      ensures queue == if old(broadcastTask) == Null then old(queue) else []
    {
      if server != Null { Delete(ServerObj, Null); }
      if broadcastTask != Null {
        Delete(TaskObj, Null);
        FlushQueue();
      }
    }

    const KINDS: seq<Kind> := [ServerObj, TaskObj, InputObj, OutputObj, TranscoderObj]

    /** The try block of onStart. */
    method Init(plan: Plan) returns (ok: bool)
      requires Ledger() && AllNull() && mql.To? && queue == []
      modifies this
      ensures Ledger() && mql == old(mql) && state == old(state) && loop == old(loop)
      ensures ok == (plan.portOk && plan.deviceOk && plan.decoderOk && plan.encoderOk && plan.graphOk)
      ensures ok ==> server.To? && broadcastTask.To? && videoIn.To? && videoOut.To? && transcoder.To?
      ensures broadcastTask == Null ==> queue == []
      ensures ok ==> queue == plan.header
      ensures |objects| == |old(objects)| + if !plan.portOk then 0 else if !plan.deviceOk then 2 else 5
      ensures KindsStay() && forall i :: |old(objects)| <= i < |objects| ==>
                objects[i].kind == KINDS[i - |old(objects)|]
    {
      ok := InitWs(plan);
      if ok { ok := InitVideo(plan); }
    }

    /** A start command, on the listener's thread. */
    method OnStart(plan: Plan)
      requires Idle() && state != Streaming.STOPPED
      modifies this
      ensures Idle() && state == Outcome(old(state), StartCmd(plan))
      ensures state == Streaming.RUNNING <==>
              || old(state) == Streaming.RUNNING
              || (&& !plan.extraNull && plan.portOk && plan.deviceOk
                  && plan.decoderOk && plan.encoderOk && plan.graphOk)
      ensures state != Streaming.RUNNING ==> state == old(state)
      ensures |objects| == |old(objects)| + if old(state) == Streaming.WAITTING then Built(plan) else 0
      ensures |objects| == |old(objects)| +
                if old(state) != Streaming.WAITTING || plan.extraNull || !plan.portOk then 0
                else if !plan.deviceOk then 2 else 5
      ensures KindsStay() && forall i :: |old(objects)| <= i < |objects| ==>
                objects[i].kind == KINDS[i - |old(objects)|]
      ensures queue == if old(state) == Streaming.WAITTING && Succeeds(plan) then plan.header else old(queue)
    {
      if state == Streaming.RUNNING { return; }
      if plan.extraNull { return; }
      var ok := Init(plan);
      if !ok {
        StopVideo();
        StopWs();
        return;
      }
      Start();
      state := Streaming.RUNNING;
    }

    /** A stop command, on the listener's thread. */
    method OnStop()
      requires Idle() && state != Streaming.STOPPED
      modifies this
      ensures Idle() && state == Streaming.WAITTING && |objects| == |old(objects)|
    {
      if state == Streaming.WAITTING { return; }
      StopVideo();
      StopWs();
      state := Streaming.WAITTING;
    }

    /** SIGINT, and the destructor. */
    method Stop()
      requires Idle()
      modifies this
      ensures Idle() && state == Streaming.STOPPED && |objects| == |old(objects)|
      ensures old(state) == Streaming.STOPPED ==> objects == old(objects)
      ensures forall i :: 0 <= i < |objects| ==> objects[i].deletes == 1
    {
      if state == Streaming.STOPPED { return; }
      Delete(ListenerObj, Dangling(mql.id));
      StopVideo();
      StopWs();
      state := Streaming.STOPPED;
      loop := false;
    }

    method Handle(e: Event)
      requires Idle()
      modifies this
      ensures Idle() && state == Outcome(old(state), e)
      ensures |objects| == |old(objects)| +
                if e.StartCmd? && old(state) == Streaming.WAITTING then Built(e.plan) else 0
    {
      match e {
        case StartCmd(p) => if state != Streaming.STOPPED { OnStart(p); }
        case StopCmd => if state != Streaming.STOPPED { OnStop(); }
        case Traffic(q) => if state == Streaming.RUNNING { queue := q; }
        case Exit => Stop();
      }
    }
  }

  /** Any sequence of events, from the start of the application. */
  method Drive(es: seq<Event>) returns (app: Application)
    ensures fresh(app) && app.Idle() && app.state == Outcomes(es)
    ensures |app.objects| == 1 + Builds(es)
    ensures app.state != Streaming.RUNNING ==>
              forall i :: 0 <= i < |app.objects| && app.mql != To(i) ==> app.objects[i].deletes == 1
  {
    app := new Application();
    for n := 0 to |es|
      invariant fresh(app) && app.Idle() && app.state == Outcomes(es[..n])
      invariant |app.objects| == 1 + Builds(es[..n])
    {
      assert es[..n + 1][..n] == es[..n];
      app.Handle(es[n]);
    }
    assert es[..|es|] == es;
  }
}
