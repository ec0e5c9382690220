/** The threads of the running application around the broadcast queue: the control thread that starts
    and stops streams, the main thread, decoder, encoder, broadcaster and server threads.

    The control program (Application::onStart, onStop and stop with everything they call) runs on the
    message thread until the main thread, on SIGINT, has joined it; then the main thread runs it.
    Here a broadcast, a clean-up and the closing of all sessions are single steps; the module Whole puts
    SessionProtocol's steps in their place. */
module Streaming {
  import opened Wrappers

  /** What the encoder's output writes; `stream` says which start built the output that wrote it. */
  datatype Buf = Buf(stream: nat, data: nat)

  datatype StreamState = STOPPED | WAITTING | RUNNING | ERROR

  // Why a stop is under way.
  datatype Why = Command | Failure | Exit

  // The control program, part by part.
  datatype IdlePc =
    | Test                // while(running) of the message thread
    | Poll                // popQueue and onQueueMessage
    | Gone                // the message thread has ended

  datatype BuildPc =      // initWs and initVideo
    | NewServer
    | NewTask
    | Video               // input, output and transcoder objects
    | DecInit             // decoder->init
    | Header              // encoder->init, which writes the header
    | HdrTest(b: Buf)     // the write callback: server == NULL?
    | HdrLock(b: Buf)
    | HdrPush(b: Buf)
    | HdrUnlock
    | Tasks               // filter graph, the two tasks

  datatype LaunchPc =     // start, and the end of onStart
    | RunTask
    | RunServer
    | RunDecoder
    | RunEncoder
    | SetRunning

  datatype VideoPc =      // stopVideo
    | DecFlag
    | DecJoin
    | EncFlag
    | EncJoin
    | DelVideo

  datatype ServerPc =     // stopWs up to the server
    | SrvFlag
    | SrvJoin
    | SrvLock
    | SrvClose            // closing and joining the sessions under sessionsMtx
    | DelServer

  datatype TaskPc =       // the rest of stopWs
    | TaskFlag
    | TaskJoin
    | DelTask
    | FlushLock
    | Flush
    | FlushUnlock
    | Settle              // state = WAITTING or STOPPED, or back from a failed start

  datatype Ctl =
    | Idle(i: IdlePc)
    | Build(b: BuildPc)
    | Launch(r: LaunchPc)
    | StopVideo(v: VideoPc)
    | StopServer(s: ServerPc)
    | StopTask(t: TaskPc)

  datatype MainPc = MPoll | MJoin | MDrive | MExit

  datatype DecPc =
    | DOff
    | DHead
    | DRead               // av_read_frame, from the camera
    | DDecode             // avcodec_receive_frame
    | DLock
    | DPush
    | DUnlock

  datatype EncPc =
    | EOff
    | EHead
    | ELock
    | EPop
    | EUnlock(frame: bool)
    | EEncode
    | ETest(b: Buf)       // the write callback: server == NULL?
    | EQLock(b: Buf)
    | EQPush(b: Buf)
    | EQUnlock

  datatype BcastPc =
    | BOff
    | BHead
    | BQLock
    | BPop
    | BQUnlock(got: Option<Buf>)
    | BTest(b: Buf)       // server != NULL?
    | BSLock
    | BSend               // Server::broadcast inside sessionsMtx

  datatype SrvPc =
    | SOff
    | SHead
    | SAccept
    | SLock               // to enter the new session
    | SPush
    | SClean              // clearup: running?
    | SCleanLock
    | SScan
    | SJoin               // deleting what the scan took out, without the mutex

  datatype Actor = Main | Control | Decoder | Encoder | Broadcaster | ServerLoop

  // One stream's history: what the write callback was called with, what it pushed, and what was handed to
  // Server::broadcast.
  datatype Cycle = Cycle(called: seq<Buf>, wrote: seq<Buf>, cast: seq<Buf>)

  const NO_CYCLE := Cycle([], [], [])

  // The control program and what only it changes.
  datatype Ctrl = Ctrl(
    pc: Ctl,
    why: Why,
    state: StreamState,
    main: MainPc,
    listening: bool,      // the message thread's running flag
    server: bool,         // server != NULL
    task: bool,           // broadcastTask != NULL
    video: bool,          // transcoder != NULL
    starts: nat,          // how many starts there were
    output: nat)          // which of them built videoOut

  // The workers and their running flags.
  datatype Workers = Workers(
    decOn: bool, encOn: bool, taskOn: bool, srvOn: bool,
    dec: DecPc, enc: EncPc, bcast: BcastPc, srv: SrvPc,
    encOf: nat)           // which start built the output the encoder task uses

  // broadcastQueueMtx, filterGraphMtx, sessionsMtx: who holds them.
  datatype Locks = Locks(queue: Option<Actor>, graph: Option<Actor>, sessions: Option<Actor>)

  datatype Stream = Stream(queue: seq<Buf>, now: Cycle, past: seq<Cycle>)

  datatype State = State(c: Ctrl, w: Workers, l: Locks, q: Stream)

  datatype Choice = StartCmd | StopCmd | OtherCmd | Ok | Fail | Write(data: nat)

  datatype Step =
    | MainStep(sigint: bool)
    | ControlStep(choice: Choice)
    | DecStep(some: bool)
    | EncStep(frame: bool, write: Option<nat>)
    | BcastStep
    | SrvStep(accepted: bool)

  const NO_WORKERS := Workers(false, false, false, false, DOff, EOff, BOff, SOff, 0)

  /** Behind the assignment of WAITTING that precedes the main loop. */
  ghost predicate Init(st: State) {
    st == State(Ctrl(Idle(Test), Command, WAITTING, MPoll, true, false, false, false, 0, 0), NO_WORKERS,
                Locks(None, None, None), Stream([], NO_CYCLE, []))
  }

  // ---------- the control program ----------

  predicate ControlEnabled(st: State) {
    && st.c.pc != Idle(Gone)
    && (st.c.pc.Build? && st.c.pc.b.HdrLock? ==> st.l.queue == None)
    && (st.c.pc == StopVideo(DecJoin) ==> st.w.dec == DOff)
    && (st.c.pc == StopVideo(EncJoin) ==> st.w.enc == EOff)
    && (st.c.pc == StopServer(SrvJoin) ==> st.w.srv == SOff)
    && (st.c.pc == StopServer(SrvLock) ==> st.l.sessions == None)
    && (st.c.pc == StopTask(TaskJoin) ==> st.w.bcast == BOff)
    && (st.c.pc == StopTask(FlushLock) ==> st.l.queue == None)
  }

  predicate StartsNow(c: Ctrl, choice: Choice) {
    c.pc == Idle(Poll) && choice == StartCmd && c.state != RUNNING
  }

  /** The message thread's loop and Application::onQueueMessage up to the command's first action. */
  function IdleNext(c: Ctrl, i: IdlePc, choice: Choice): Ctrl {
    match i
    case Test => c.(pc := Idle(if c.listening then Poll else Gone))
    case Poll =>
      if StartsNow(c, choice) then c.(pc := Build(NewServer), starts := c.starts + 1)
      else if choice == StopCmd && c.state != WAITTING then c.(pc := StopVideo(DecFlag), why := Command)
      else c.(pc := Idle(Test))
    case Gone => c
  }

  /** Application::initWs and initVideo, and the way out of a failure. */
  function BuildNext(c: Ctrl, b: BuildPc, choice: Choice): Ctrl {
    if choice == Fail && (b.NewServer? || b.Video? || b.DecInit? || b.Header? || b.Tasks?) then
      c.(pc := StopVideo(DecFlag), why := Failure)
    else match b
      case NewServer => c.(server := true, pc := Build(NewTask))
      case NewTask => c.(task := true, pc := Build(Video))
      case Video => c.(video := true, output := c.starts, pc := Build(DecInit))
      case DecInit => c.(pc := Build(Header))
      case Header => c.(pc := Build(if choice.Write? then HdrTest(Buf(c.output, choice.data)) else Tasks))
      case HdrTest(x) => c.(pc := Build(if c.server then HdrLock(x) else Header))
      case HdrLock(x) => c.(pc := Build(HdrPush(x)))
      case HdrPush(_) => c.(pc := Build(HdrUnlock))
      case HdrUnlock => c.(pc := Build(Header))
      case Tasks => c.(pc := Launch(RunTask))
  }

  function LaunchNext(c: Ctrl, r: LaunchPc): Ctrl {
    match r
    case RunTask => c.(pc := Launch(RunServer))
    case RunServer => c.(pc := Launch(RunDecoder))
    case RunDecoder => c.(pc := Launch(RunEncoder))
    case RunEncoder => c.(pc := Launch(SetRunning))
    case SetRunning => c.(state := RUNNING, pc := Idle(Test))
  }

  function VideoNext(c: Ctrl, v: VideoPc): Ctrl {
    match v
    case DecFlag => c.(pc := if c.video then StopVideo(DecJoin) else StopServer(SrvFlag))
    case DecJoin => c.(pc := StopVideo(EncFlag))
    case EncFlag => c.(pc := StopVideo(EncJoin))
    case EncJoin => c.(pc := StopVideo(DelVideo))
    case DelVideo => c.(video := false, pc := StopServer(SrvFlag))
  }

  function ServerNext(c: Ctrl, s: ServerPc, srvOn: bool): Ctrl {
    match s
    case SrvFlag =>
      c.(pc := if !c.server then StopTask(TaskFlag) else StopServer(if srvOn then SrvJoin else DelServer))
    case SrvJoin => c.(pc := StopServer(SrvLock))
    case SrvLock => c.(pc := StopServer(SrvClose))
    case SrvClose => c.(pc := StopServer(DelServer))
    case DelServer => c.(server := false, pc := StopTask(TaskFlag))
  }

  function TaskNext(c: Ctrl, t: TaskPc, empty: bool): Ctrl {
    match t
    case TaskFlag => c.(pc := StopTask(if c.task then TaskJoin else Settle))
    case TaskJoin => c.(pc := StopTask(DelTask))
    case DelTask => c.(task := false, pc := StopTask(FlushLock))
    case FlushLock => c.(pc := StopTask(Flush))
    case Flush => c.(pc := StopTask(if empty then FlushUnlock else Flush))
    case FlushUnlock => c.(pc := StopTask(Settle))
    case Settle =>
      if c.why == Command then c.(state := WAITTING, pc := Idle(Test))
      else if c.why == Failure then c.(pc := Idle(Test))
      else c.(state := STOPPED, pc := Idle(Gone), main := MExit)
  }

  /** The next place of the control program, with the pointers and the state it writes. */
  function CtrlNext(c: Ctrl, choice: Choice, srvOn: bool, empty: bool): Ctrl {
    match c.pc
    case Idle(i) => IdleNext(c, i, choice)
    case Build(b) => BuildNext(c, b, choice)
    case Launch(r) => LaunchNext(c, r)
    case StopVideo(v) => VideoNext(c, v)
    case StopServer(s) => ServerNext(c, s, srvOn)
    case StopTask(t) => TaskNext(c, t, empty)
  }

  /** The threads it starts. */
  function LaunchWorkers(r: LaunchPc, w: Workers, output: nat): Workers {
    match r
    case RunTask => w.(taskOn := true, bcast := BHead)
    case RunServer => w.(srvOn := true, srv := SHead)
    case RunDecoder => w.(decOn := true, dec := DHead)
    case RunEncoder => w.(encOn := true, enc := EHead, encOf := output)
    case SetRunning => w
  }

  /** These, and the running flags it clears. */
  function CtrlWorkers(c: Ctrl, w: Workers): Workers {
    match c.pc
    case Launch(r) => LaunchWorkers(r, w, c.output)
    case StopVideo(v) =>
      if v == DecFlag && c.video then w.(decOn := false)
      else if v == EncFlag then w.(encOn := false)
      else w
    case StopServer(s) => if s == SrvFlag && c.server then w.(srvOn := false) else w
    case StopTask(t) => if t == TaskFlag && c.task then w.(taskOn := false) else w
    case _ => w
  }

  /** The mutexes it takes and gives back. */
  function CtrlLocks(p: Ctl, l: Locks): Locks {
    match p
    case Build(HdrLock(_)) => l.(queue := Some(Control))
    case Build(HdrUnlock) => l.(queue := None)
    case StopServer(SrvLock) => l.(sessions := Some(Control))
    case StopServer(SrvClose) => l.(sessions := None)
    case StopTask(FlushLock) => l.(queue := Some(Control))
    case StopTask(FlushUnlock) => l.(queue := None)
    case _ => l
  }

  /** The output calls the write callback. */
  function Call(q: Stream, b: Buf): Stream {
    q.(now := q.now.(called := q.now.called + [b]))
  }

  function Push(q: Stream, b: Buf): Stream {
    q.(queue := q.queue + [b], now := q.now.(wrote := q.now.wrote + [b]))
  }

  /** The buffers it pushes while writing the header, and those it flushes. */
  function CtrlStream(c: Ctrl, choice: Choice, q: Stream): Stream {
    if StartsNow(c, choice) then q.(past := q.past + [q.now], now := NO_CYCLE)
    else if c.pc == Build(Header) && choice.Write? then Call(q, Buf(c.output, choice.data))
    else if c.pc.Build? && c.pc.b.HdrPush? then Push(q, c.pc.b.b)
    else if c.pc == StopTask(Flush) && q.queue != [] then q.(queue := q.queue[1..])
    else q
  }

  function ControlDo(st: State, choice: Choice): State {
    State(CtrlNext(st.c, choice, st.w.srvOn, st.q.queue == []), CtrlWorkers(st.c, st.w),
          CtrlLocks(st.c.pc, st.l), CtrlStream(st.c, choice, st.q))
  }

  /** The status loop, and Application::stop up to the join of the message thread. */
  predicate MainEnabled(c: Ctrl) {
    c.main == MPoll || (c.main == MJoin && c.pc == Idle(Gone))
  }

  function MainDo(c: Ctrl, sigint: bool): Ctrl {
    match c.main
    case MPoll => if sigint then c.(listening := false, main := MJoin) else c
    case MJoin => c.(main := MDrive, pc := StopVideo(DecFlag), why := Exit)
    case _ => c
  }

  // ---------- the workers ----------

  predicate DecEnabled(st: State) {
    st.w.dec != DOff && (st.w.dec == DLock ==> st.l.graph == None)
  }

  /** The decoder task's body; `some` says whether it got a packet, or a frame. */
  function DecNext(d: DecPc, on: bool, some: bool): DecPc {
    match d
    case DOff => DOff
    case DHead => if on then DRead else DOff
    case DRead => if some then DDecode else DHead
    case DDecode => if some then DLock else DHead
    case DLock => DPush
    case DPush => DUnlock
    case DUnlock => DDecode
  }

  function DecGraph(d: DecPc, m: Option<Actor>): Option<Actor> {
    if d == DLock then Some(Decoder) else if d == DUnlock then None else m
  }

  function DecDo(st: State, some: bool): State {
    st.(w := st.w.(dec := DecNext(st.w.dec, st.w.decOn, some)), l := st.l.(graph := DecGraph(st.w.dec, st.l.graph)))
  }

  predicate EncEnabled(st: State) {
    && st.w.enc != EOff
    && (st.w.enc == ELock ==> st.l.graph == None)
    && (st.w.enc.EQLock? ==> st.l.queue == None)
  }

  /** The encoder task's body, with the write callback. */
  function EncNext(w: Workers, server: bool, frame: bool, write: Option<nat>): EncPc {
    match w.enc
    case EOff => EOff
    case EHead => if w.encOn then ELock else EOff
    case ELock => EPop
    case EPop => EUnlock(frame)
    case EUnlock(f) => if f then EEncode else EHead
    case EEncode => if write.Some? then ETest(Buf(w.encOf, write.value)) else ELock
    case ETest(b) => if server then EQLock(b) else EEncode
    case EQLock(b) => EQPush(b)
    case EQPush(_) => EQUnlock
    case EQUnlock => EEncode
  }

  function EncGraph(e: EncPc, m: Option<Actor>): Option<Actor> {
    if e == ELock then Some(Encoder) else if e.EUnlock? then None else m
  }

  function EncQueue(e: EncPc, m: Option<Actor>): Option<Actor> {
    if e.EQLock? then Some(Encoder) else if e == EQUnlock then None else m
  }

  function EncStream(w: Workers, q: Stream, write: Option<nat>): Stream {
    if w.enc == EEncode && write.Some? then Call(q, Buf(w.encOf, write.value))
    else if w.enc.EQPush? then Push(q, w.enc.b)
    else q
  }

  function EncDo(st: State, frame: bool, write: Option<nat>): State {
    st.(w := st.w.(enc := EncNext(st.w, st.c.server, frame, write)),
        l := st.l.(graph := EncGraph(st.w.enc, st.l.graph), queue := EncQueue(st.w.enc, st.l.queue)),
        q := EncStream(st.w, st.q, write))
  }

  predicate BcastEnabled(st: State) {
    && st.w.bcast != BOff
    && (st.w.bcast == BQLock ==> st.l.queue == None)
    && (st.w.bcast == BSLock ==> st.l.sessions == None)
  }

  /** The broadcast task's body. */
  function BcastNext(b: BcastPc, on: bool, queue: seq<Buf>, server: bool): BcastPc {
    match b
    case BOff => BOff
    case BHead => if on then BQLock else BOff
    case BQLock => BPop
    case BPop => BQUnlock(if queue == [] then None else Some(queue[0]))
    case BQUnlock(got) => if got.Some? then BTest(got.value) else BHead
    case BTest(_) => if server then BSLock else BHead
    case BSLock => BSend
    case BSend => BHead
  }

  function BcastQueue(b: BcastPc, m: Option<Actor>): Option<Actor> {
    if b == BQLock then Some(Broadcaster) else if b.BQUnlock? then None else m
  }

  function BcastSessions(b: BcastPc, m: Option<Actor>): Option<Actor> {
    if b == BSLock then Some(Broadcaster) else if b == BSend then None else m
  }

  function BcastStream(b: BcastPc, q: Stream, server: bool): Stream {
    if b == BPop && q.queue != [] then q.(queue := q.queue[1..])
    else if b.BTest? && server then q.(now := q.now.(cast := q.now.cast + [b.b]))
    else q
  }

  function BcastDo(st: State): State {
    st.(w := st.w.(bcast := BcastNext(st.w.bcast, st.w.taskOn, st.q.queue, st.c.server)),
        l := st.l.(queue := BcastQueue(st.w.bcast, st.l.queue), sessions := BcastSessions(st.w.bcast, st.l.sessions)),
        q := BcastStream(st.w.bcast, st.q, st.c.server))
  }

  predicate SrvEnabled(st: State) {
    st.w.srv != SOff && (st.w.srv == SLock || st.w.srv == SCleanLock ==> st.l.sessions == None)
  }

  /** Server::loop. */
  function SrvNext(s: SrvPc, on: bool, accepted: bool): SrvPc {
    match s
    case SOff => SOff
    case SHead => if on then SAccept else SOff
    case SAccept => if accepted then SLock else SClean
    case SLock => SPush
    case SPush => SClean
    case SClean => if on then SCleanLock else SHead
    case SCleanLock => SScan
    case SScan => SJoin
    case SJoin => SHead
  }

  function SrvSessions(s: SrvPc, m: Option<Actor>): Option<Actor> {
    if s == SLock || s == SCleanLock then Some(ServerLoop) else if s == SPush || s == SScan then None else m
  }

  function SrvDo(st: State, accepted: bool): State {
    st.(w := st.w.(srv := SrvNext(st.w.srv, st.w.srvOn, accepted)),
        l := st.l.(sessions := SrvSessions(st.w.srv, st.l.sessions)))
  }

  predicate Enabled(st: State, step: Step) {
    match step
    case MainStep(_) => MainEnabled(st.c)
    case ControlStep(_) => ControlEnabled(st)
    case DecStep(_) => DecEnabled(st)
    case EncStep(_, _) => EncEnabled(st)
    case BcastStep => BcastEnabled(st)
    case SrvStep(_) => SrvEnabled(st)
  }

  function Do(st: State, step: Step): State {
    match step
    case MainStep(sigint) => st.(c := MainDo(st.c, sigint))
    case ControlStep(choice) => ControlDo(st, choice)
    case DecStep(some) => DecDo(st, some)
    case EncStep(frame, write) => EncDo(st, frame, write)
    case BcastStep => BcastDo(st)
    case SrvStep(accepted) => SrvDo(st, accepted)
  }

  /** The i-th step leads from the i-th state to the next. */
  predicate Stepped(tr: seq<State>, steps: seq<Step>, i: int)
    requires 0 <= i < |steps| && |tr| == |steps| + 1
  {
    Enabled(tr[i], steps[i]) && tr[i + 1] == Do(tr[i], steps[i])
  }

  ghost predicate Run(tr: seq<State>, steps: seq<Step>) {
    && |tr| == |steps| + 1
    && Init(tr[0])
    && forall i :: 0 <= i < |steps| ==> Stepped(tr, steps, i)
  }
}
