/** What every step of the application's threads keeps: stream isolation and freedom from deadlock. */
module StreamingInvariant {
  import opened Wrappers
  import opened Streaming

  predicate Stops(p: Ctl) {
    p.StopVideo? || p.StopServer? || p.StopTask?
  }

  /** Which components exist when. */
  predicate PartsInv(c: Ctrl) {
    match c.pc
    case Idle(_) => c.server == c.task == c.video == (c.state == RUNNING)
    case Build(b) =>
      && c.server == !b.NewServer?
      && c.task == (!b.NewServer? && !b.NewTask?)
      && c.video == (!b.NewServer? && !b.NewTask? && !b.Video?)
    case Launch(_) => c.server && c.task && c.video
    case StopVideo(v) => c.server == c.task && (c.video ==> c.server) && (v != DecFlag ==> c.video)
    case StopServer(s) => c.server == c.task && !c.video && (s != SrvFlag ==> c.server)
    case StopTask(t) =>
      && !c.server && !c.video
      && (t == TaskJoin || t == DelTask ==> c.task)
      && (t == FlushLock || t == Flush || t == FlushUnlock || t == Settle ==> !c.task)
  }

  /** Who drives the control program, and why. */
  predicate ModeInv(c: Ctrl) {
    && (c.pc.Build? || c.pc.Launch? || (Stops(c.pc) && c.why == Failure) ==> c.state != RUNNING)
    && (c.state == STOPPED <==> c.main == MExit)
    && (c.main == MDrive <==> Stops(c.pc) && c.why == Exit)
    && (c.main == MExit ==> c.pc == Idle(Gone))
    && (c.main == MPoll <==> c.listening)
    && (c.pc == Idle(Gone) ==> !c.listening)
  }

  predicate StreamUp(c: Ctrl) {
    c.pc.Idle? && c.state == RUNNING
  }

  /** When the decoder, the encoder, the broadcaster and the server thread may run. */
  predicate DecMay(c: Ctrl) {
    StreamUp(c) || (c.pc.Launch? && (c.pc.r == RunEncoder || c.pc.r == SetRunning))
    || (c.pc.StopVideo? && (c.pc.v == DecFlag || c.pc.v == DecJoin) && c.video)
  }

  predicate EncMay(c: Ctrl) {
    StreamUp(c) || c.pc == Launch(SetRunning) || (c.pc.StopVideo? && c.pc.v != DelVideo && c.video)
  }

  predicate BcastMay(c: Ctrl) {
    && c.task
    && (StreamUp(c) || (c.pc.Launch? && c.pc.r != RunTask) || c.pc.StopVideo? || c.pc.StopServer?
        || c.pc == StopTask(TaskFlag) || c.pc == StopTask(TaskJoin))
  }

  predicate SrvFlagMay(c: Ctrl) {
    && c.server
    && (StreamUp(c) || (c.pc.Launch? && c.pc.r != RunTask && c.pc.r != RunServer) || c.pc.StopVideo?
        || c.pc == StopServer(SrvFlag))
  }

  /** Which threads run when. */
  predicate WorkersInv(c: Ctrl, w: Workers) {
    && (w.dec != DOff ==> DecMay(c))
    && (w.enc != EOff ==> EncMay(c))
    && (w.bcast != BOff ==> BcastMay(c))
    && (w.srv != SOff ==> w.srvOn || c.pc == StopServer(SrvJoin))
    && (w.srvOn ==> SrvFlagMay(c))
  }

  /** The buffer between queue and broadcast. */
  function Hand(p: BcastPc): seq<Buf> {
    if p.BQUnlock? && p.got.Some? then [p.got.value]
    else if p.BTest? then [p.b]
    else []
  }

  predicate EarlyBuild(p: Ctl) {
    p.Build? && (p.b.NewServer? || p.b.NewTask? || p.b.Video? || p.b.DecInit?)
  }

  ghost predicate PastInv(q: Stream) {
    forall i :: 0 <= i < |q.past| ==> q.past[i].cast <= q.past[i].wrote
  }

  predicate Flow(server: bool, now: Cycle, hand: seq<Buf>, queue: seq<Buf>) {
    && now.cast <= now.wrote
    && (server ==> now.cast + hand + queue == now.wrote)
  }

  /** Stream isolation: what a cycle broadcast is a FIFO prefix of what was pushed in it, and nothing
      else is in the queue or on its way. */
  predicate FifoInv(c: Ctrl, p: BcastPc, q: Stream) {
    && Flow(c.server, q.now, Hand(p), q.queue)
    && (!c.task ==> q.queue == [] || c.pc == StopTask(FlushLock) || c.pc == StopTask(Flush))
    && (EarlyBuild(c.pc) ==> q.queue == [] && q.now == NO_CYCLE)
  }

  predicate CtrlHoldsQueue(p: Ctl) {
    (p.Build? && (p.b.HdrPush? || p.b.HdrUnlock?)) || (p.StopTask? && (p.t == Flush || p.t == FlushUnlock))
  }

  predicate EncHoldsQueue(e: EncPc) {
    e.EQPush? || e.EQUnlock?
  }

  predicate BcastHoldsQueue(p: BcastPc) {
    p.BPop? || p.BQUnlock?
  }

  // Each mutex names exactly the thread that stands between its lock and its unlock.

  predicate QueueMtxInv(p: Ctl, e: EncPc, b: BcastPc, m: Option<Actor>) {
    && (CtrlHoldsQueue(p) <==> m == Some(Control))
    && (EncHoldsQueue(e) <==> m == Some(Encoder))
    && (BcastHoldsQueue(b) <==> m == Some(Broadcaster))
    && (m == None || m == Some(Control) || m == Some(Encoder) || m == Some(Broadcaster))
  }

  predicate GraphMtxInv(d: DecPc, e: EncPc, m: Option<Actor>) {
    && (d.DPush? || d.DUnlock? <==> m == Some(Decoder))
    && (e.EPop? || e.EUnlock? <==> m == Some(Encoder))
    && (m == None || m == Some(Decoder) || m == Some(Encoder))
  }

  predicate SessionsMtxInv(p: Ctl, b: BcastPc, s: SrvPc, m: Option<Actor>) {
    && (p == StopServer(SrvClose) <==> m == Some(Control))
    && (b.BSend? <==> m == Some(Broadcaster))
    && (s.SPush? || s.SScan? <==> m == Some(ServerLoop))
    && (m == None || m == Some(Control) || m == Some(Broadcaster) || m == Some(ServerLoop))
  }

  predicate LocksInv(p: Ctl, w: Workers, l: Locks) {
    && QueueMtxInv(p, w.enc, w.bcast, l.queue)
    && GraphMtxInv(w.dec, w.enc, l.graph)
    && SessionsMtxInv(p, w.bcast, w.srv, l.sessions)
  }

  // ---------- which stream a buffer belongs to ----------

  ghost predicate AllOf(bs: seq<Buf>, n: nat) {
    forall i :: 0 <= i < |bs| ==> bs[i].stream == n
  }

  predicate EncCarries(e: EncPc) {
    e.ETest? || e.EQLock? || e.EQPush?
  }

  predicate HdrCarries(p: Ctl) {
    p.Build? && (p.b.HdrTest? || p.b.HdrLock? || p.b.HdrPush?)
  }

  /** Who writes now, writes for the current stream. */
  predicate WriterInv(c: Ctrl, w: Workers) {
    && (c.video ==> c.output == c.starts)
    && (w.enc != EOff ==> w.encOf == c.starts)
    && (EncCarries(w.enc) ==> w.enc.b.stream == c.starts)
    && (HdrCarries(c.pc) ==> c.pc.b.b.stream == c.starts)
  }

  /** What was pushed in a stream was written by that stream's own output. */
  ghost predicate TagInv(starts: nat, q: Stream) {
    && |q.past| == starts && AllOf(q.now.wrote, starts)
    && forall k :: 0 <= k < |q.past| ==> AllOf(q.past[k].wrote, k)
  }

  // ---------- nothing is lost between the write callback and the queue ----------

  /** The buffer inside the callback, on the control thread and on the encoder's. */
  function HdrHand(p: Ctl): seq<Buf> {
    if HdrCarries(p) then [p.b.b] else []
  }

  function EncHand(e: EncPc): seq<Buf> {
    if EncCarries(e) then [e.b] else []
  }

  ghost predicate CallInv(p: Ctl, e: EncPc, q: Stream) {
    && q.now.called == q.now.wrote + HdrHand(p) + EncHand(e)
    && (HdrCarries(p) ==> !EncCarries(e))
    && forall k :: 0 <= k < |q.past| ==> q.past[k].called == q.past[k].wrote
  }

  // ---------- the threads of a running stream run ----------

  /** When the four threads must have been started and not been told to end. */
  predicate DecMust(c: Ctrl) {
    StreamUp(c) || (c.pc.Launch? && (c.pc.r == RunEncoder || c.pc.r == SetRunning))
  }

  predicate EncMust(c: Ctrl) {
    StreamUp(c) || c.pc == Launch(SetRunning)
  }

  predicate BcastMust(c: Ctrl) {
    StreamUp(c) || (c.pc.Launch? && c.pc.r != RunTask)
  }

  predicate SrvMust(c: Ctrl) {
    StreamUp(c) || (c.pc.Launch? && c.pc.r != RunTask && c.pc.r != RunServer)
  }

  predicate UpInv(c: Ctrl, w: Workers) {
    && (DecMust(c) ==> w.decOn) && (w.decOn ==> w.dec != DOff)
    && (EncMust(c) ==> w.encOn) && (w.encOn ==> w.enc != EOff)
    && (BcastMust(c) ==> w.taskOn) && (w.taskOn ==> w.bcast != BOff)
    && (SrvMust(c) ==> w.srvOn) && (w.srvOn ==> w.srv != SOff)
  }

  ghost predicate Inv(st: State) {
    && PartsInv(st.c)
    && CallInv(st.c.pc, st.w.enc, st.q)
    && UpInv(st.c, st.w)
    && WriterInv(st.c, st.w)
    && TagInv(st.c.starts, st.q)
    && ModeInv(st.c)
    && WorkersInv(st.c, st.w)
    && FifoInv(st.c, st.w.bcast, st.q)
    && PastInv(st.q)
    && LocksInv(st.c.pc, st.w, st.l)
  }

  // ---------- preservation: the control program ----------

  predicate JoinsDone(p: Ctl, w: Workers) {
    && (p == StopVideo(DecJoin) ==> w.dec == DOff)
    && (p == StopVideo(EncJoin) ==> w.enc == EOff)
    && (p == StopServer(SrvJoin) ==> w.srv == SOff)
    && (p == StopTask(TaskJoin) ==> w.bcast == BOff)
  }

  /** From `p` to `r` the control program holds a mutex after the step that takes it and until the step
      that gives it back. */
  predicate LockMoves(p: Ctl, r: Ctl) {
    && CtrlHoldsQueue(r) ==
         ((p.Build? && p.b.HdrLock?) || p == StopTask(FlushLock)
          || (CtrlHoldsQueue(p) && p != Build(HdrUnlock) && p != StopTask(FlushUnlock)))
    && (r == StopServer(SrvClose) <==> p == StopServer(SrvLock))
  }

  lemma IdleKeeps(c: Ctrl, w: Workers, i: IdlePc, choice: Choice)
    requires c.pc == Idle(i) && i != Gone && JoinsDone(c.pc, w)
    requires PartsInv(c) && ModeInv(c) && WorkersInv(c, w)
    ensures var d := IdleNext(c, i, choice);
      PartsInv(d) && ModeInv(d) && LockMoves(c.pc, d.pc) && WorkersInv(d, CtrlWorkers(c, w))
  {
  }

  lemma IdleKeepsFifo(c: Ctrl, w: Workers, q: Stream, i: IdlePc, choice: Choice)
    requires c.pc == Idle(i) && i != Gone && JoinsDone(c.pc, w)
    requires PartsInv(c) && ModeInv(c) && WorkersInv(c, w)
    requires FifoInv(c, w.bcast, q)
    ensures FifoInv(IdleNext(c, i, choice), CtrlWorkers(c, w).bcast, CtrlStream(c, choice, q))
  {
  }

  lemma BuildKeeps(c: Ctrl, w: Workers, b: BuildPc, choice: Choice)
    requires c.pc == Build(b) && JoinsDone(c.pc, w)
    requires PartsInv(c) && ModeInv(c) && WorkersInv(c, w)
    ensures var d := BuildNext(c, b, choice);
      PartsInv(d) && ModeInv(d) && LockMoves(c.pc, d.pc) && WorkersInv(d, CtrlWorkers(c, w))
  {
  }

  lemma PushFlows(server: bool, now: Cycle, hand: seq<Buf>, queue: seq<Buf>, b: Buf)
    requires Flow(server, now, hand, queue)
    ensures Flow(server, now.(wrote := now.wrote + [b]), hand, queue + [b])
  {
    if server {
      assert now.cast + hand + (queue + [b]) == (now.cast + hand + queue) + [b];
    }
  }

  lemma PushKeepsFifo(c: Ctrl, d: Ctrl, p: BcastPc, q: Stream, b: Buf)
    requires FifoInv(c, p, q) && c.task && d.task && d.server == c.server && !EarlyBuild(d.pc)
    ensures FifoInv(d, p, Push(q, b))
  {
    PushFlows(c.server, q.now, Hand(p), q.queue, b);
  }

  lemma BuildKeepsFifo(c: Ctrl, w: Workers, q: Stream, b: BuildPc, choice: Choice)
    requires c.pc == Build(b) && JoinsDone(c.pc, w)
    requires PartsInv(c) && ModeInv(c) && WorkersInv(c, w)
    requires FifoInv(c, w.bcast, q)
    ensures FifoInv(BuildNext(c, b, choice), CtrlWorkers(c, w).bcast, CtrlStream(c, choice, q))
  {
    if b.HdrPush? {
      PushKeepsFifo(c, BuildNext(c, b, choice), w.bcast, q, b.b);
    } else {
      assert CtrlStream(c, choice, q).(now := q.now) == q && CtrlWorkers(c, w) == w;
      assert CtrlStream(c, choice, q).now.(called := q.now.called) == q.now;
    }
  }

  lemma LaunchKeeps(c: Ctrl, w: Workers, r: LaunchPc)
    requires c.pc == Launch(r) && JoinsDone(c.pc, w)
    requires PartsInv(c) && ModeInv(c) && WorkersInv(c, w)
    ensures var d := LaunchNext(c, r);
      PartsInv(d) && ModeInv(d) && LockMoves(c.pc, d.pc) && WorkersInv(d, CtrlWorkers(c, w))
  {
  }

  lemma LaunchKeepsFifo(c: Ctrl, w: Workers, q: Stream, choice: Choice, r: LaunchPc)
    requires c.pc == Launch(r) && JoinsDone(c.pc, w)
    requires PartsInv(c) && ModeInv(c) && WorkersInv(c, w)
    requires FifoInv(c, w.bcast, q)
    ensures FifoInv(LaunchNext(c, r), CtrlWorkers(c, w).bcast, CtrlStream(c, choice, q))
  {
  }

  lemma StopVideoKeeps(c: Ctrl, w: Workers, v: VideoPc)
    requires c.pc == StopVideo(v) && JoinsDone(c.pc, w)
    requires PartsInv(c) && ModeInv(c) && WorkersInv(c, w)
    ensures var d := VideoNext(c, v);
      PartsInv(d) && ModeInv(d) && LockMoves(c.pc, d.pc) && WorkersInv(d, CtrlWorkers(c, w))
  {
  }

  lemma StopVideoKeepsFifo(c: Ctrl, w: Workers, q: Stream, choice: Choice, v: VideoPc)
    requires c.pc == StopVideo(v) && JoinsDone(c.pc, w)
    requires PartsInv(c) && ModeInv(c) && WorkersInv(c, w)
    requires FifoInv(c, w.bcast, q)
    ensures FifoInv(VideoNext(c, v), CtrlWorkers(c, w).bcast, CtrlStream(c, choice, q))
  {
  }

  lemma StopServerKeeps(c: Ctrl, w: Workers, s: ServerPc)
    requires c.pc == StopServer(s) && JoinsDone(c.pc, w)
    requires PartsInv(c) && ModeInv(c) && WorkersInv(c, w)
    ensures var d := ServerNext(c, s, w.srvOn);
      PartsInv(d) && ModeInv(d) && LockMoves(c.pc, d.pc) && WorkersInv(d, CtrlWorkers(c, w))
  {
  }

  lemma StopServerKeepsFifo(c: Ctrl, w: Workers, q: Stream, choice: Choice, s: ServerPc)
    requires c.pc == StopServer(s) && JoinsDone(c.pc, w)
    requires PartsInv(c) && ModeInv(c) && WorkersInv(c, w)
    requires FifoInv(c, w.bcast, q)
    ensures FifoInv(ServerNext(c, s, w.srvOn), CtrlWorkers(c, w).bcast, CtrlStream(c, choice, q))
  {
  }

  lemma StopTaskKeeps(c: Ctrl, w: Workers, q: Stream, t: TaskPc)
    requires c.pc == StopTask(t) && JoinsDone(c.pc, w)
    requires PartsInv(c) && ModeInv(c) && WorkersInv(c, w)
    ensures var d := TaskNext(c, t, q.queue == []);
      PartsInv(d) && ModeInv(d) && LockMoves(c.pc, d.pc) && WorkersInv(d, CtrlWorkers(c, w))
  {
  }

  lemma StopTaskKeepsFifo(c: Ctrl, w: Workers, q: Stream, choice: Choice, t: TaskPc)
    requires c.pc == StopTask(t) && JoinsDone(c.pc, w)
    requires PartsInv(c) && ModeInv(c) && WorkersInv(c, w)
    requires FifoInv(c, w.bcast, q)
    ensures FifoInv(TaskNext(c, t, q.queue == []), CtrlWorkers(c, w).bcast, CtrlStream(c, choice, q))
  {
  }

  lemma ControlKeepsQueueMtx(p: Ctl, r: Ctl, e: EncPc, b: BcastPc, l: Locks)
    requires QueueMtxInv(p, e, b, l.queue) && LockMoves(p, r)
    requires (p.Build? && p.b.HdrLock?) || p == StopTask(FlushLock) ==> l.queue == None
    ensures QueueMtxInv(r, e, b, CtrlLocks(p, l).queue)
  {
  }

  lemma ControlKeepsSessionsMtx(p: Ctl, r: Ctl, b: BcastPc, s: SrvPc, l: Locks)
    requires SessionsMtxInv(p, b, s, l.sessions) && LockMoves(p, r)
    requires p == StopServer(SrvLock) ==> l.sessions == None
    ensures SessionsMtxInv(r, b, s, CtrlLocks(p, l).sessions)
  {
  }

  /** A thread it starts was not running and holds nothing yet. */
  ghost predicate Spawns(w: Workers, w2: Workers) {
    && (w2.dec == w.dec || (w.dec == DOff && w2.dec == DHead))
    && (w2.enc == w.enc || (w.enc == EOff && w2.enc == EHead))
    && (w2.bcast == w.bcast || (w.bcast == BOff && w2.bcast == BHead))
    && (w2.srv == w.srv || (w.srv == SOff && w2.srv == SHead))
  }

  lemma ControlSpawns(c: Ctrl, w: Workers)
    requires WorkersInv(c, w)
    ensures Spawns(w, CtrlWorkers(c, w))
  {
    if c.pc.Launch? {
      LaunchSpawns(c, w, c.pc.r);
    } else {
      OthersSpawnNone(c, w);
    }
  }

  lemma LaunchSpawns(c: Ctrl, w: Workers, r: LaunchPc)
    requires c.pc == Launch(r) && WorkersInv(c, w)
    ensures Spawns(w, LaunchWorkers(r, w, c.output))
  {
  }

  lemma OthersSpawnNone(c: Ctrl, w: Workers)
    requires !c.pc.Launch?
    ensures Spawns(w, CtrlWorkers(c, w))
  {
  }

  lemma ControlKeepsLocks(c: Ctrl, r: Ctl, w: Workers, l: Locks)
    requires WorkersInv(c, w) && LocksInv(c.pc, w, l) && LockMoves(c.pc, r)
    requires (c.pc.Build? && c.pc.b.HdrLock?) || c.pc == StopTask(FlushLock) ==> l.queue == None
    requires c.pc == StopServer(SrvLock) ==> l.sessions == None
    ensures LocksInv(r, CtrlWorkers(c, w), CtrlLocks(c.pc, l))
  {
    var w2 := CtrlWorkers(c, w);
    ControlSpawns(c, w);
    ControlKeepsQueueMtx(c.pc, r, w2.enc, w2.bcast, l);
    ControlKeepsSessionsMtx(c.pc, r, w2.bcast, w2.srv, l);
  }

  lemma ControlKeepsPast(c: Ctrl, choice: Choice, q: Stream, p: BcastPc)
    requires FifoInv(c, p, q) && PastInv(q)
    ensures PastInv(CtrlStream(c, choice, q))
  {
  }

  lemma RegionKeeps(st: State, choice: Choice)
    requires Inv(st) && ControlEnabled(st)
    ensures var d := CtrlNext(st.c, choice, st.w.srvOn, st.q.queue == []);
      && PartsInv(d) && ModeInv(d) && LockMoves(st.c.pc, d.pc)
      && WorkersInv(d, CtrlWorkers(st.c, st.w))
      && FifoInv(d, CtrlWorkers(st.c, st.w).bcast, CtrlStream(st.c, choice, st.q))
  {
    match st.c.pc
    case Idle(i) => IdleKeeps(st.c, st.w, i, choice); IdleKeepsFifo(st.c, st.w, st.q, i, choice);
    case Build(b) => BuildKeeps(st.c, st.w, b, choice); BuildKeepsFifo(st.c, st.w, st.q, b, choice);
    case Launch(r) => LaunchKeeps(st.c, st.w, r); LaunchKeepsFifo(st.c, st.w, st.q, choice, r);
    case StopVideo(v) => StopVideoKeeps(st.c, st.w, v); StopVideoKeepsFifo(st.c, st.w, st.q, choice, v);
    case StopServer(s) => StopServerKeeps(st.c, st.w, s); StopServerKeepsFifo(st.c, st.w, st.q, choice, s);
    case StopTask(t) => StopTaskKeeps(st.c, st.w, st.q, t); StopTaskKeepsFifo(st.c, st.w, st.q, choice, t);
  }

  lemma ControlKeepsInv(st: State, choice: Choice)
    requires Inv(st) && ControlEnabled(st)
    ensures Inv(ControlDo(st, choice))
  {
    RegionKeeps(st, choice);
    var d := CtrlNext(st.c, choice, st.w.srvOn, st.q.queue == []);
    ControlKeepsLocks(st.c, d.pc, st.w, st.l);
    ControlKeepsWriter(st.c, st.w, choice, st.q.queue == []);
    ControlKeepsUp(st.c, st.w, choice, st.q.queue == []);
    ControlKeepsCall(st.c, st.w, choice, st.q.queue == [], st.q);
    ControlKeepsTag(st.c, st.w, choice, st.q.queue == [], st.q);
    ControlKeepsPast(st.c, choice, st.q, st.w.bcast);
  }

  lemma ControlKeepsWriter(c: Ctrl, w: Workers, choice: Choice, empty: bool)
    requires PartsInv(c) && ModeInv(c) && WorkersInv(c, w) && WriterInv(c, w) && JoinsDone(c.pc, w)
    ensures var d := CtrlNext(c, choice, w.srvOn, empty); WriterInv(d, CtrlWorkers(c, w))
  {
    match c.pc
    case Idle(i) => IdleKeepsWriter(c, w, i, choice);
    case Build(b) => BuildKeepsWriter(c, w, b, choice);
    case Launch(r) => LaunchKeepsWriter(c, w, r);
    case StopVideo(v) => StopVideoKeepsWriter(c, w, v);
    case StopServer(s) => StopServerKeepsWriter(c, w, s);
    case StopTask(t) => StopTaskKeepsWriter(c, w, t, empty);
  }

  lemma IdleKeepsWriter(c: Ctrl, w: Workers, i: IdlePc, choice: Choice)
    requires c.pc == Idle(i) && PartsInv(c) && WorkersInv(c, w) && WriterInv(c, w)
    ensures WriterInv(IdleNext(c, i, choice), CtrlWorkers(c, w))
  {
  }

  lemma BuildKeepsWriter(c: Ctrl, w: Workers, b: BuildPc, choice: Choice)
    requires c.pc == Build(b) && PartsInv(c) && WorkersInv(c, w) && WriterInv(c, w)
    ensures WriterInv(BuildNext(c, b, choice), CtrlWorkers(c, w))
  {
  }

  lemma LaunchKeepsWriter(c: Ctrl, w: Workers, r: LaunchPc)
    requires c.pc == Launch(r) && PartsInv(c) && WriterInv(c, w)
    ensures WriterInv(LaunchNext(c, r), CtrlWorkers(c, w))
  {
  }

  lemma StopVideoKeepsWriter(c: Ctrl, w: Workers, v: VideoPc)
    requires c.pc == StopVideo(v) && WriterInv(c, w)
    ensures WriterInv(VideoNext(c, v), CtrlWorkers(c, w))
  {
  }

  lemma StopServerKeepsWriter(c: Ctrl, w: Workers, s: ServerPc)
    requires c.pc == StopServer(s) && WriterInv(c, w)
    ensures WriterInv(ServerNext(c, s, w.srvOn), CtrlWorkers(c, w))
  {
  }

  lemma StopTaskKeepsWriter(c: Ctrl, w: Workers, t: TaskPc, empty: bool)
    requires c.pc == StopTask(t) && WriterInv(c, w)
    ensures WriterInv(TaskNext(c, t, empty), CtrlWorkers(c, w))
  {
  }

  lemma ControlKeepsUp(c: Ctrl, w: Workers, choice: Choice, empty: bool)
    requires UpInv(c, w) && PartsInv(c) && ModeInv(c)
    ensures UpInv(CtrlNext(c, choice, w.srvOn, empty), CtrlWorkers(c, w))
  {
    match c.pc
    case Idle(i) => IdleKeepsUp(c, w, i, choice);
    case Build(b) => BuildKeepsUp(c, w, b, choice);
    case Launch(r) => LaunchKeepsUp(c, w, r);
    case StopVideo(v) => StopVideoKeepsUp(c, w, v);
    case StopServer(s) => StopServerKeepsUp(c, w, s);
    case StopTask(t) => StopTaskKeepsUp(c, w, t, empty);
  }

  lemma IdleKeepsUp(c: Ctrl, w: Workers, i: IdlePc, choice: Choice)
    requires c.pc == Idle(i) && UpInv(c, w)
    ensures UpInv(IdleNext(c, i, choice), CtrlWorkers(c, w))
  {
  }

  lemma BuildKeepsUp(c: Ctrl, w: Workers, b: BuildPc, choice: Choice)
    requires c.pc == Build(b) && UpInv(c, w)
    ensures UpInv(BuildNext(c, b, choice), CtrlWorkers(c, w))
  {
  }

  lemma LaunchKeepsUp(c: Ctrl, w: Workers, r: LaunchPc)
    requires c.pc == Launch(r) && UpInv(c, w)
    ensures UpInv(LaunchNext(c, r), CtrlWorkers(c, w))
  {
  }

  lemma StopVideoKeepsUp(c: Ctrl, w: Workers, v: VideoPc)
    requires c.pc == StopVideo(v) && UpInv(c, w)
    ensures UpInv(VideoNext(c, v), CtrlWorkers(c, w))
  {
  }

  lemma StopServerKeepsUp(c: Ctrl, w: Workers, s: ServerPc)
    requires c.pc == StopServer(s) && UpInv(c, w)
    ensures UpInv(ServerNext(c, s, w.srvOn), CtrlWorkers(c, w))
  {
  }

  lemma StopTaskKeepsUp(c: Ctrl, w: Workers, t: TaskPc, empty: bool)
    requires c.pc == StopTask(t) && UpInv(c, w) && PartsInv(c) && ModeInv(c)
    ensures UpInv(TaskNext(c, t, empty), CtrlWorkers(c, w))
  {
  }

  /** The control thread calls the callback, pushes, closes a stream off, or leaves its history alone. */
  lemma ControlKeepsCall(c: Ctrl, w: Workers, choice: Choice, empty: bool, q: Stream)
    requires PartsInv(c) && WorkersInv(c, w) && CallInv(c.pc, w.enc, q)
    ensures CallInv(CtrlNext(c, choice, w.srvOn, empty).pc, CtrlWorkers(c, w).enc, CtrlStream(c, choice, q))
  {
    match c.pc
    case Idle(i) => IdleKeepsCall(c, w, i, choice, q);
    case Build(b) => BuildKeepsCall(c, w, b, choice, q);
    case Launch(r) => LaunchKeepsCall(c, w, r, q, choice);
    case _ => StopsKeepCall(c, w, choice, empty, q);
  }

  lemma IdleKeepsCall(c: Ctrl, w: Workers, i: IdlePc, choice: Choice, q: Stream)
    requires c.pc == Idle(i) && PartsInv(c) && WorkersInv(c, w) && CallInv(c.pc, w.enc, q)
    ensures CallInv(IdleNext(c, i, choice).pc, w.enc, CtrlStream(c, choice, q))
  {
  }

  lemma BuildKeepsCall(c: Ctrl, w: Workers, b: BuildPc, choice: Choice, q: Stream)
    requires c.pc == Build(b) && PartsInv(c) && WorkersInv(c, w) && CallInv(c.pc, w.enc, q)
    ensures CallInv(BuildNext(c, b, choice).pc, w.enc, CtrlStream(c, choice, q))
  {
    assert !EncCarries(w.enc);
  }

  lemma LaunchKeepsCall(c: Ctrl, w: Workers, r: LaunchPc, q: Stream, choice: Choice)
    requires c.pc == Launch(r) && WorkersInv(c, w) && CallInv(c.pc, w.enc, q)
    ensures CallInv(LaunchNext(c, r).pc, CtrlWorkers(c, w).enc, CtrlStream(c, choice, q))
  {
    LaunchSpawns(c, w, r);
    SameHands(c.pc, LaunchNext(c, r).pc, w.enc, LaunchWorkers(r, w, c.output).enc, q);
  }

  lemma SameHands(p: Ctl, p2: Ctl, e: EncPc, e2: EncPc, q: Stream)
    requires CallInv(p, e, q) && !p.Build? && !p2.Build? && (e2 == e || (e == EOff && e2 == EHead))
    ensures CallInv(p2, e2, q)
  {
  }

  lemma StopsKeepCall(c: Ctrl, w: Workers, choice: Choice, empty: bool, q: Stream)
    requires Stops(c.pc) && CallInv(c.pc, w.enc, q)
    ensures CallInv(CtrlNext(c, choice, w.srvOn, empty).pc, CtrlWorkers(c, w).enc, CtrlStream(c, choice, q))
  {
    StopsStay(c, choice, w.srvOn, empty);
  }

  lemma StopsStay(c: Ctrl, choice: Choice, srvOn: bool, empty: bool)
    requires Stops(c.pc)
    ensures Stops(CtrlNext(c, choice, srvOn, empty).pc) || CtrlNext(c, choice, srvOn, empty).pc.Idle?
  {
  }

  lemma PushKeepsTag(starts: nat, q: Stream, b: Buf)
    requires TagInv(starts, q) && b.stream == starts
    ensures TagInv(starts, Push(q, b))
  {
  }

  lemma ControlKeepsTag(c: Ctrl, w: Workers, choice: Choice, empty: bool, q: Stream)
    requires WriterInv(c, w) && TagInv(c.starts, q)
    ensures TagInv(CtrlNext(c, choice, w.srvOn, empty).starts, CtrlStream(c, choice, q))
  {
    StartsGrows(c, choice, w.srvOn, empty);
    if c.pc.Build? && c.pc.b.HdrPush? {
      PushKeepsTag(c.starts, q, c.pc.b.b);
    }
  }

  lemma StartsGrows(c: Ctrl, choice: Choice, srvOn: bool, empty: bool)
    ensures CtrlNext(c, choice, srvOn, empty).starts == c.starts + if StartsNow(c, choice) then 1 else 0
  {
    match c.pc
    case Idle(i) => IdleStarts(c, i, choice);
    case Build(b) => BuildStarts(c, b, choice);
    case Launch(r) => LaunchStarts(c, r);
    case _ => StopsStart(c, choice, srvOn, empty);
  }

  lemma LaunchStarts(c: Ctrl, r: LaunchPc)
    ensures LaunchNext(c, r).starts == c.starts
  {
  }

  lemma StopsStart(c: Ctrl, choice: Choice, srvOn: bool, empty: bool)
    requires Stops(c.pc)
    ensures CtrlNext(c, choice, srvOn, empty).starts == c.starts
  {
  }

  lemma IdleStarts(c: Ctrl, i: IdlePc, choice: Choice)
    requires c.pc == Idle(i)
    ensures IdleNext(c, i, choice).starts == c.starts + if StartsNow(c, choice) then 1 else 0
  {
  }

  lemma BuildStarts(c: Ctrl, b: BuildPc, choice: Choice)
    ensures BuildNext(c, b, choice).starts == c.starts
  {
  }

  // ---------- preservation: the other threads ----------

  lemma MainKeepsInv(st: State, sigint: bool)
    requires Inv(st) && MainEnabled(st.c)
    ensures Inv(st.(c := MainDo(st.c, sigint)))
  {
  }

  lemma DecKeepsGraph(d: DecPc, e: EncPc, m: Option<Actor>, on: bool, some: bool)
    requires GraphMtxInv(d, e, m) && d != DOff && (d == DLock ==> m == None)
    ensures GraphMtxInv(DecNext(d, on, some), e, DecGraph(d, m))
  {
  }

  lemma DecKeepsInv(st: State, some: bool)
    requires Inv(st) && DecEnabled(st)
    ensures Inv(DecDo(st, some))
  {
    DecKeepsGraph(st.w.dec, st.w.enc, st.l.graph, st.w.decOn, some);
  }

  lemma EncKeepsQueueMtx(p: Ctl, w: Workers, m: Option<Actor>, server: bool, frame: bool, write: Option<nat>)
    requires QueueMtxInv(p, w.enc, w.bcast, m) && w.enc != EOff && (w.enc.EQLock? ==> m == None)
    ensures QueueMtxInv(p, EncNext(w, server, frame, write), w.bcast, EncQueue(w.enc, m))
  {
  }

  lemma EncKeepsGraphMtx(d: DecPc, w: Workers, m: Option<Actor>, server: bool, frame: bool, write: Option<nat>)
    requires GraphMtxInv(d, w.enc, m) && w.enc != EOff && (w.enc == ELock ==> m == None)
    ensures GraphMtxInv(d, EncNext(w, server, frame, write), EncGraph(w.enc, m))
  {
  }

  lemma EncKeepsWriter(c: Ctrl, w: Workers, frame: bool, write: Option<nat>)
    requires WriterInv(c, w) && w.enc != EOff
    ensures WriterInv(c, w.(enc := EncNext(w, c.server, frame, write)))
  {
  }

  lemma EncKeepsStream(c: Ctrl, w: Workers, q: Stream, write: Option<nat>)
    requires PartsInv(c) && WorkersInv(c, w) && WriterInv(c, w) && w.enc != EOff
    requires FifoInv(c, w.bcast, q) && TagInv(c.starts, q) && PastInv(q)
    ensures var q2 := EncStream(w, q, write); FifoInv(c, w.bcast, q2) && TagInv(c.starts, q2) && PastInv(q2)
  {
    if w.enc.EQPush? {
      PushKeepsFifo(c, c, w.bcast, q, w.enc.b);
      PushKeepsTag(c.starts, q, w.enc.b);
    }
  }

  lemma EncKeepsCall(c: Ctrl, w: Workers, q: Stream, frame: bool, write: Option<nat>)
    requires PartsInv(c) && WorkersInv(c, w) && CallInv(c.pc, w.enc, q) && w.enc != EOff
    ensures CallInv(c.pc, EncNext(w, c.server, frame, write), EncStream(w, q, write))
  {
    assert c.server && HdrHand(c.pc) == [];
  }

  lemma EncKeepsInv(st: State, frame: bool, write: Option<nat>)
    requires Inv(st) && EncEnabled(st)
    ensures Inv(EncDo(st, frame, write))
  {
    EncKeepsQueueMtx(st.c.pc, st.w, st.l.queue, st.c.server, frame, write);
    EncKeepsGraphMtx(st.w.dec, st.w, st.l.graph, st.c.server, frame, write);
    EncKeepsWriter(st.c, st.w, frame, write);
    EncKeepsStream(st.c, st.w, st.q, write);
    EncKeepsCall(st.c, st.w, st.q, frame, write);
  }

  lemma BcastKeepsQueueMtx(p: Ctl, e: EncPc, b: BcastPc, m: Option<Actor>, on: bool, queue: seq<Buf>, server: bool)
    requires QueueMtxInv(p, e, b, m) && b != BOff && (b == BQLock ==> m == None)
    ensures QueueMtxInv(p, e, BcastNext(b, on, queue, server), BcastQueue(b, m))
  {
  }

  lemma BcastKeepsSessionsMtx(p: Ctl, b: BcastPc, s: SrvPc, m: Option<Actor>, on: bool, queue: seq<Buf>, server: bool)
    requires SessionsMtxInv(p, b, s, m) && b != BOff && (b == BSLock ==> m == None)
    ensures SessionsMtxInv(p, BcastNext(b, on, queue, server), s, BcastSessions(b, m))
  {
  }

  lemma PopFlows(now: Cycle, queue: seq<Buf>)
    requires queue != [] && Flow(true, now, [], queue)
    ensures Flow(true, now, [queue[0]], queue[1..])
  {
    assert now.cast + [queue[0]] + queue[1..] == now.cast + [] + queue;
  }

  lemma CastFlows(now: Cycle, b: Buf, queue: seq<Buf>)
    requires Flow(true, now, [b], queue)
    ensures Flow(true, now.(cast := now.cast + [b]), [], queue)
  {
    assert (now.cast + [b]) + [] + queue == now.cast + [b] + queue;
  }

  lemma BcastKeepsFifo(c: Ctrl, b: BcastPc, q: Stream, on: bool)
    requires FifoInv(c, b, q)
    ensures FifoInv(c, BcastNext(b, on, q.queue, c.server), BcastStream(b, q, c.server))
  {
    if b == BPop && c.server && q.queue != [] {
      PopFlows(q.now, q.queue);
    } else if b.BTest? && c.server {
      CastFlows(q.now, b.b, q.queue);
    }
  }

  lemma BcastKeepsInv(st: State)
    requires Inv(st) && BcastEnabled(st)
    ensures Inv(BcastDo(st))
  {
    BcastKeepsQueueMtx(st.c.pc, st.w.enc, st.w.bcast, st.l.queue, st.w.taskOn, st.q.queue, st.c.server);
    BcastKeepsSessionsMtx(st.c.pc, st.w.bcast, st.w.srv, st.l.sessions, st.w.taskOn, st.q.queue, st.c.server);
    BcastKeepsFifo(st.c, st.w.bcast, st.q, st.w.taskOn);
  }

  lemma SrvKeepsSessionsMtx(p: Ctl, b: BcastPc, s: SrvPc, m: Option<Actor>, on: bool, accepted: bool)
    requires SessionsMtxInv(p, b, s, m) && s != SOff && (s == SLock || s == SCleanLock ==> m == None)
    ensures SessionsMtxInv(p, b, SrvNext(s, on, accepted), SrvSessions(s, m))
  {
  }

  lemma SrvKeepsInv(st: State, accepted: bool)
    requires Inv(st) && SrvEnabled(st)
    ensures Inv(SrvDo(st, accepted))
  {
    SrvKeepsSessionsMtx(st.c.pc, st.w.bcast, st.w.srv, st.l.sessions, st.w.srvOn, accepted);
  }

  lemma StepKeepsInv(st: State, step: Step)
    requires Inv(st) && Enabled(st, step)
    ensures Inv(Do(st, step))
  {
    match step
    case MainStep(sigint) => MainKeepsInv(st, sigint);
    case ControlStep(choice) => ControlKeepsInv(st, choice);
    case DecStep(some) => DecKeepsInv(st, some);
    case EncStep(frame, write) => EncKeepsInv(st, frame, write);
    case BcastStep => BcastKeepsInv(st);
    case SrvStep(accepted) => SrvKeepsInv(st, accepted);
  }

  lemma InitInv(st: State)
    requires Init(st)
    ensures Inv(st)
  {
  }

  lemma {:induction false} RunKeepsInv(tr: seq<State>, steps: seq<Step>, i: nat)
    requires Run(tr, steps) && i < |tr|
    ensures Inv(tr[i])
  {
    if i == 0 {
      InitInv(tr[0]);
    } else {
      RunKeepsInv(tr, steps, i - 1);
      assert Stepped(tr, steps, i - 1);
      StepKeepsInv(tr[i - 1], steps[i - 1]);
    }
  }
}
