/** What holds of the running application under every schedule, command sequence and failure. */
module StreamingTheorems {
  import opened Wrappers
  import opened Streaming
  import opened StreamingInvariant

  // ---------- stream isolation ----------

  /** In every stream, the finished ones and the current one, failed starts included, what was handed to
      Server::broadcast is a prefix, in order, of what was pushed for that same stream, and all of it was
      written by the output that the start of that stream built. */
  lemma StreamIsolation(tr: seq<State>, steps: seq<Step>, i: nat)
    requires Run(tr, steps) && i < |tr|
    ensures tr[i].q.now.cast <= tr[i].q.now.wrote && AllOf(tr[i].q.now.wrote, |tr[i].q.past|)
    ensures forall k :: 0 <= k < |tr[i].q.past| ==>
              tr[i].q.past[k].cast <= tr[i].q.past[k].wrote && AllOf(tr[i].q.past[k].wrote, k)
  {
    RunKeepsInv(tr, steps, i);
  }

  /** While the server exists no buffer is lost between push and broadcast: whatever was pushed for this
      stream was broadcast, is in the broadcaster's hand, or waits in the queue, in this order. */
  lemma NothingLost(tr: seq<State>, steps: seq<Step>, i: nat)
    requires Run(tr, steps) && i < |tr| && tr[i].c.server
    ensures tr[i].q.now.wrote == tr[i].q.now.cast + Hand(tr[i].w.bcast) + tr[i].q.queue
  {
    RunKeepsInv(tr, steps, i);
  }

  lemma HistoryGrows(tr: seq<State>, steps: seq<Step>, i: nat)
    requires Run(tr, steps) && i < |steps|
    ensures tr[i].q.past <= tr[i + 1].q.past <= tr[i].q.past + [tr[i].q.now]
    ensures tr[i + 1].q.past == tr[i].q.past ==>
              tr[i].q.now.wrote <= tr[i + 1].q.now.wrote && tr[i].q.now.cast <= tr[i + 1].q.now.cast
  {
    assert Stepped(tr, steps, i);
  }

  /** The record of a finished stream never changes, and as long as a stream is the current one its
      record only grows. */
  lemma {:induction false} HistoryIsFinal(tr: seq<State>, steps: seq<Step>, i: nat, j: nat)
    requires Run(tr, steps) && i <= j < |tr|
    ensures tr[i].q.past <= tr[j].q.past
    ensures |tr[j].q.past| == |tr[i].q.past| ==>
              tr[i].q.now.wrote <= tr[j].q.now.wrote && tr[i].q.now.cast <= tr[j].q.now.cast
    decreases j
  {
    if i < j {
      HistoryIsFinal(tr, steps, i, j - 1);
      HistoryGrows(tr, steps, j - 1);
    }
  }

  /** A new stream finds nothing of an earlier one: no buffer queued or in hand, no component, no
      worker, and all three mutexes free. */
  lemma StartsClean(tr: seq<State>, steps: seq<Step>, i: nat)
    requires Run(tr, steps) && i < |tr| && tr[i].c.pc.Idle? && tr[i].c.state != RUNNING
    ensures tr[i].q.queue == [] && Hand(tr[i].w.bcast) == []
    ensures !tr[i].c.server && !tr[i].c.task && !tr[i].c.video
    ensures tr[i].w.dec == DOff && tr[i].w.enc == EOff && tr[i].w.bcast == BOff && tr[i].w.srv == SOff
    ensures tr[i].l == Locks(None, None, None)
  {
    RunKeepsInv(tr, steps, i);
  }

  /** The write callback loses nothing: in every stream, what it was called with, for the header and by the
      encoder, it pushed, in order, but for the one buffer it may be busy with; and it finds a server. */
  lemma CallbackDelivers(tr: seq<State>, steps: seq<Step>, i: nat)
    requires Run(tr, steps) && i < |tr|
    ensures tr[i].q.now.called == tr[i].q.now.wrote + HdrHand(tr[i].c.pc) + EncHand(tr[i].w.enc)
    ensures forall k :: 0 <= k < |tr[i].q.past| ==> tr[i].q.past[k].called == tr[i].q.past[k].wrote
    ensures HdrCarries(tr[i].c.pc) || EncCarries(tr[i].w.enc) ==> tr[i].c.server
  {
    RunKeepsInv(tr, steps, i);
  }

  /** RUNNING between commands means that decoder, encoder, broadcaster and server threads were started, that
      none has ended, and that none was told to. */
  lemma RunningMeansAlive(tr: seq<State>, steps: seq<Step>, i: nat)
    requires Run(tr, steps) && i < |tr| && tr[i].c.pc.Idle? && tr[i].c.state == RUNNING
    ensures tr[i].w.decOn && tr[i].w.dec != DOff && tr[i].w.encOn && tr[i].w.enc != EOff
    ensures tr[i].w.taskOn && tr[i].w.bcast != BOff && tr[i].w.srvOn && tr[i].w.srv != SOff
  {
    RunKeepsInv(tr, steps, i);
  }

  /** RUNNING, seen between commands, means everything exists; anything else means nothing does. */
  lemma RunningMeansUp(tr: seq<State>, steps: seq<Step>, i: nat)
    requires Run(tr, steps) && i < |tr| && tr[i].c.pc.Idle?
    ensures tr[i].c.state == RUNNING <==> tr[i].c.server
    ensures tr[i].c.state == RUNNING <==> tr[i].c.task
    ensures tr[i].c.state == RUNNING <==> tr[i].c.video
  {
    RunKeepsInv(tr, steps, i);
  }

  // ---------- mutexes and waiting ----------

  /** No thread ever holds two mutexes. */
  lemma OneMutexEach(tr: seq<State>, steps: seq<Step>, i: nat, a: Actor)
    requires Run(tr, steps) && i < |tr|
    ensures !(tr[i].l.queue == Some(a) && tr[i].l.graph == Some(a))
    ensures !(tr[i].l.queue == Some(a) && tr[i].l.sessions == Some(a))
    ensures !(tr[i].l.graph == Some(a) && tr[i].l.sessions == Some(a))
  {
    RunKeepsInv(tr, steps, i);
  }

  predicate Ended(st: State, a: Actor) {
    match a
    case Main => st.c.main == MDrive || st.c.main == MExit    // as MDrive it is the Control actor
    case Control => st.c.pc == Idle(Gone)
    case Decoder => st.w.dec == DOff
    case Encoder => st.w.enc == EOff
    case Broadcaster => st.w.bcast == BOff
    case ServerLoop => st.w.srv == SOff
  }

  function Unless(done: bool, a: Actor): Option<Actor> {
    if done then None else Some(a)
  }

  function CtrlBlocker(p: Ctl, w: Workers, l: Locks): Option<Actor> {
    if p.Build? && p.b.HdrLock? then l.queue
    else if p == StopVideo(DecJoin) then Unless(w.dec == DOff, Decoder)
    else if p == StopVideo(EncJoin) then Unless(w.enc == EOff, Encoder)
    else if p == StopServer(SrvJoin) then Unless(w.srv == SOff, ServerLoop)
    else if p == StopServer(SrvLock) then l.sessions
    else if p == StopTask(TaskJoin) then Unless(w.bcast == BOff, Broadcaster)
    else if p == StopTask(FlushLock) then l.queue
    else None
  }

  /** The thread that must move before `a` can. */
  function Blocker(st: State, a: Actor): Option<Actor> {
    match a
    case Main => if st.c.main == MJoin then Unless(st.c.pc == Idle(Gone), Control) else None
    case Control => CtrlBlocker(st.c.pc, st.w, st.l)
    case Decoder => if st.w.dec == DLock then st.l.graph else None
    case Encoder => if st.w.enc == ELock then st.l.graph else if st.w.enc.EQLock? then st.l.queue else None
    case Broadcaster =>
      if st.w.bcast == BQLock then st.l.queue else if st.w.bcast == BSLock then st.l.sessions else None
    case ServerLoop => if st.w.srv == SLock || st.w.srv == SCleanLock then st.l.sessions else None
  }

  predicate CtrlJoins(p: Ctl) {
    p == StopVideo(DecJoin) || p == StopVideo(EncJoin) || p == StopServer(SrvJoin) || p == StopTask(TaskJoin)
  }

  predicate CtrlLocking(p: Ctl) {
    (p.Build? && p.b.HdrLock?) || p == StopServer(SrvLock) || p == StopTask(FlushLock)
  }

  predicate Locking(w: Workers, a: Actor) {
    match a
    case Decoder => w.dec == DLock
    case Encoder => w.enc == ELock || w.enc.EQLock?
    case Broadcaster => w.bcast == BQLock || w.bcast == BSLock
    case ServerLoop => w.srv == SLock || w.srv == SCleanLock
    case _ => false
  }

  function Rank(st: State, a: Actor): nat {
    match a
    case Main => 4
    case Control => if CtrlJoins(st.c.pc) then 3 else if CtrlLocking(st.c.pc) then 2 else 1
    case _ => if Locking(st.w, a) then 2 else 1
  }

  lemma CtrlWaitsGoDown(st: State)
    requires Inv(st) && Blocker(st, Control).Some?
    ensures var b := Blocker(st, Control).value; Rank(st, b) < Rank(st, Control) && !Ended(st, b)
  {
  }

  /** Every wait of these threads for a mutex or for one another's end goes to a thread of lower rank that
      has not ended. */
  lemma WaitsGoDown(st: State, a: Actor)
    requires Inv(st) && Blocker(st, a).Some?
    ensures var b := Blocker(st, a).value; Rank(st, b) < Rank(st, a) && !Ended(st, b)
  {
    if a == Control {
      CtrlWaitsGoDown(st);
    }
  }

  // ---------- what the broadcaster still has to do ----------

  /** The buffers for which it may yet take sessionsMtx. */
  function Backlog(st: State): nat {
    |st.q.queue| + |Hand(st.w.bcast)| + if st.w.bcast == BSLock then 1 else 0
  }

  predicate TakesMutex(st: State, st2: State) {
    st.w.bcast == BSLock && st2.w.bcast == BSend
  }

  /** While a server is being stopped nobody pushes, and each time the broadcaster takes the mutex one
      buffer less is left. */
  lemma BacklogShrinks(st: State, step: Step)
    requires Inv(st) && Enabled(st, step) && st.c.pc.StopServer?
    ensures Backlog(Do(st, step)) + (if TakesMutex(st, Do(st, step)) then 1 else 0) <= Backlog(st)
  {
    match step
    case ControlStep(choice) => StopLeavesQueue(st.c, st.w, choice, st.q);
    case BcastStep => BcastShrinks(st);
    case _ =>
  }

  lemma StopLeavesQueue(c: Ctrl, w: Workers, choice: Choice, q: Stream)
    requires c.pc.StopServer?
    ensures CtrlStream(c, choice, q) == q && CtrlWorkers(c, w).bcast == w.bcast
  {
  }

  lemma BcastShrinks(st: State)
    requires BcastEnabled(st)
    ensures Backlog(BcastDo(st)) + (if TakesMutex(st, BcastDo(st)) then 1 else 0) <= Backlog(st)
  {
  }
}
