/** What the application's threads deliver: frames, buffers, and the outcome of each command. */
module StreamingProgress {
  import opened Wrappers
  import opened Streaming
  import opened StreamingInvariant

  lemma StepAt(tr: seq<State>, steps: seq<Step>, k: nat)
    requires Run(tr, steps) && k < |steps|
    ensures Inv(tr[k]) && Enabled(tr[k], steps[k]) && tr[k + 1] == Do(tr[k], steps[k])
  {
    RunKeepsInv(tr, steps, k);
    assert Stepped(tr, steps, k);
  }

  // ---------- what the write callback is called with ----------

  /** The buffers the current stream's output has called the callback with, by the steps taken. */
  function CalledBy(tr: seq<State>, steps: seq<Step>, i: nat): seq<Buf>
    requires i <= |steps| < |tr|
  {
    if i == 0 then [] else CallStep(CalledBy(tr, steps, i - 1), tr[i - 1], steps[i - 1])
  }

  function CallStep(called: seq<Buf>, st: State, step: Step): seq<Buf> {
    match step
    case ControlStep(choice) =>
      if StartsNow(st.c, choice) then []
      else if st.c.pc == Build(Header) && choice.Write? then called + [Buf(st.c.output, choice.data)]
      else called
    case EncStep(_, write) =>
      if st.w.enc == EEncode && write.Some? then called + [Buf(st.w.encOf, write.value)] else called
    case _ => called
  }

  lemma CallsAt(st: State, step: Step)
    ensures Do(st, step).q.now.called == CallStep(st.q.now.called, st, step)
  {
  }

  lemma CalledAt(tr: seq<State>, steps: seq<Step>, k: nat)
    requires Run(tr, steps) && k < |steps|
    ensures tr[k + 1].q.now.called == CallStep(tr[k].q.now.called, tr[k], steps[k])
  {
    StepAt(tr, steps, k);
    CallsAt(tr[k], steps[k]);
  }

  lemma {:induction false} CallsAre(tr: seq<State>, steps: seq<Step>, i: nat)
    requires Run(tr, steps) && i < |tr|
    ensures tr[i].q.now.called == CalledBy(tr, steps, i)
  {
    if i > 0 {
      CallsAre(tr, steps, i - 1);
      CalledAt(tr, steps, i - 1);
    }
  }

  // ---------- packets and frames ----------

  /** Packets read and packets decoded to their end; frames decoded, pushed into the graph, popped from it,
      and encoded. */
  datatype Tally = Tally(read: nat, drained: nat, decoded: nat, pushed: nat, popped: nat, encoded: nat)

  function Add(t: Tally, st: State, step: Step): Tally {
    match step
    case DecStep(some) =>
      if st.w.dec == DRead && some then t.(read := t.read + 1)
      else if st.w.dec == DDecode then
        if some then t.(decoded := t.decoded + 1) else t.(drained := t.drained + 1)
      else if st.w.dec == DPush then t.(pushed := t.pushed + 1)
      else t
    case EncStep(frame, write) =>
      if st.w.enc == EPop && frame then t.(popped := t.popped + 1)
      else if st.w.enc == EEncode && write.None? then t.(encoded := t.encoded + 1)
      else t
    case _ => t
  }

  function Tallied(tr: seq<State>, steps: seq<Step>, i: nat): Tally
    requires i <= |steps| < |tr|
  {
    if i == 0 then Tally(0, 0, 0, 0, 0, 0) else Add(Tallied(tr, steps, i - 1), tr[i - 1], steps[i - 1])
  }

  predicate Decoding(d: DecPc) {
    d == DDecode || d == DLock || d == DPush || d == DUnlock
  }

  predicate Encoding(e: EncPc) {
    e == EUnlock(true) || e == EEncode || e.ETest? || e.EQLock? || e.EQPush? || e == EQUnlock
  }

  predicate Counted(w: Workers, t: Tally) {
    && t.read == t.drained + (if Decoding(w.dec) then 1 else 0)
    && t.decoded == t.pushed + (if w.dec == DLock || w.dec == DPush then 1 else 0)
    && t.popped == t.encoded + (if Encoding(w.enc) then 1 else 0)
  }

  lemma DecCounts(st: State, some: bool, t: Tally)
    requires DecEnabled(st) && Counted(st.w, t)
    ensures Counted(DecDo(st, some).w, Add(t, st, DecStep(some)))
  {
  }

  lemma EncCounts(st: State, frame: bool, write: Option<nat>, t: Tally)
    requires EncEnabled(st) && Counted(st.w, t)
    ensures Counted(EncDo(st, frame, write).w, Add(t, st, EncStep(frame, write)))
  {
  }

  lemma StepCounts(st: State, step: Step, t: Tally)
    requires Inv(st) && Enabled(st, step) && Counted(st.w, t)
    ensures Counted(Do(st, step).w, Add(t, st, step))
  {
    match step
    case MainStep(_) =>
    case ControlStep(choice) => ControlSpawns(st.c, st.w);
    case DecStep(some) => DecCounts(st, some, t);
    case EncStep(frame, write) => EncCounts(st, frame, write, t);
    case BcastStep =>
    case SrvStep(_) =>
  }

  lemma CountsAt(tr: seq<State>, steps: seq<Step>, k: nat, t: Tally)
    requires Run(tr, steps) && k < |steps| && Counted(tr[k].w, t)
    ensures Counted(tr[k + 1].w, Add(t, tr[k], steps[k]))
  {
    StepAt(tr, steps, k);
    StepCounts(tr[k], steps[k], t);
  }

  /** Every packet read is decoded, every frame decoded is pushed into the graph, every frame popped is
      encoded, each before the next. */
  lemma {:induction false} EachFrameCounts(tr: seq<State>, steps: seq<Step>, i: nat)
    requires Run(tr, steps) && i < |tr|
    ensures Counted(tr[i].w, Tallied(tr, steps, i))
  {
    if i > 0 {
      EachFrameCounts(tr, steps, i - 1);
      CountsAt(tr, steps, i - 1, Tallied(tr, steps, i - 1));
    }
  }

  // ---------- the broadcaster empties the queue ----------

  /** How many steps the broadcaster takes until it has broadcast `n` queued buffers, and what it has in hand. */
  function DrainLeft(b: BcastPc, n: nat): nat {
    match b
    case BOff => 0
    case BHead => 7 * n
    case BQLock => if n == 0 then 3 else 7 * n - 1
    case BPop => if n == 0 then 2 else 7 * n - 2
    case BQUnlock(None) => 7 * n + 1
    case BQUnlock(Some(_)) => 7 * n + 4
    case BTest(_) => 7 * n + 3
    case BSLock => 7 * n + 2
    case BSend => 7 * n + 1
  }

  lemma DrainNears(st: State)
    requires st.w.taskOn && st.c.server && st.w.bcast != BOff && DrainLeft(st.w.bcast, |st.q.queue|) > 0
    ensures DrainLeft(BcastDo(st).w.bcast, |BcastDo(st).q.queue|) < DrainLeft(st.w.bcast, |st.q.queue|)
  {
  }

  /** With none left everything pushed in this stream has been broadcast. */
  lemma DrainDone(st: State)
    requires Inv(st) && st.c.server && st.w.bcast != BOff && DrainLeft(st.w.bcast, |st.q.queue|) == 0
    ensures st.q.now.cast == st.q.now.wrote
  {
    assert st.q.now.cast + [] + [] == st.q.now.cast;
  }

  /** Only the broadcaster moves from the i-th to the j-th moment. */
  ghost predicate Alone(steps: seq<Step>, i: nat, j: nat)
    requires j <= |steps|
  {
    forall k {:trigger steps[k]} :: i <= k < j ==> steps[k] == BcastStep
  }

  lemma DrainAt(tr: seq<State>, steps: seq<Step>, k: nat)
    requires Run(tr, steps) && k < |steps| && steps[k] == BcastStep && tr[k].w.taskOn && tr[k].c.server
    ensures tr[k + 1].w.taskOn && tr[k + 1].c.server
    ensures tr[k].w.bcast != BOff && tr[k + 1].w.bcast != BOff
    ensures DrainLeft(tr[k].w.bcast, |tr[k].q.queue|) > 0 ==>
              DrainLeft(tr[k + 1].w.bcast, |tr[k + 1].q.queue|) < DrainLeft(tr[k].w.bcast, |tr[k].q.queue|)
  {
    StepAt(tr, steps, k);
    StepKeepsInv(tr[k], steps[k]);
    if DrainLeft(tr[k].w.bcast, |tr[k].q.queue|) > 0 { DrainNears(tr[k]); }
  }

  /** While a stream runs, DrainLeft steps of the broadcaster are enough to broadcast all that was pushed. */
  lemma {:induction false} BroadcasterDrains(tr: seq<State>, steps: seq<Step>, i: nat, j: nat) returns (m: nat)
    requires Run(tr, steps) && i <= j < |tr| && Alone(steps, i, j) && tr[i].w.taskOn && tr[i].c.server
    requires j - i >= DrainLeft(tr[i].w.bcast, |tr[i].q.queue|)
    ensures i <= m <= j && tr[m].q.now.cast == tr[m].q.now.wrote
    decreases j - i
  {
    if DrainLeft(tr[i].w.bcast, |tr[i].q.queue|) == 0 {
      RunKeepsInv(tr, steps, i);
      DrainDone(tr[i]);
      return i;
    }
    DrainAt(tr, steps, i);
    m := BroadcasterDrains(tr, steps, i + 1, j);
  }

  // ---------- commands are obeyed ----------

  /** Between a stop command, given to an application that was not waiting, and the next idle moment. */
  predicate Stopping(c: Ctrl) {
    (Stops(c.pc) && c.why == Command) || (c.pc.Idle? && c.state == WAITTING)
  }

  /** Between a start command and the next idle moment, without a failure and with one. */
  predicate Starting(c: Ctrl) {
    c.pc.Build? || c.pc.Launch? || (c.pc.Idle? && c.state == RUNNING)
  }

  predicate Failing(c: Ctrl, before: StreamState) {
    c.state == before && ((Stops(c.pc) && c.why == Failure) || c.pc.Idle?)
  }

  /** The step is that of a start command that throws. */
  predicate Throws(st: State, step: Step) {
    && step == ControlStep(Fail) && st.c.pc.Build?
    && (st.c.pc.b == NewServer || st.c.pc.b == Video || st.c.pc.b == DecInit || st.c.pc.b == Header
        || st.c.pc.b == Tasks)
  }

  lemma StopGoesOn(st: State, step: Step)
    requires Inv(st) && Enabled(st, step) && Stopping(st.c) && Stops(st.c.pc)
    ensures Stopping(Do(st, step).c)
  {
    if step.ControlStep? { StopsNext(st.c, step.choice, st.w.srvOn, st.q.queue == []); }
  }

  /** What a control step does in the stopping part. */
  lemma StopsNext(c: Ctrl, choice: Choice, srvOn: bool, empty: bool)
    requires Stops(c.pc)
    ensures StopsAs(c, CtrlNext(c, choice, srvOn, empty))
  {
    match c.pc
    case StopVideo(v) => VideoStops(c, v);
    case StopServer(s) => ServerStops(c, s, srvOn);
    case StopTask(t) => TaskStops(c, t, empty);
  }

  /** It goes on stopping, with the state as it is, or is done, with the state that the reason asks for. */
  predicate StopsAs(c: Ctrl, d: Ctrl) {
    && d.why == c.why
    && (if Stops(d.pc) then d.state == c.state
        else d.pc.Idle? && d.state ==
             if c.why == Command then WAITTING else if c.why == Failure then c.state else STOPPED)
  }

  lemma VideoStops(c: Ctrl, v: VideoPc)
    ensures StopsAs(c, VideoNext(c, v))
  {
  }

  lemma ServerStops(c: Ctrl, s: ServerPc, srvOn: bool)
    ensures StopsAs(c, ServerNext(c, s, srvOn))
  {
  }

  lemma TaskStops(c: Ctrl, t: TaskPc, empty: bool)
    ensures StopsAs(c, TaskNext(c, t, empty))
  {
  }

  lemma StartGoesOn(st: State, step: Step)
    requires Inv(st) && Enabled(st, step) && Starting(st.c) && !st.c.pc.Idle?
    ensures if Throws(st, step) then Failing(Do(st, step).c, st.c.state) else Starting(Do(st, step).c)
    ensures Do(st, step).c.pc.Build? ==> Do(st, step).c.state == st.c.state
    ensures Do(st, step).c.pc.Launch? ==> Do(st, step).c.state == st.c.state
  {
    if step.ControlStep? { StartsNext(st.c, step.choice, st.w.srvOn, st.q.queue == []); }
  }

  lemma StartsNext(c: Ctrl, choice: Choice, srvOn: bool, empty: bool)
    requires PartsInv(c) && (c.pc.Build? || c.pc.Launch?)
    ensures var d := CtrlNext(c, choice, srvOn, empty);
      if choice == Fail && c.pc.Build?
         && (c.pc.b == NewServer || c.pc.b == Video || c.pc.b == DecInit || c.pc.b == Header || c.pc.b == Tasks)
      then Stops(d.pc) && d.why == Failure && d.state == c.state
      else if c.pc == Launch(SetRunning) then d.pc.Idle? && d.state == RUNNING
      else (d.pc.Build? || d.pc.Launch?) && d.state == c.state
  {
    match c.pc
    case Build(b) =>
    case Launch(r) =>
  }

  lemma FailGoesOn(st: State, step: Step, before: StreamState)
    requires Inv(st) && Enabled(st, step) && Failing(st.c, before) && Stops(st.c.pc)
    ensures Failing(Do(st, step).c, before)
  {
    if step.ControlStep? { StopsNext(st.c, step.choice, st.w.srvOn, st.q.queue == []); }
  }

  /** No idle moment from behind the i-th up to before the j-th. */
  ghost predicate Busy(tr: seq<State>, i: nat, j: nat)
    requires j <= |tr|
  {
    forall k {:trigger tr[k]} :: i < k < j ==> !tr[k].c.pc.Idle?
  }

  /** A stop command leaves the application waiting. */
  lemma {:induction false} StopIsObeyed(tr: seq<State>, steps: seq<Step>, i: nat, j: nat)
    requires Run(tr, steps) && i < j < |tr| && tr[i].c.pc == Idle(Poll) && steps[i] == ControlStep(StopCmd)
    requires Busy(tr, i, j)
    ensures Stopping(tr[j].c)
    decreases j
  {
    if j == i + 1 {
      StepAt(tr, steps, i);
    } else {
      StopIsObeyed(tr, steps, i, j - 1);
      StepAt(tr, steps, j - 1);
      StopGoesOn(tr[j - 1], steps[j - 1]);
    }
  }

  /** A start command, given when nothing runs, makes the application RUNNING unless one of its steps throws;
      if one does the state is what it was. */
  lemma {:induction false} StartIsObeyed(tr: seq<State>, steps: seq<Step>, i: nat, j: nat)
    returns (thrown: bool, m: nat)
    requires Run(tr, steps) && i < j < |tr| && tr[i].c.pc == Idle(Poll) && steps[i] == ControlStep(StartCmd)
    requires Busy(tr, i, j) && tr[i].c.state != RUNNING
    ensures if thrown then i < m < j && Throws(tr[m], steps[m]) && Failing(tr[j].c, tr[i].c.state)
            else Starting(tr[j].c) && (!tr[j].c.pc.Idle? ==> tr[j].c.state == tr[i].c.state)
                 && forall k :: i < k < j ==> !Throws(tr[k], steps[k])
    decreases j
  {
    if j == i + 1 {
      StepAt(tr, steps, i);
      return false, 0;
    }
    thrown, m := StartIsObeyed(tr, steps, i, j - 1);
    if thrown {
      FailAt(tr, steps, j - 1, tr[i].c.state);
    } else {
      StartAt(tr, steps, j - 1);
      if Throws(tr[j - 1], steps[j - 1]) {
        thrown, m := true, j - 1;
      }
    }
  }

  lemma FailAt(tr: seq<State>, steps: seq<Step>, k: nat, before: StreamState)
    requires Run(tr, steps) && k < |steps| && Failing(tr[k].c, before) && !tr[k].c.pc.Idle?
    ensures Failing(tr[k + 1].c, before)
  {
    StepAt(tr, steps, k);
    FailGoesOn(tr[k], steps[k], before);
  }

  lemma StartAt(tr: seq<State>, steps: seq<Step>, k: nat)
    requires Run(tr, steps) && k < |steps| && Starting(tr[k].c) && !tr[k].c.pc.Idle?
    ensures if Throws(tr[k], steps[k]) then Failing(tr[k + 1].c, tr[k].c.state)
            else Starting(tr[k + 1].c)
                 && (Stage(tr[k + 1].c.pc) == Stage(tr[k].c.pc) || Stage(tr[k + 1].c.pc) == Stage(tr[k].c.pc) + 1)
    ensures tr[k + 1].c.pc.Build? || tr[k + 1].c.pc.Launch? ==> tr[k + 1].c.state == tr[k].c.state
  {
    StepAt(tr, steps, k);
    StartGoesOn(tr[k], steps[k]);
    if steps[k].ControlStep? { StagesGrow(tr[k].c, steps[k].choice, tr[k].w.srvOn, tr[k].q.queue == []); }
  }

  /** The parts of a start, in the order of the code. */
  function Stage(p: Ctl): nat {
    match p
    case Build(NewServer) => 0
    case Build(NewTask) => 1
    case Build(Video) => 2
    case Build(DecInit) => 3
    case Build(Tasks) => 5
    case Build(_) => 4
    case Launch(RunTask) => 6
    case Launch(RunServer) => 7
    case Launch(RunDecoder) => 8
    case Launch(RunEncoder) => 9
    case Launch(SetRunning) => 10
    case _ => 11
  }

  lemma StagesGrow(c: Ctrl, choice: Choice, srvOn: bool, empty: bool)
    requires PartsInv(c) && (c.pc.Build? || c.pc.Launch?)
    ensures var d := CtrlNext(c, choice, srvOn, empty);
      Stops(d.pc) || Stage(d.pc) == Stage(c.pc) || Stage(d.pc) == Stage(c.pc) + 1
  {
    match c.pc
    case Build(b) =>
    case Launch(r) =>
  }

  /** A start that makes the application RUNNING has gone through all its parts, one after the other. */
  lemma {:induction false} StartDoesAll(tr: seq<State>, steps: seq<Step>, i: nat, j: nat, n: nat) returns (m: nat)
    requires Run(tr, steps) && i + 1 < j < |tr| && tr[i].c.pc == Idle(Poll) && steps[i] == ControlStep(StartCmd)
    requires Busy(tr, i, j) && tr[i].c.state != RUNNING && n <= Stage(tr[j].c.pc) && n < 11
    requires Starting(tr[j].c) && forall k :: i < k < j ==> !Throws(tr[k], steps[k])
    ensures i < m <= j && Stage(tr[m].c.pc) == n
    decreases j
  {
    StartStage(tr, steps, i, j - 1);
    StartAt(tr, steps, j - 1);
    if n == Stage(tr[j].c.pc) {
      m := j;
    } else if j - 1 == i + 1 {
      m := j - 1;
    } else {
      m := StartDoesAll(tr, steps, i, j - 1, n);
    }
  }

  lemma {:induction false} StartStage(tr: seq<State>, steps: seq<Step>, i: nat, j: nat)
    requires Run(tr, steps) && i < j < |tr| && tr[i].c.pc == Idle(Poll) && steps[i] == ControlStep(StartCmd)
    requires Busy(tr, i, j + 1) && tr[i].c.state != RUNNING && forall k :: i < k < j ==> !Throws(tr[k], steps[k])
    ensures Starting(tr[j].c) && !tr[j].c.pc.Idle? && (j == i + 1 ==> Stage(tr[j].c.pc) == 0)
    decreases j
  {
    if j == i + 1 {
      StepAt(tr, steps, i);
    } else {
      StartStage(tr, steps, i, j - 1);
      StartAt(tr, steps, j - 1);
    }
  }

  // ---------- SIGINT ----------

  /** SIGINT was received: the message thread's flag is down. */
  predicate Told(c: Ctrl) {
    c.main != MPoll && !c.listening
  }

  /** And the message thread is past its last command: it ends, or has ended and the main thread stops
      everything, or has. */
  predicate Final(c: Ctrl) {
    Told(c) && (c.pc == Idle(Test) || c.pc == Idle(Gone) || (Stops(c.pc) && c.why == Exit))
  }

  lemma ToldStays(st: State, step: Step)
    requires Inv(st) && Enabled(st, step)
    ensures Told(st.c) ==> Told(Do(st, step).c)
    ensures Final(st.c) ==> Final(Do(st, step).c)
    ensures step == MainStep(true) && st.c.main == MPoll ==> Told(Do(st, step).c)
  {
    if step.ControlStep? { ControlStays(st.c, step.choice, st.w.srvOn, st.q.queue == []); }
  }

  lemma ControlStays(c: Ctrl, choice: Choice, srvOn: bool, empty: bool)
    requires PartsInv(c) && ModeInv(c) && c.pc != Idle(Gone)
    ensures var d := CtrlNext(c, choice, srvOn, empty); (Told(c) ==> Told(d)) && (Final(c) ==> Final(d))
  {
    match c.pc
    case Idle(i) =>
    case Build(b) => BuildStaysTold(c, b, choice);
    case Launch(r) =>
    case _ => StopsStayTold(c, choice, srvOn, empty);
  }

  lemma BuildStaysTold(c: Ctrl, b: BuildPc, choice: Choice)
    requires c.pc == Build(b)
    ensures Told(c) ==> Told(BuildNext(c, b, choice))
  {
  }

  lemma StopsStayTold(c: Ctrl, choice: Choice, srvOn: bool, empty: bool)
    requires Stops(c.pc)
    ensures var d := CtrlNext(c, choice, srvOn, empty); (Told(c) ==> Told(d)) && (Final(c) ==> Final(d))
  {
    StopsNext(c, choice, srvOn, empty);
    match c.pc
    case StopVideo(v) =>
    case StopServer(s) =>
    case StopTask(t) =>
  }

  lemma ToldAt(tr: seq<State>, steps: seq<Step>, k: nat)
    requires Run(tr, steps) && k < |steps|
    ensures Told(tr[k].c) ==> Told(tr[k + 1].c)
    ensures Final(tr[k].c) ==> Final(tr[k + 1].c)
    ensures steps[k] == MainStep(true) && tr[k].c.main == MPoll ==> Told(tr[k + 1].c)
  {
    StepAt(tr, steps, k);
    ToldStays(tr[k], steps[k]);
  }

  /** After SIGINT the message thread is told to end for good; once its current command is over it begins no
      other, and when the main thread has stopped everything the application is STOPPED. */
  lemma {:induction false} SigintIsObeyed(tr: seq<State>, steps: seq<Step>, i: nat, m: nat, j: nat)
    requires Run(tr, steps) && i < m <= j < |tr| && steps[i] == MainStep(true) && tr[i].c.main == MPoll
    ensures Told(tr[m].c) && Told(tr[j].c)
    ensures tr[m].c.pc == Idle(Test) ==> Final(tr[j].c)
    ensures tr[j].c.main == MExit ==> tr[j].c.state == STOPPED && !tr[j].c.server && !tr[j].c.task && !tr[j].c.video
    decreases j
  {
    if m < j {
      SigintIsObeyed(tr, steps, i, m, j - 1);
      ToldAt(tr, steps, j - 1);
    } else if i + 1 < m {
      SigintIsObeyed(tr, steps, i, i + 1, m - 1);
      ToldAt(tr, steps, m - 1);
    } else {
      ToldAt(tr, steps, i);
    }
    RunKeepsInv(tr, steps, j);
  }
}
