/** What the session protocol guarantees in every interleaving. */
module SessionTheorems {
  import opened Wrappers
  import opened SessionProtocol
  import opened SessionInvariant
  import opened SessionSteps

  // ---------- memory safety ----------

  /** Whoever is about to touch the element at its position in the list finds one there. */
  predicate InBounds(st: State) {
    && (st.server.SJudge? ==> st.server.i < |st.list|)
    && (BcastTouches(st.bcast) ==> st.bcast.i < |st.list|)
    && (StopTouches(st.stopper) ==> st.stopper.i < |st.list|)
  }

  /** Whichever session a thread stands before, or whose own thread can step, has been accepted and not been
      released. */
  ghost predicate TouchesLive(st: State) {
    && (ServerTouches(st.server) ==> Live(st, ServerTarget(st.server, st.list)))
    && (BcastTouches(st.bcast) ==> Live(st, At(st.list, st.bcast.i)))
    && (StopTouches(st.stopper) ==> Live(st, At(st.list, st.stopper.i)))
    && forall s: Sid {:trigger Live(st, s)} :: s in st.sess && SessionEnabled(st, s) ==> Live(st, s)
  }

  lemma AllLive(st: State)
    requires Inv(st)
    ensures TouchesLive(st)
  {
    if ServerTouches(st.server) { ServerAt(st); }
    if BcastTouches(st.bcast) { BcastAt(st); }
    if StopTouches(st.stopper) { StopAt(st); }
    forall s: Sid | s in st.sess && SessionEnabled(st, s) ensures Live(st, s) {
      assert SessInv(st, s);
    }
  }

  /** No step of any run touches a released session or looks past the end of the list, and no session is
      released twice. */
  lemma MemorySafety(tr: seq<State>, steps: seq<Step>, i: nat)
    requires Run(tr, steps) && i < |tr|
    ensures !tr[i].fault && InBounds(tr[i]) && TouchesLive(tr[i])
    ensures forall s: Sid :: s in tr[i].sess ==> tr[i].sess[s].frees <= 1
  {
    RunKeepsInv(tr, steps, i);
    AllLive(tr[i]);
    forall s | s in tr[i].sess ensures tr[i].sess[s].frees <= 1 {
      assert SessInv(tr[i], s);
    }
  }

  /** What a step changes without a fault was not released. */
  lemma TouchesOnlyLive(st: State, step: Step, s: Sid)
    requires !Do(st, step).fault && s in st.sess
    requires step.ServerStep? && step.accepted.Some? ==> ServerEnabled(st, step.accepted)
    ensures s in Do(st, step).sess
    ensures st.sess[s].frees > 0 ==> Do(st, step).sess[s] == st.sess[s]
  {
  }

  /** A released session is never written again; a session is never forgotten. */
  lemma ReleasedIsFrozen(tr: seq<State>, steps: seq<Step>, i: nat, s: Sid)
    requires Run(tr, steps) && i < |steps| && s in tr[i].sess
    ensures s in tr[i + 1].sess
    ensures tr[i].sess[s].frees > 0 ==> tr[i + 1].sess[s] == tr[i].sess[s]
  {
    RunKeepsInv(tr, steps, i + 1);
    assert Stepped(tr, steps, i);
    TouchesOnlyLive(tr[i], steps[i], s);
  }

  lemma InFlightLive(st: State, s: Sid)
    requires Inv(st) && s in st.sess && InFlight(st, s)
    ensures Live(st, s)
  {
    assert SessInv(st, s);
    if BcastCloses(st.bcast) && At(st.list, st.bcast.i) == s {
      BcastAt(st);
    } else if StopCloses(st.stopper) && At(st.list, st.stopper.i) == s {
      StopAt(st);
    } else if ServerCloses(st.server) && st.server.first == s {
      ServerAt(st);
    }
  }

  /** So from its release on it stays as it is. */
  lemma {:induction false} ReleasedForGood(tr: seq<State>, steps: seq<Step>, i: nat, j: nat, s: Sid)
    requires Run(tr, steps) && i <= j < |tr| && s in tr[i].sess
    ensures s in tr[j].sess
    ensures tr[i].sess[s].frees > 0 ==> tr[j].sess[s] == tr[i].sess[s]
    decreases j
  {
    if i < j {
      ReleasedForGood(tr, steps, i, j - 1, s);
      ReleasedIsFrozen(tr, steps, j - 1, s);
    }
  }

  /** Once a session's storage is gone: its thread has ended, no thread is closing it, the socket is
      down, it was announced exactly once and its end at least once. */
  lemma ReleasedIsFinished(tr: seq<State>, steps: seq<Step>, i: nat, s: Sid)
    requires Run(tr, steps) && i < |tr| && s in tr[i].sess && tr[i].sess[s].frees == 1
    ensures var x := tr[i].sess[s];
      && x.pc == Done && x.torn && x.ready == Closed && !x.running
      && x.connects == 1 && x.closes >= 1 && !InFlight(tr[i], s)
  {
    RunKeepsInv(tr, steps, i);
    assert SessInv(tr[i], s);
    if InFlight(tr[i], s) {
      InFlightLive(tr[i], s);
    }
  }

  /** The releasing step itself changes nothing else, so all that held before the storage went. */
  lemma ReleaseChangesNothingElse(tr: seq<State>, steps: seq<Step>, i: nat, s: Sid)
    requires Run(tr, steps) && i < |steps| && s in tr[i].sess
    ensures s in tr[i + 1].sess
    ensures tr[i + 1].sess[s].frees != tr[i].sess[s].frees ==> tr[i + 1].sess[s] == tr[i].sess[s].(frees := 1)
  {
    RunKeepsInv(tr, steps, i);
    assert Stepped(tr, steps, i);
    assert SessInv(tr[i], s);
    ReleasedIsFrozen(tr, steps, i, s);
    RunKeepsInv(tr, steps, i + 1);
    assert SessInv(tr[i + 1], s);
    match steps[i]
    case RunStep =>
    case ServerStep(accepted) => ServerRelease(tr[i], accepted, s);
    case BcastStep(wrote) => BcastRelease(tr[i], wrote, s);
    case StopStep => StopRelease(tr[i], s);
    case SessionStep(r, read) =>
  }

  ghost predicate ReleasesOnly(x: Session, y: Session) {
    y.frees != x.frees ==> y == x.(frees := y.frees)
  }

  lemma ServerRelease(st: State, accepted: Option<Sid>, s: Sid)
    requires s in st.sess && ServerEnabled(st, accepted)
    ensures ReleasesOnly(st.sess[s], Get(ServerDo(st, accepted), s))
  {
    if ServerTouches(st.server) && ServerTarget(st.server, st.list) == s {
      ServerMoveRelease(st.server, s, st.sess[s]);
    }
  }

  lemma ServerMoveRelease(p: ServerPc, s: Sid, x: Session)
    requires ServerTouches(p)
    ensures ReleasesOnly(x, ServerMove(p, s, x).0)
  {
  }

  lemma BcastRelease(st: State, wrote: WriteResult, s: Sid)
    requires s in st.sess
    ensures ReleasesOnly(st.sess[s], Get(BcastDo(st, wrote), s))
  {
    if BcastTouches(st.bcast) {
      assert ReleasesOnly(st.sess[s], BcastMove(st.bcast, st.sess[s], wrote).0);
    }
  }

  lemma StopRelease(st: State, s: Sid)
    requires s in st.sess
    ensures ReleasesOnly(st.sess[s], Get(StopDo(st), s))
  {
    if StopTouches(st.stopper) {
      assert ReleasesOnly(st.sess[s], StopMove(st.stopper, st.sess[s]).0);
    }
  }

  // ---------- conservation ----------

  predicate IsFresh(st: State, s: Sid) {
    s in Fresh(st.server)
  }

  /** In `sessions`, not counting what a running clean-up or stop has already taken out of it. */
  predicate IsListed(st: State, s: Sid) {
    s in Kept(st.server) || s in Unread(st.server, Left(st.stopper, st.list))
  }

  predicate InToFree(st: State, s: Sid) {
    s in Doomed(st.server)
  }

  predicate IsReleased(st: State, s: Sid) {
    s in st.sess && st.sess[s].frees == 1
  }

  function Bit(b: bool): nat {
    if b then 1 else 0
  }

  /** Every accepted session is in exactly one place, and held there once. */
  lemma Conservation(tr: seq<State>, steps: seq<Step>, i: nat, s: Sid)
    requires Run(tr, steps) && i < |tr| && s in tr[i].sess
    ensures var st := tr[i];
      Bit(IsFresh(st, s)) + Bit(IsListed(st, s)) + Bit(InToFree(st, s)) + Bit(IsReleased(st, s)) == 1
    ensures Share(tr[i], s) <= 1
  {
    RunKeepsInv(tr, steps, i);
    var st := tr[i];
    assert SessInv(st, s);
    assert Share(st, s) == if Live(st, s) then 1 else 0;
    CountIn(Fresh(st.server), s);
    CountIn(Kept(st.server), s);
    CountIn(Unread(st.server, Left(st.stopper, st.list)), s);
    CountIn(Doomed(st.server), s);
  }

  /** Nothing but an accepted session is ever held. */
  lemma NoStrays(tr: seq<State>, steps: seq<Step>, i: nat, s: Sid)
    requires Run(tr, steps) && i < |tr|
    requires IsFresh(tr[i], s) || IsListed(tr[i], s) || InToFree(tr[i], s)
    ensures s in tr[i].sess && tr[i].sess[s].frees == 0
  {
    RunKeepsInv(tr, steps, i);
    HeldLive(tr[i], s);
  }

  /** When Server::stop found the server not running, there has never been a session. */
  lemma SkippedStopHasNone(tr: seq<State>, steps: seq<Step>, i: nat)
    requires Run(tr, steps) && i < |tr| && tr[i].stopper == MSkipped
    ensures tr[i].server == SNew && tr[i].list == [] && tr[i].sess == map[]
  {
    RunKeepsInv(tr, steps, i);
  }

  /** When Server::stop has run to its end the list is empty and every session ever accepted, also
      one accepted while stop was waiting, was released exactly once. */
  lemma StopReleasesAll(tr: seq<State>, steps: seq<Step>, i: nat)
    requires Run(tr, steps) && i < |tr| && tr[i].stopper == MDone
    ensures tr[i].list == [] && tr[i].server == SDone
    ensures forall s :: s in tr[i].sess ==> tr[i].sess[s].frees == 1
  {
    RunKeepsInv(tr, steps, i);
    forall s | s in tr[i].sess ensures tr[i].sess[s].frees == 1 {
      assert SessInv(tr[i], s);
      assert Share(tr[i], s) == if Live(tr[i], s) then 1 else 0;
    }
  }

  // ---------- closing ----------

  /** Whatever the closers do, CLOSED means the socket was torn down, CLOSING means somebody is
      still closing, and with nobody closing a session that was being closed is CLOSED. */
  lemma CloseConverges(tr: seq<State>, steps: seq<Step>, i: nat, s: Sid)
    requires Run(tr, steps) && i < |tr| && s in tr[i].sess
    ensures var x := tr[i].sess[s];
      && (x.ready == Closed ==> x.torn)
      && (x.ready == Closing ==> InFlight(tr[i], s))
      && (Closish(x) && !InFlight(tr[i], s) ==> x.ready == Closed)
  {
    RunKeepsInv(tr, steps, i);
    assert SessInv(tr[i], s);
  }

  lemma ClosingStep(tr: seq<State>, steps: seq<Step>, k: nat, s: Sid)
    requires Run(tr, steps) && k < |steps| && s in tr[k].sess && Closish(tr[k].sess[s])
    ensures s in tr[k + 1].sess && Closish(tr[k + 1].sess[s])
  {
    RunKeepsInv(tr, steps, k);
    assert Stepped(tr, steps, k);
    StepReady(tr[k], steps[k], s);
    ReleasedIsFrozen(tr, steps, k, s);
  }

  /** Once a close has begun the session never opens again. */
  lemma {:induction false} ClosingIsForGood(tr: seq<State>, steps: seq<Step>, i: nat, j: nat, s: Sid)
    requires Run(tr, steps) && i <= j < |tr| && s in tr[i].sess && Closish(tr[i].sess[s])
    ensures s in tr[j].sess && Closish(tr[j].sess[s])
    decreases j
  {
    if i < j {
      ClosingIsForGood(tr, steps, i, j - 1, s);
      ClosingStep(tr, steps, j - 1, s);
    }
  }

  predicate MarksAt(c: ClosePc) {
    c == Mark || c == CodeMark
  }

  predicate DelMarks(d: DelPc) {
    d.DelClose? && MarksAt(d.c)
  }

  /** The thread taking `step` is about to write CLOSING to `s`. */
  predicate Marks(st: State, step: Step, s: Sid) {
    match step
    case RunStep => false
    case ServerStep(_) => st.server.SDel? && st.server.first == s && DelMarks(st.server.d)
    case BcastStep(_) => st.bcast.BClose? && At(st.list, st.bcast.i) == s && MarksAt(st.bcast.c)
    case StopStep =>
      || (st.stopper.MClose? && At(st.list, st.stopper.i) == s && MarksAt(st.stopper.c))
      || (st.stopper.MDel? && At(st.list, st.stopper.i) == s && DelMarks(st.stopper.d))
    case SessionStep(r, _) => r == s && Get(st, s).pc.Close? && MarksAt(Get(st, s).pc.c)
  }

  /** From a session being closed to the next state: still being closed, and CLOSING only if `marks`. */
  ghost predicate StaysClosish(x: Session, y: Session, marks: bool) {
    && (Closish(x) ==> Closish(y))
    && (x.ready == Closed ==> (y.ready == Closing <==> marks))
  }

  lemma ServerReady(st: State, accepted: Option<Sid>, s: Sid)
    requires Inv(st) && ServerEnabled(st, accepted) && s in st.sess
    ensures StaysClosish(st.sess[s], Get(ServerDo(st, accepted), s), Marks(st, ServerStep(accepted), s))
  {
    assert SessInv(st, s);
    if ServerTouches(st.server) && ServerTarget(st.server, st.list) == s {
      ServerMoveReady(st.server, s, st.sess[s]);
    }
  }

  lemma ServerMoveReady(p: ServerPc, s: Sid, x: Session)
    requires ServerTouches(p) && (p.SOpen? ==> x.ready == Connecting)
    ensures StaysClosish(x, ServerMove(p, s, x).0, p.SDel? && DelMarks(p.d))
  {
  }

  lemma BcastReady(st: State, wrote: WriteResult, s: Sid)
    requires s in st.sess
    ensures StaysClosish(st.sess[s], Get(BcastDo(st, wrote), s), Marks(st, BcastStep(wrote), s))
  {
    if BcastTouches(st.bcast) {
      assert StaysClosish(st.sess[s], BcastMove(st.bcast, st.sess[s], wrote).0,
        st.bcast.BClose? && MarksAt(st.bcast.c));
    }
  }

  lemma StopReady(st: State, s: Sid)
    requires s in st.sess
    ensures StaysClosish(st.sess[s], Get(StopDo(st), s), Marks(st, StopStep, s))
  {
    if StopTouches(st.stopper) {
      assert StaysClosish(st.sess[s], StopMove(st.stopper, st.sess[s]).0,
        (st.stopper.MClose? && MarksAt(st.stopper.c)) || (st.stopper.MDel? && DelMarks(st.stopper.d)));
    }
  }

  lemma StepReady(st: State, step: Step, s: Sid)
    requires Inv(st) && Enabled(st, step) && s in st.sess
    ensures StaysClosish(st.sess[s], Get(Do(st, step), s), Marks(st, step, s))
  {
    match step
    case RunStep =>
    case ServerStep(accepted) => ServerReady(st, accepted, s);
    case BcastStep(wrote) => BcastReady(st, wrote, s);
    case StopStep => StopReady(st, s);
    case SessionStep(r, read) =>
      if r == s {
        assert StaysClosish(st.sess[s], ThreadStep(st.sess[s], read), st.sess[s].pc.Close? && MarksAt(st.sess[s].pc.c));
      }
  }

  // ---------- CLOSED is not final: when it is ----------

  predicate ThreadPast(x: Session) {
    x.pc.Close? && MarksAt(x.pc.c)
  }

  predicate BcastPast(p: BcastPc, list: seq<Sid>, s: Sid) {
    p.BClose? && MarksAt(p.c) && At(list, p.i) == s
  }

  predicate StopPast(p: StopPc, list: seq<Sid>, s: Sid) {
    ((p.MClose? && MarksAt(p.c)) || (p.MDel? && DelMarks(p.d))) && At(list, p.i) == s
  }

  predicate ServerPast(p: ServerPc, s: Sid) {
    p.SDel? && DelMarks(p.d) && p.first == s
  }

  /** Some thread has passed the guard of a close of `s` and not yet written CLOSING. */
  predicate PastGuard(st: State, s: Sid) {
    || ThreadPast(Get(st, s))
    || BcastPast(st.bcast, st.list, s)
    || StopPast(st.stopper, st.list, s)
    || ServerPast(st.server, s)
  }

  /** A continuation of a run from `st`. */
  ghost predicate Continues(st: State, tr: seq<State>, steps: seq<Step>) {
    && |tr| == |steps| + 1 && tr[0] == st
    && forall i :: 0 <= i < |steps| ==> Stepped(tr, steps, i)
  }

  ghost predicate ClosedIn(st: State, s: Sid) {
    s in st.sess && st.sess[s].ready == Closed
  }

  /** Nobody passes a guard that reads CLOSED. */
  lemma GuardHolds(st: State, step: Step, s: Sid)
    requires Inv(st) && Enabled(st, step) && ClosedIn(st, s) && !PastGuard(st, s)
    ensures ClosedIn(Do(st, step), s) && !PastGuard(Do(st, step), s)
  {
    assert SessInv(st, s);
    StepReady(st, step, s);
    match step
    case RunStep =>
    case ServerStep(accepted) => ServerGuard(st, accepted, s);
    case BcastStep(wrote) => BcastGuard(st, wrote, s);
    case StopStep => StopGuard(st, s);
    case SessionStep(r, read) =>
  }

  /** What a step of the server thread leaves alone. */
  lemma ServerSpares(st: State, accepted: Option<Sid>, s: Sid)
    requires LockInv(st) && StopInv(st) && ServerEnabled(st, accepted) && s in st.sess
    ensures var st2 := ServerDo(st, accepted);
      && st2.bcast == st.bcast && st2.stopper == st.stopper
      && (BcastTouches(st.bcast) || StopTouches(st.stopper) ==> st2.list == st.list)
      && (Get(st2, s).pc == st.sess[s].pc || Get(st2, s).pc == Head)
  {
    if ServerTouches(st.server) {
      ServerMoveSpares(st.server, ServerTarget(st.server, st.list), Get(st, ServerTarget(st.server, st.list)));
    } else {
      ServerPassSpares(st, accepted, s);
    }
  }

  lemma ServerMoveSpares(p: ServerPc, s: Sid, x: Session)
    requires ServerTouches(p)
    ensures var y := ServerMove(p, s, x).0; y.pc == x.pc || y.pc == Head
  {
  }

  lemma ServerPassSpares(st: State, accepted: Option<Sid>, s: Sid)
    requires LockInv(st) && StopInv(st) && !ServerTouches(st.server) && ServerEnabled(st, accepted) && s in st.sess
    ensures var st2 := ServerPass(st, accepted);
      && st2.bcast == st.bcast && st2.stopper == st.stopper
      && (BcastTouches(st.bcast) || StopTouches(st.stopper) ==> st2.list == st.list)
      && s in st2.sess && st2.sess[s] == st.sess[s]
  {
  }

  lemma ServerMovePast(p: ServerPc, t: Sid, x: Session, s: Sid)
    requires ServerTouches(p) && (p.SDel? ==> p.first == t)
    ensures ServerPast(ServerMove(p, t, x).1, s) ==> s == t && x.ready != Closed
  {
  }

  lemma ServerGuard(st: State, accepted: Option<Sid>, s: Sid)
    requires LockInv(st) && StopInv(st) && ServerEnabled(st, accepted) && ClosedIn(st, s) && !PastGuard(st, s)
    ensures !PastGuard(ServerDo(st, accepted), s)
  {
    ServerSpares(st, accepted, s);
    if ServerTouches(st.server) {
      var t := ServerTarget(st.server, st.list);
      ServerMovePast(st.server, t, Get(st, t), s);
    }
  }

  lemma BcastMovePast(p: BcastPc, x: Session, wrote: WriteResult)
    requires BcastTouches(p)
    ensures var (y, q) := BcastMove(p, x, wrote);
      && y.pc == x.pc && (q.BClose? ==> q.i == p.i)
      && (q.BClose? && MarksAt(q.c) ==> x.ready != Closed)
      && (q.BClose? <== y.closes != x.closes)
  {
  }

  lemma BcastGuard(st: State, wrote: WriteResult, s: Sid)
    requires LockInv(st) && BcastEnabled(st) && ClosedIn(st, s) && !PastGuard(st, s)
    ensures !PastGuard(BcastDo(st, wrote), s)
  {
    if BcastTouches(st.bcast) {
      BcastMovePast(st.bcast, Get(st, At(st.list, st.bcast.i)), wrote);
    }
  }

  lemma StopMovePast(p: StopPc, x: Session)
    requires StopTouches(p)
    ensures var (y, q) := StopMove(p, x);
      && y.pc == x.pc
      && (q.MClose? || q.MDel? ==> q.i == p.i)
      && ((q.MClose? && MarksAt(q.c)) || (q.MDel? && DelMarks(q.d)) ==> x.ready != Closed)
      && (q.MClose? <== y.closes != x.closes)
  {
  }

  lemma StopGuard(st: State, s: Sid)
    requires LockInv(st) && StopEnabled(st) && ClosedIn(st, s) && !PastGuard(st, s)
    ensures !PastGuard(StopDo(st), s)
  {
    if StopTouches(st.stopper) {
      StopMovePast(st.stopper, Get(st, At(st.list, st.stopper.i)));
    }
  }

  lemma ContinueStep(st: State, tr: seq<State>, steps: seq<Step>, k: nat, s: Sid)
    requires Continues(st, tr, steps) && k < |steps| && Inv(tr[k]) && ClosedIn(tr[k], s) && !PastGuard(tr[k], s)
    ensures Inv(tr[k + 1]) && ClosedIn(tr[k + 1], s) && !PastGuard(tr[k + 1], s)
  {
    assert Stepped(tr, steps, k);
    StepKeepsInv(tr[k], steps[k]);
    GuardHolds(tr[k], steps[k], s);
  }

  lemma {:induction false} ClosedForGood(st: State, tr: seq<State>, steps: seq<Step>, j: nat, s: Sid)
    requires Inv(st) && Continues(st, tr, steps) && j < |tr| && ClosedIn(st, s) && !PastGuard(st, s)
    ensures Inv(tr[j]) && ClosedIn(tr[j], s) && !PastGuard(tr[j], s)
  {
    if j > 0 {
      ClosedForGood(st, tr, steps, j - 1, s);
      ContinueStep(st, tr, steps, j - 1, s);
    }
  }

  /** The step of a thread past the guard. */
  lemma GuardBreaks(st: State, s: Sid) returns (step: Step)
    requires Inv(st) && ClosedIn(st, s) && PastGuard(st, s)
    ensures Enabled(st, step) && s in Do(st, step).sess && Do(st, step).sess[s].ready == Closing
  {
    if ThreadPast(st.sess[s]) {
      step := SessionStep(s, Got);
    } else if BcastPast(st.bcast, st.list, s) {
      step := BcastStep(Sent);
    } else if ServerPast(st.server, s) {
      step := ServerStep(None);
    } else {
      step := StopStep;
    }
    StepReady(st, step, s);
  }

  /** A session that is CLOSED stays so in every continuation of the run exactly when no closer is past
      its guard. */
  lemma ClosedIsFinalIff(tr: seq<State>, steps: seq<Step>, i: nat, s: Sid)
    requires Run(tr, steps) && i < |tr| && ClosedIn(tr[i], s)
    ensures (forall tr2, steps2 :: Continues(tr[i], tr2, steps2) ==> ClosedIn(tr2[|steps2|], s))
       <==> !PastGuard(tr[i], s)
  {
    var st := tr[i];
    RunKeepsInv(tr, steps, i);
    if PastGuard(st, s) {
      var step := GuardBreaks(st, s);
      var tr2, steps2 := [st, Do(st, step)], [step];
      assert Continues(st, tr2, steps2) && !ClosedIn(tr2[|steps2|], s);
    } else {
      forall tr2, steps2 | Continues(st, tr2, steps2) ensures ClosedIn(tr2[|steps2|], s) {
        ClosedForGood(st, tr2, steps2, |steps2|, s);
      }
    }
  }

  // ---------- how often, and when, onClose is called ----------

  predicate BcastInside(p: BcastPc, list: seq<Sid>, s: Sid) {
    p.BClose? && At(list, p.i) == s
  }

  predicate StopInside(p: StopPc, list: seq<Sid>, s: Sid) {
    (p.MClose? || p.MDel?) && At(list, p.i) == s
  }

  predicate ServerInside(p: ServerPc, s: Sid) {
    p.SDel? && p.first == s
  }

  /** Some thread is inside a close or a delete of `s`, past the call of onClose that comes first. */
  predicate Inside(st: State, s: Sid) {
    || Get(st, s).pc.Close?
    || BcastInside(st.bcast, st.list, s)
    || StopInside(st.stopper, st.list, s)
    || ServerInside(st.server, s)
  }

  /** A session of which onClose was called is closing, closed, or about to be. */
  predicate Announced(st: State, s: Sid) {
    s in st.sess && st.sess[s].closes >= 1 ==> Closish(st.sess[s]) || Inside(st, s)
  }

  lemma StepKeepsAnnounced(st: State, step: Step, s: Sid)
    requires Inv(st) && Enabled(st, step) && Announced(st, s)
    ensures Announced(Do(st, step), s)
  {
    if s in st.sess && !Closish(st.sess[s]) {
      assert SessInv(st, s);
      match step
      case RunStep =>
      case ServerStep(accepted) => ServerAnnounces(st, accepted, s);
      case BcastStep(wrote) => BcastAnnounces(st, wrote, s);
      case StopStep => StopAnnounces(st, s);
      case SessionStep(r, read) => if r == s { ThreadAnnounces(st.sess[s], read); }
    } else if s in st.sess {
      StepReady(st, step, s);
    }
  }

  lemma ThreadAnnounces(x: Session, read: ReadResult)
    requires SelfInv(x)
    ensures var y := ThreadStep(x, read);
      (x.pc.Close? || y.closes != x.closes ==> Closish(y) || y.pc.Close?) && (Closish(x) ==> Closish(y))
  {
  }

  lemma ServerMoveInside(p: ServerPc, t: Sid, x: Session)
    requires ServerTouches(p) && SelfInv(x) && (p.SDel? ==> p.first == t && DelOk(x, p.d))
    requires p.SOpen? ==> x.ready == Connecting
    ensures var (y, q) := ServerMove(p, t, x);
      y.closes == x.closes && (p.SDel? ==> Closish(y) || ServerInside(q, t)) && (Closish(x) ==> Closish(y))
  {
  }

  lemma ServerAnnounces(st: State, accepted: Option<Sid>, s: Sid)
    requires Inv(st) && ServerEnabled(st, accepted) && s in st.sess && Announced(st, s)
    ensures Announced(ServerDo(st, accepted), s)
  {
    ServerSpares(st, accepted, s);
    if ServerTouches(st.server) {
      var t := ServerTarget(st.server, st.list);
      ServerAt(st);
      assert SessInv(st, t);
      ServerMoveInside(st.server, t, Get(st, t));
    }
  }

  lemma BcastMoveInside(p: BcastPc, x: Session, wrote: WriteResult)
    requires BcastTouches(p) && (p.BClose? ==> CloserOk(x, p.c))
    ensures var (y, q) := BcastMove(p, x, wrote);
      (p.BClose? || y.closes != x.closes ==> Closish(y) || q.BClose?) && (Closish(x) ==> Closish(y))
  {
  }

  lemma BcastAnnounces(st: State, wrote: WriteResult, s: Sid)
    requires LockInv(st) && BcastInv(st) && BcastEnabled(st) && s in st.sess && Announced(st, s)
    ensures Announced(BcastDo(st, wrote), s)
  {
    if BcastTouches(st.bcast) {
      var x := Get(st, At(st.list, st.bcast.i));
      BcastMovePast(st.bcast, x, wrote);
      BcastMoveInside(st.bcast, x, wrote);
    }
  }

  lemma StopMoveInside(p: StopPc, x: Session)
    requires StopTouches(p) && SelfInv(x) && (p.MClose? ==> CloserOk(x, p.c)) && (p.MDel? ==> DelOk(x, p.d))
    ensures var (y, q) := StopMove(p, x); Closish(y) || q.MClose? || q.MDel?
  {
  }

  lemma StopAnnounces(st: State, s: Sid)
    requires Inv(st) && StopEnabled(st) && s in st.sess && Announced(st, s)
    ensures Announced(StopDo(st), s)
  {
    if StopTouches(st.stopper) {
      var x := Get(st, At(st.list, st.stopper.i));
      StopAt(st);
      assert SessInv(st, At(st.list, st.stopper.i));
      StopMovePast(st.stopper, x);
      StopMoveInside(st.stopper, x);
    }
  }

  lemma AnnouncedStep(tr: seq<State>, steps: seq<Step>, k: nat, s: Sid)
    requires Run(tr, steps) && k < |steps| && Announced(tr[k], s)
    ensures Announced(tr[k + 1], s)
  {
    RunKeepsInv(tr, steps, k);
    assert Stepped(tr, steps, k);
    StepKeepsAnnounced(tr[k], steps[k], s);
  }

  lemma {:induction false} RunKeepsAnnounced(tr: seq<State>, steps: seq<Step>, i: nat, s: Sid)
    requires Run(tr, steps) && i < |tr|
    ensures Announced(tr[i], s)
  {
    if i > 0 {
      RunKeepsAnnounced(tr, steps, i - 1, s);
      AnnouncedStep(tr, steps, i - 1, s);
    }
  }

  /** onClose has been called for a session exactly if it is closing or closed, or some thread is inside a
      close or delete of it; so a call is a repeated one exactly if that holds just before. And a call
      comes before onConnection exactly if the server thread has not got to that yet. */
  lemma NotifiedIff(tr: seq<State>, steps: seq<Step>, i: nat, s: Sid)
    requires Run(tr, steps) && i < |tr| && s in tr[i].sess
    ensures tr[i].sess[s].closes >= 1 <==> Closish(tr[i].sess[s]) || Inside(tr[i], s)
    ensures tr[i].sess[s].connects == 0 <==> PreConnect(tr[i].server, s)
  {
    RunKeepsInv(tr, steps, i);
    RunKeepsAnnounced(tr, steps, i, s);
    assert SessInv(tr[i], s);
  }
}
