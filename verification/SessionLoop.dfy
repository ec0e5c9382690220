/** What the server's own loop delivers: every connection becomes a session, and every pass releases the
    sessions it found closed. */
module SessionLoop {
  import opened Wrappers
  import opened SessionProtocol
  import opened SessionInvariant
  import opened SessionSteps
  import SessionTheorems
  import SessionProgress
  import SessionClearup

  // ---------- connections ----------

  predicate Offers(st: State, step: Step) {
    st.server == SAccept && step.ServerStep? && step.accepted.Some?
  }

  predicate Upgrades(st: State, step: Step) {
    st.server == SUpgrade && step.ServerStep?
  }

  /** Connections the acceptor delivered, those whose request was answered, and those that became sessions. */
  datatype Tally = Tally(offered: nat, upgraded: nat, accepted: nat)

  function Add(t: Tally, st: State, step: Step): Tally {
    if Offers(st, step) then t.(offered := t.offered + 1)
    else if Upgrades(st, step) then
      t.(upgraded := t.upgraded + 1, accepted := if step.accepted.Some? then t.accepted + 1 else t.accepted)
    else t
  }

  function Tallied(tr: seq<State>, steps: seq<Step>, i: nat): Tally
    requires i <= |steps| < |tr|
  {
    if i == 0 then Tally(0, 0, 0) else Add(Tallied(tr, steps, i - 1), tr[i - 1], steps[i - 1])
  }

  predicate Counted(st: State, t: Tally) {
    t.offered == t.upgraded + (if st.server == SUpgrade then 1 else 0) && |st.sess| == t.accepted
  }

  lemma StepCounts(st: State, step: Step, t: Tally)
    requires Inv(st) && Enabled(st, step) && Counted(st, t)
    ensures Counted(Do(st, step), Add(t, st, step))
  {
    match step
    case RunStep =>
    case ServerStep(accepted) => ServerCounts(st, accepted, t);
    case BcastStep(wrote) => if BcastTouches(st.bcast) { BcastAt(st); }
    case StopStep => if StopTouches(st.stopper) { StopAt(st); }
    case SessionStep(s, read) =>
  }

  lemma ServerCounts(st: State, accepted: Option<Sid>, t: Tally)
    requires Inv(st) && ServerEnabled(st, accepted) && Counted(st, t)
    ensures Counted(ServerDo(st, accepted), Add(t, st, ServerStep(accepted)))
  {
    if ServerTouches(st.server) {
      ServerAt(st);
      var s := ServerTarget(st.server, st.list);
      MoveStays(st.server, s, st.sess[s]);
    }
  }

  lemma MoveStays(p: ServerPc, s: Sid, x: Session)
    requires ServerTouches(p)
    ensures ServerMove(p, s, x).1 != SUpgrade
  {
  }

  lemma CountsAt(tr: seq<State>, steps: seq<Step>, k: nat, t: Tally)
    requires Run(tr, steps) && k < |steps| && Counted(tr[k], t)
    ensures Counted(tr[k + 1], Add(t, tr[k], steps[k]))
  {
    RunKeepsInv(tr, steps, k);
    assert Stepped(tr, steps, k);
    StepCounts(tr[k], steps[k], t);
  }

  /** Every connection the acceptor delivers is read and answered, and every one that is accepted becomes a
      session; there are no other sessions. */
  lemma {:induction false} EveryConnectionCounts(tr: seq<State>, steps: seq<Step>, i: nat)
    requires Run(tr, steps) && i < |tr|
    ensures Counted(tr[i], Tallied(tr, steps, i))
  {
    if i > 0 {
      EveryConnectionCounts(tr, steps, i - 1);
      CountsAt(tr, steps, i - 1, Tallied(tr, steps, i - 1));
    }
  }

  /** When the server thread is back at the head of its loop every session ever accepted has been entered,
      opened, started and announced. */
  lemma AllStarted(tr: seq<State>, steps: seq<Step>, i: nat, s: Sid)
    requires Run(tr, steps) && i < |tr| && tr[i].server == SHead && s in tr[i].sess
    ensures tr[i].sess[s].connects == 1 && tr[i].sess[s].pc != Unstarted && tr[i].sess[s].ready != Connecting
    ensures tr[i].sess[s].frees == 0 ==> s in tr[i].list
  {
    RunKeepsInv(tr, steps, i);
    assert SessInv(tr[i], s);
    if tr[i].sess[s].frees == 0 {
      assert Share(tr[i], s) == 1;
      CountIn(tr[i].list, s);
    }
  }

  // ---------- passes ----------

  /** How many steps the server thread takes until it is back at the head of its loop, with `n` sessions
      listed. */
  function PassLeft(p: ServerPc, n: nat): nat {
    match p
    case SNew => 0
    case SDone => 0
    case SHead => 0
    case SFree(doomed) => 1 + 20 * |doomed|
    case SDel(_, rest, d) => 2 + 20 * |rest| + SessionProgress.DelLeft(d)
    case SCleanUnlock(doomed) => 2 + 20 * |doomed|
    case SScan(i, _, doomed) => 3 + 20 * |doomed| + 30 * (if i <= n then n - i else 0)
    case SJudge(i, _, doomed) => 2 + 20 * |doomed| + 30 * (if i <= n then n - i else 0)
    case SCleanLock => 4 + 30 * n
    case SCleanTest => 5 + 30 * n
    case SConnect(_) => 6 + 30 * n
    case SSpawn(_) => 7 + 30 * n
    case SRun(_) => 8 + 30 * n
    case SOpen(_) => 9 + 30 * n
    case SUnlock(_) => 10 + 30 * n
    case SPush(_) => 41 + 30 * n
    case SLock(_) => 42 + 30 * n
    case SUpgrade => 43 + 30 * n
    case SAccept => 44 + 30 * n
  }

  predicate InPass(p: ServerPc) {
    p != SNew && p != SDone && p != SHead
  }

  /** The part of a pass before its clean-up takes the mutex. */
  predicate Early(p: ServerPc) {
    || p == SAccept || p == SUpgrade || p.SLock? || p.SPush? || p.SUnlock? || p.SOpen? || p.SRun? || p.SSpawn?
    || p.SConnect? || p == SCleanTest
  }

  lemma MovePasses(p: ServerPc, s: Sid, x: Session, n: nat)
    requires ServerTouches(p) && (p.SJudge? ==> p.i < n)
    ensures PassLeft(ServerMove(p, s, x).1, n) < PassLeft(p, n)
  {
  }

  lemma PassPasses(st: State, accepted: Option<Sid>)
    requires !ServerTouches(st.server) && InPass(st.server) && (st.server.SScan? ==> st.server.i <= |st.list|)
    ensures var st2 := ServerPass(st, accepted); PassLeft(st2.server, |st2.list|) < PassLeft(st.server, |st.list|)
  {
    if Early(st.server) { EarlyPasses(st, accepted); } else { LatePasses(st, accepted); }
  }

  lemma EarlyPasses(st: State, accepted: Option<Sid>)
    requires !ServerTouches(st.server) && Early(st.server)
    ensures var st2 := ServerPass(st, accepted); PassLeft(st2.server, |st2.list|) < PassLeft(st.server, |st.list|)
  {
  }

  lemma LatePasses(st: State, accepted: Option<Sid>)
    requires !ServerTouches(st.server) && InPass(st.server) && !Early(st.server)
    requires st.server.SScan? ==> st.server.i <= |st.list|
    ensures var st2 := ServerPass(st, accepted); PassLeft(st2.server, |st2.list|) < PassLeft(st.server, |st.list|)
  {
  }

  lemma PassNearsItsEnd(st: State, step: Step)
    requires Inv(st) && Enabled(st, step) && InPass(st.server)
    ensures var before, after := PassLeft(st.server, |st.list|), PassLeft(Do(st, step).server, |Do(st, step).list|);
      if step.ServerStep? then after < before else after == before
  {
    if step.ServerStep? {
      if ServerTouches(st.server) {
        ServerAt(st);
        var s := ServerTarget(st.server, st.list);
        MovePasses(st.server, s, Get(st, s), |st.list|);
      } else {
        PassPasses(st, step.accepted);
      }
    }
  }

  lemma PassAt(tr: seq<State>, steps: seq<Step>, k: nat)
    requires Run(tr, steps) && k < |steps| && InPass(tr[k].server)
    ensures var before, after := PassLeft(tr[k].server, |tr[k].list|), PassLeft(tr[k + 1].server, |tr[k + 1].list|);
      if steps[k].ServerStep? then after < before else after == before
  {
    RunKeepsInv(tr, steps, k);
    assert Stepped(tr, steps, k);
    PassNearsItsEnd(tr[k], steps[k]);
  }

  /** From the i-th to before the j-th moment the thread is not at the head of its loop. */
  ghost predicate StaysInPass(tr: seq<State>, i: nat, j: nat)
    requires j <= |tr|
  {
    forall k {:trigger tr[k]} :: i <= k < j ==> InPass(tr[k].server)
  }

  /** A pass takes at most PassLeft steps of the server thread. */
  lemma {:induction false} PassIsBounded(tr: seq<State>, steps: seq<Step>, i: nat, j: nat)
    requires Run(tr, steps) && i <= j < |tr| && StaysInPass(tr, i, j)
    ensures SessionProgress.Taken(steps, i, j, Server) + PassLeft(tr[j].server, |tr[j].list|)
         <= PassLeft(tr[i].server, |tr[i].list|)
    decreases j
  {
    if i < j {
      PassIsBounded(tr, steps, i, j - 1);
      PassAt(tr, steps, j - 1);
    }
  }

  // ---------- cleaning up ----------

  lemma EarlyGoesOn(st: State, step: Step)
    requires Enabled(st, step) && Early(st.server) && st.running
    ensures Early(Do(st, step).server) || Do(st, step).server == SCleanLock
  {
  }

  /** A pass that finds the server running cleans up. */
  lemma {:induction false} EveryPassCleans(tr: seq<State>, steps: seq<Step>, i: nat, j: nat) returns (m: nat)
    requires Run(tr, steps) && i <= j < |tr| && Early(tr[i].server) && !Early(tr[j].server)
    requires forall k :: i <= k <= j ==> tr[k].running
    ensures i < m <= j && tr[m].server == SCleanLock
    decreases j
  {
    if Early(tr[j - 1].server) {
      assert Stepped(tr, steps, j - 1);
      EarlyGoesOn(tr[j - 1], steps[j - 1]);
      m := j;
    } else {
      m := EveryPassCleans(tr, steps, i, j - 1);
    }
  }

  /** Behind the mutex a clean-up leaves the list alone. */
  predicate Releasing(p: ServerPc) {
    p.SCleanUnlock? || p.SFree? || p.SDel?
  }

  lemma ReleasingLeavesList(tr: seq<State>, steps: seq<Step>, k: nat)
    requires Run(tr, steps) && k < |steps| && Releasing(tr[k].server)
    ensures tr[k + 1].list == tr[k].list && (Releasing(tr[k + 1].server) || tr[k + 1].server == SHead)
  {
    RunKeepsInv(tr, steps, k);
    assert Stepped(tr, steps, k);
  }

  lemma {:induction false} ListStays(tr: seq<State>, steps: seq<Step>, c: nat, j: nat)
    requires Run(tr, steps) && c <= j < |tr| && tr[c].server.SCleanUnlock?
    requires forall k :: c <= k < j ==> tr[k].server != SHead
    ensures tr[j].list == tr[c].list && (Releasing(tr[j].server) || tr[j].server == SHead)
    decreases j
  {
    if c < j {
      ListStays(tr, steps, c, j - 1);
      ReleasingLeavesList(tr, steps, j - 1);
    }
  }

  /** When the thread is back at the head of its loop, every session its clean-up took out of the list has
      been released; these are, by ClearupResult, those whose read said CLOSED. */
  lemma PassReleases(tr: seq<State>, steps: seq<Step>, c: nat, j: nat, s: Sid)
    requires Run(tr, steps) && c < j < |tr| && tr[c].server.SCleanUnlock? && s in tr[c].server.doomed
    requires tr[j].server == SHead && forall k :: c <= k < j ==> tr[k].server != SHead
    ensures s in tr[j].sess && tr[j].sess[s].frees == 1
  {
    ListStays(tr, steps, c, j);
    DoomedIsNotListed(tr, steps, c, s);
    SessionTheorems.ReleasedForGood(tr, steps, c, j, s);
    NotListedIsReleased(tr, steps, j, s);
  }

  lemma DoomedIsNotListed(tr: seq<State>, steps: seq<Step>, c: nat, s: Sid)
    requires Run(tr, steps) && c < |tr| && tr[c].server.SCleanUnlock? && s in tr[c].server.doomed
    ensures s in tr[c].sess && s !in tr[c].list
  {
    RunKeepsInv(tr, steps, c);
    HeldLive(tr[c], s);
    assert Share(tr[c], s) == 1;
    CountIn(tr[c].server.doomed, s);
    CountIn(tr[c].list, s);
  }

  lemma NotListedIsReleased(tr: seq<State>, steps: seq<Step>, j: nat, s: Sid)
    requires Run(tr, steps) && j < |tr| && tr[j].server == SHead && s in tr[j].sess && s !in tr[j].list
    ensures tr[j].sess[s].frees == 1
  {
    RunKeepsInv(tr, steps, j);
    assert SessInv(tr[j], s);
    assert Share(tr[j], s) == if Live(tr[j], s) then 1 else 0;
    CountIn(tr[j].list, s);
  }
}
