/** What a session's own thread does, and what a call of close does. */
module SessionThreads {
  import opened Wrappers
  import opened SessionProtocol
  import opened SessionInvariant
  import opened SessionSteps
  import opened SessionProgress
  import SessionServing

  // ---------- a call of close ----------

  /** `cs` are the places a call of close(code) or close() goes through when it finds the session as `xs`. */
  ghost predicate ClosePath(xs: seq<Session>, cs: seq<ClosePc>) {
    && |xs| == |cs| > 0
    && (forall k {:trigger cs[k]} :: 0 <= k < |cs| - 1 ==> PathAt(xs, cs, k))
    && CloseStep(xs[|cs| - 1], cs[|cs| - 1]).1 == None
  }

  predicate PathAt(xs: seq<Session>, cs: seq<ClosePc>, k: int)
    requires 0 <= k < |cs| - 1 && |xs| == |cs|
  {
    CloseStep(xs[k], cs[k]).1 == Some(cs[k + 1])
  }

  /** close(), whatever other threads do between its steps: unless its guard finds CLOSED it writes CLOSING,
      tears the socket down, writes CLOSED and clears the running flag, in this order. */
  lemma CloseDoes(xs: seq<Session>, cs: seq<ClosePc>)
    requires ClosePath(xs, cs) && cs[0] == Check
    ensures if xs[0].ready == Closed then cs == [Check] else cs == [Check, Mark, Tear, Finish, Halt]
    ensures xs[0].ready != Closed ==>
      && CloseStep(xs[1], cs[1]).0 == xs[1].(ready := Closing)
      && CloseStep(xs[2], cs[2]).0 == xs[2].(torn := true)
      && CloseStep(xs[3], cs[3]).0 == xs[3].(ready := Closed)
      && CloseStep(xs[4], cs[4]).0 == xs[4].(running := false)
  {
    if |cs| > 1 {
      assert PathAt(xs, cs, 0);
      if |cs| > 2 { assert PathAt(xs, cs, 1); }
      if |cs| > 3 { assert PathAt(xs, cs, 2); }
      if |cs| > 4 { assert PathAt(xs, cs, 3); }
    }
  }

  /** close(code): unless its guard finds CLOSED it writes CLOSING, calls socket.close(code), and then close(). */
  lemma CloseCodeDoes(xs: seq<Session>, cs: seq<ClosePc>)
    requires ClosePath(xs, cs) && cs[0] == CodeCheck
    ensures if xs[0].ready == Closed then cs == [CodeCheck]
            else && |cs| > 3 && cs[1] == CodeMark && cs[2] == CodeSocket && cs[3] == Check
                 && CloseStep(xs[1], cs[1]).0 == xs[1].(ready := Closing)
                 && CloseStep(xs[2], cs[2]).0 == xs[2] && ClosePath(xs[3..], cs[3..])
  {
    if |cs| > 1 {
      assert PathAt(xs, cs, 0);
      if |cs| > 2 { assert PathAt(xs, cs, 1); }
      if |cs| > 3 {
        assert PathAt(xs, cs, 2);
        var ys, ds := xs[3..], cs[3..];
        forall k | 0 <= k < |ds| - 1 ensures PathAt(ys, ds, k) {
          assert PathAt(xs, cs, k + 3);
        }
      }
    }
  }

  // ---------- when a session's thread ends ----------

  /** A thread that has ended was told to; one told to belongs to a session that is closing or closed. */
  predicate ThreadOk(x: Session) {
    && (x.pc == Done ==> !x.running)
    && (x.pc != Unstarted && !x.running ==> Closish(x))
  }

  predicate ThreadInv(st: State, s: Sid) {
    s in st.sess ==> ThreadOk(st.sess[s]) && (st.server == SSpawn(s) ==> st.sess[s].running || Closish(st.sess[s]))
  }

  /** What everybody but the session's own thread, and run(), does to it. */
  predicate Eased(x: Session, y: Session) {
    y.pc == x.pc && (Closish(x) ==> Closish(y)) && (y.running == x.running || (!y.running && Closish(y)))
  }

  lemma CloseEases(x: Session, c: ClosePc)
    requires CloserOk(x, c)
    ensures Eased(x, CloseStep(x, c).0)
  {
  }

  lemma DelEases(x: Session, d: DelPc)
    requires SelfInv(x) && DelOk(x, d)
    ensures Eased(x, DelStep(x, d).0)
  {
    if d.DelClose? { CloseEases(x, d.c); }
  }

  lemma BcastEases(p: BcastPc, x: Session, wrote: WriteResult)
    requires BcastTouches(p) && (p.BClose? ==> CloserOk(x, p.c))
    ensures Eased(x, BcastMove(p, x, wrote).0)
  {
    if p.BClose? { CloseEases(x, p.c); }
  }

  lemma StopEases(p: StopPc, x: Session)
    requires StopTouches(p) && SelfInv(x) && (p.MClose? ==> CloserOk(x, p.c)) && (p.MDel? ==> DelOk(x, p.d))
    ensures Eased(x, StopMove(p, x).0)
  {
    if p.MClose? { CloseEases(x, p.c); } else if p.MDel? { DelEases(x, p.d); }
  }

  lemma ThreadGoesOn(x: Session, read: ReadResult)
    requires SelfInv(x) && x.ready != Connecting && x.pc != Unstarted && x.pc != Done && ThreadOk(x)
    ensures ThreadOk(ThreadStep(x, read)) && (Closish(x) ==> Closish(ThreadStep(x, read)))
    ensures ThreadStep(x, read).running ==> x.running
  {
  }

  lemma ServerThreadOk(p: ServerPc, t: Sid, x: Session)
    requires ServerTouches(p) && SelfInv(x) && StartInv(x, p, t) && ThreadOk(x)
    requires p.SOpen? || p.SRun? || p.SSpawn? || p.SConnect? || p.SDel? ==> ServerTarget(p, []) == t
    requires (p.SDel? ==> DelOk(x, p.d)) && (p == SSpawn(t) ==> x.running || Closish(x))
    ensures var (y, q) := ServerMove(p, t, x); ThreadOk(y) && (q.SSpawn? ==> y.running)
  {
    if p.SDel? { DelEases(x, p.d); }
  }

  lemma ServerKeepsThread(st: State, accepted: Option<Sid>, s: Sid)
    requires Inv(st) && ServerEnabled(st, accepted) && ThreadInv(st, s)
    ensures ThreadInv(ServerDo(st, accepted), s)
  {
    if ServerTouches(st.server) {
      var t := ServerTarget(st.server, st.list);
      ServerAt(st);
      assert SessInv(st, t);
      if t == s { ServerThreadOk(st.server, t, st.sess[t]); }
    }
  }

  lemma BcastKeepsThread(st: State, wrote: WriteResult, s: Sid)
    requires Inv(st) && BcastEnabled(st) && ThreadInv(st, s)
    ensures ThreadInv(BcastDo(st, wrote), s)
  {
    if BcastTouches(st.bcast) {
      BcastAt(st);
      BcastEases(st.bcast, st.sess[st.list[st.bcast.i]], wrote);
    }
  }

  lemma StopKeepsThread(st: State, s: Sid)
    requires Inv(st) && StopEnabled(st) && ThreadInv(st, s)
    ensures ThreadInv(StopDo(st), s)
  {
    if StopTouches(st.stopper) {
      StopAt(st);
      assert SessInv(st, st.list[st.stopper.i]);
      StopEases(st.stopper, st.sess[st.list[st.stopper.i]]);
    }
  }

  lemma OwnKeepsThread(st: State, r: Sid, read: ReadResult, s: Sid)
    requires Inv(st) && SessionEnabled(st, r) && ThreadInv(st, s) && ThreadInv(st, r)
    ensures ThreadInv(Do(st, SessionStep(r, read)), s)
  {
    assert SessInv(st, r);
    ThreadGoesOn(st.sess[r], read);
  }

  lemma StepKeepsThread(st: State, step: Step, s: Sid)
    requires Inv(st) && Enabled(st, step) && ThreadInv(st, s)
    ensures ThreadInv(Do(st, step), s)
  {
    match step
    case RunStep =>
    case ServerStep(accepted) => ServerKeepsThread(st, accepted, s);
    case BcastStep(wrote) => BcastKeepsThread(st, wrote, s);
    case StopStep => StopKeepsThread(st, s);
    case SessionStep(r, read) => if r == s { OwnKeepsThread(st, r, read, s); }
  }

  lemma ThreadAt(tr: seq<State>, steps: seq<Step>, k: nat, s: Sid)
    requires Run(tr, steps) && k < |steps| && ThreadInv(tr[k], s)
    ensures ThreadInv(tr[k + 1], s)
  {
    RunKeepsInv(tr, steps, k);
    assert Stepped(tr, steps, k);
    StepKeepsThread(tr[k], steps[k], s);
  }

  /** A session's thread ends only once its session is closing or closed; until then a started one has its
      flag up. */
  lemma {:induction false} EndsOnlyWhenClosing(tr: seq<State>, steps: seq<Step>, i: nat, s: Sid)
    requires Run(tr, steps) && i < |tr|
    ensures ThreadInv(tr[i], s)
    ensures s in tr[i].sess && tr[i].sess[s].pc == Done ==> !tr[i].sess[s].running && Closish(tr[i].sess[s])
    ensures s in tr[i].sess && tr[i].sess[s].pc != Unstarted && !Closish(tr[i].sess[s]) ==> tr[i].sess[s].running
  {
    if i > 0 {
      EndsOnlyWhenClosing(tr, steps, i - 1, s);
      ThreadAt(tr, steps, i - 1, s);
    }
  }

  // ---------- serving ----------

  function Phase(p: ThreadPc): nat {
    match p
    case Test => 1
    case Read => 2
    case _ => 0
  }

  predicate Serving(st: State, s: Sid) {
    && s in st.sess && st.sess[s].ready == Open
    && (st.sess[s].pc == Head || st.sess[s].pc == Test || st.sess[s].pc == Read)
  }

  /** How often the thread of `s` reads from the i-th to before the j-th moment. */
  function Reads(tr: seq<State>, steps: seq<Step>, i: nat, j: nat, s: Sid): nat
    requires i <= j <= |steps| < |tr|
    decreases j
  {
    if i == j then 0
    else Reads(tr, steps, i, j - 1, s)
         + if ActorOf(steps[j - 1]) == Own(s) && Get(tr[j - 1], s).pc == Read then 1 else 0
  }

  lemma ServesOn(tr: seq<State>, steps: seq<Step>, k: nat, s: Sid)
    requires Run(tr, steps) && k < |steps| && Serving(tr[k], s)
    requires s in tr[k + 1].sess && tr[k + 1].sess[s].ready == Open
    requires steps[k].SessionStep? && steps[k].s == s ==> steps[k].read == Got || steps[k].read == Quiet
    ensures Serving(tr[k + 1], s)
    ensures ActorOf(steps[k]) != Own(s) ==> tr[k + 1].sess[s].pc == tr[k].sess[s].pc
    ensures ActorOf(steps[k]) == Own(s) ==>
              tr[k + 1].sess[s].pc ==
              if tr[k].sess[s].pc == Head then Test else if tr[k].sess[s].pc == Test then Read else Head
  {
    EndsOnlyWhenClosing(tr, steps, k, s);
    RunKeepsInv(tr, steps, k);
    assert Stepped(tr, steps, k);
    if ActorOf(steps[k]) != Own(s) {
      OthersLeavePc(tr[k], steps[k], s);
    }
  }

  lemma OthersLeavePc(st: State, step: Step, s: Sid)
    requires Inv(st) && Enabled(st, step) && s in st.sess && st.sess[s].pc != Unstarted && ActorOf(step) != Own(s)
    ensures Get(Do(st, step), s).pc == st.sess[s].pc
  {
    if !step.SessionStep? { PcStays(st, step, s); }
  }

  /** As long as a session is OPEN and its reads bring messages, or errors that do not end it, its thread
      goes round: the flag, the state, a read. */
  lemma {:induction false} GoesRound(tr: seq<State>, steps: seq<Step>, i: nat, j: nat, s: Sid)
    requires Run(tr, steps) && i <= j < |tr| && Serving(tr[i], s)
    requires forall k :: i <= k <= j ==> s in tr[k].sess && tr[k].sess[s].ready == Open
    requires forall k :: i <= k < j && steps[k].SessionStep? && steps[k].s == s ==>
               steps[k].read == Got || steps[k].read == Quiet
    ensures Serving(tr[j], s)
    ensures 3 * Reads(tr, steps, i, j, s) + Phase(tr[j].sess[s].pc)
         == Phase(tr[i].sess[s].pc) + Taken(steps, i, j, Own(s))
    decreases j
  {
    if i < j {
      GoesRound(tr, steps, i, j - 1, s);
      ServesOn(tr, steps, j - 1, s);
    }
  }

  // ---------- what becomes of a read ----------

  /** A read that ends the session. */
  predicate Ends(r: ReadResult) {
    r == PeerClosed || r == Fatal || r == Failed
  }

  /** Behind such a read: the thread calls onClose, then is inside close(code) if `coded`, up to its
      socket.close or past it, or inside close(); when it is back at the head of its loop the session is
      closing or closed. */
  predicate Leaving(x: Session, closes: nat, coded: bool, past: bool) {
    || (x.pc == Notify(coded) && x.closes >= closes && past == !coded)
    || (x.pc.Close? && x.closes > closes && past == Plain(x.pc.c))
    || (x.pc == Head && x.closes > closes && Closish(x) && past)
  }

  /** It calls socket.close(code), or finds in the guard of close(code) that the session is CLOSED. */
  predicate Hangs(x: Session) {
    x.pc == Close(CodeSocket) || (x.pc == Close(CodeCheck) && x.ready == Closed)
  }

  lemma LeavesOn(x: Session, read: ReadResult, closes: nat, coded: bool, past: bool)
    requires SelfInv(x) && Leaving(x, closes, coded, past) && x.pc != Head
    ensures Leaving(ThreadStep(x, read), closes, coded, past || Hangs(x))
  {
  }

  lemma LeavingStays(st: State, step: Step, s: Sid, closes: nat, coded: bool, past: bool)
    requires Inv(st) && Enabled(st, step) && s in st.sess && Leaving(st.sess[s], closes, coded, past)
    requires ActorOf(step) != Own(s) && st.sess[s].pc != Head
    ensures s in Do(st, step).sess && Leaving(Do(st, step).sess[s], closes, coded, past)
  {
    OthersLeavePc(st, step, s);
    SessionServing.ClosesGrow(st, step, s);
  }

  lemma LeavingAt(tr: seq<State>, steps: seq<Step>, n: nat, s: Sid, closes: nat, coded: bool, past: bool)
    requires Run(tr, steps) && n < |steps| && s in tr[n].sess && Leaving(tr[n].sess[s], closes, coded, past)
    requires tr[n].sess[s].pc != Head
    ensures s in tr[n + 1].sess
    ensures Leaving(tr[n + 1].sess[s], closes, coded, past || (ActorOf(steps[n]) == Own(s) && Hangs(tr[n].sess[s])))
  {
    RunKeepsInv(tr, steps, n);
    assert Stepped(tr, steps, n);
    if ActorOf(steps[n]) == Own(s) {
      assert SessInv(tr[n], s);
      LeavesOn(tr[n].sess[s], steps[n].read, closes, coded, past);
    } else {
      LeavingStays(tr[n], steps[n], s, closes, coded, past);
    }
  }

  lemma LeavingBegins(tr: seq<State>, steps: seq<Step>, i: nat, s: Sid)
    requires Run(tr, steps) && i < |steps| && Get(tr[i], s).pc == Read && steps[i].SessionStep? && steps[i].s == s
    requires Ends(steps[i].read)
    ensures s in tr[i].sess && s in tr[i + 1].sess
    ensures Leaving(tr[i + 1].sess[s], tr[i].sess[s].closes, steps[i].read == Fatal, steps[i].read != Fatal)
  {
    assert Stepped(tr, steps, i);
  }

  /** From a read at `i` that ends the session on: until the thread is back at the head of its loop it has
      called onClose and then close(), or, after the errors that onError closes for, close(code), with
      socket.close(code) called at `m` unless the session was CLOSED by then. */
  lemma {:induction false} ReadEnds(tr: seq<State>, steps: seq<Step>, i: nat, j: nat, s: Sid)
    returns (past: bool, m: nat)
    requires Run(tr, steps) && i < j < |tr| && Get(tr[i], s).pc == Read && steps[i].SessionStep? && steps[i].s == s
    requires Ends(steps[i].read) && forall n :: i < n < j ==> Get(tr[n], s).pc != Head
    ensures s in tr[i].sess && s in tr[j].sess
    ensures Leaving(tr[j].sess[s], tr[i].sess[s].closes, steps[i].read == Fatal, past)
    ensures past && steps[i].read == Fatal ==> i < m < j && ActorOf(steps[m]) == Own(s) && Hangs(Get(tr[m], s))
    decreases j
  {
    LeavingBegins(tr, steps, i, s);
    if j == i + 1 {
      past, m := steps[i].read != Fatal, 0;
    } else {
      past, m := ReadEnds(tr, steps, i, j - 1, s);
      LeavingAt(tr, steps, j - 1, s, tr[i].sess[s].closes, steps[i].read == Fatal, past);
      if ActorOf(steps[j - 1]) == Own(s) && Hangs(tr[j - 1].sess[s]) {
        past, m := true, j - 1;
      }
    }
  }

  /** After any other read the thread is back at the head of its loop, and nothing else has happened. */
  lemma ReadGoesOn(tr: seq<State>, steps: seq<Step>, i: nat, s: Sid)
    requires Run(tr, steps) && i < |steps| && Get(tr[i], s).pc == Read && steps[i].SessionStep? && steps[i].s == s
    requires steps[i].read == Got || steps[i].read == Quiet
    ensures s in tr[i].sess && tr[i + 1] == tr[i].(sess := tr[i].sess[s := tr[i].sess[s].(pc := Head)])
  {
    RunKeepsInv(tr, steps, i);
    RunKeepsInv(tr, steps, i + 1);
    assert Stepped(tr, steps, i);
  }

  // ---------- a session that closed itself ----------

  lemma HaltIsDown(tr: seq<State>, steps: seq<Step>, i: nat, s: Sid)
    requires Run(tr, steps) && i < |steps| && Get(tr[i], s).pc == Close(Halt) && ActorOf(steps[i]) == Own(s)
    ensures Down(tr[i + 1], s) && Get(tr[i + 1], s).pc == Head
  {
    RunKeepsInv(tr, steps, i);
    assert Stepped(tr, steps, i);
    assert SessInv(tr[i], s);
  }

  /** When a session's own thread has closed it, the thread ends with its next step. */
  lemma SelfCloseEnds(tr: seq<State>, steps: seq<Step>, i: nat, j: nat, s: Sid)
    requires Run(tr, steps) && i < j < |tr| && Get(tr[i], s).pc == Close(Halt) && ActorOf(steps[i]) == Own(s)
    requires Taken(steps, i + 1, j, Own(s)) >= 1
    ensures Get(tr[j], s).pc == Done && Taken(steps, i + 1, j, Own(s)) == 1
  {
    HaltIsDown(tr, steps, i, s);
    JoinIsBounded(tr, steps, i + 1, j, s);
  }
}
