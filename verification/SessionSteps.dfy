/** Every step of every thread keeps the invariant. */
module SessionSteps {
  import opened Wrappers
  import opened SessionProtocol
  import opened SessionInvariant

  // ---------- a session's thread ----------

  lemma ThreadKeepsInv(st: State, s: Sid, y: Session)
    requires Inv(st) && Live(st, s)
    requires FollowsLate(st.sess[s], y) && SelfInv(y) && y.frees == 0
    requires st.sess[s].ready != Connecting
    requires st.sess[s].pc != Unstarted && y.pc != Unstarted
    requires y.ready == Closing ==> (st.sess[s].ready == Closing && !ThreadCloses(st.sess[s])) || ThreadCloses(y)
    ensures Inv(st.(sess := st.sess[s := y]))
  {
    var st2 := st.(sess := st.sess[s := y]);
    assert SessInv(st, s);
    assert SessInv(st2, s);
    AllSessFrame(st, st2, s);
    ServerFrame(st, st2, s);
    BcastFrame(st, st2, s);
    StopFrame(st, st2, s);
    OwnFrame(st, st2, s);
  }

  lemma SessionKeepsInv(st: State, s: Sid, read: ReadResult)
    requires Inv(st) && SessionEnabled(st, s)
    ensures Inv(Do(st, SessionStep(s, read)))
  {
    assert SessInv(st, s);
    ThreadFollows(st.sess[s], read);
    ThreadKeepsInv(st, s, ThreadStep(st.sess[s], read));
  }

  // ---------- the broadcaster ----------

  lemma BcastAt(st: State)
    requires Inv(st) && BcastTouches(st.bcast)
    ensures Live(st, st.list[st.bcast.i])
  {
    assert st.lock == Some(Broadcaster);
    HeldLive(st, st.list[st.bcast.i]);
  }

  lemma BcastMoveKeepsInv(st: State, s: Sid, y: Session, p: BcastPc)
    requires Inv(st) && BcastTouches(st.bcast) && At(st.list, st.bcast.i) == s && Live(st, s)
    requires Follows(st.sess[s], y) && SelfInv(y) && y.frees == 0 && y.pc == st.sess[s].pc
    requires (y.running ==> st.sess[s].running) && y.connects == st.sess[s].connects
    requires y.ready == Connecting <==> st.sess[s].ready == Connecting
    requires y.ready == Closing ==>
               (st.sess[s].ready == Closing && !BcastCloses(st.bcast)) || (BcastCloses(p) && At(st.list, p.i) == s)
    requires BcastHolds(p) && BcastInv(st.(sess := st.sess[s := y], bcast := p))
    ensures Inv(st.(sess := st.sess[s := y], bcast := p))
  {
    var st2 := st.(sess := st.sess[s := y], bcast := p);
    assert SessInv(st, s);
    assert SessInv(st2, s);
    AllSessFrame(st, st2, s);
    ServerFrame(st, st2, s);
    StopFrame(st, st2, s);
    OwnFrame(st, st2, s);
  }

  lemma BcastPassKeepsInv(st: State, p: BcastPc, l: Option<Actor>)
    requires Inv(st) && !BcastTouches(st.bcast)
    requires LockInv(st.(bcast := p, lock := l))
    requires BcastInv(st.(bcast := p))
    ensures Inv(st.(bcast := p, lock := l))
  {
    PassFrame(st, st.(bcast := p, lock := l));
  }

  lemma BcastKeepsInv(st: State, wrote: WriteResult)
    requires Inv(st) && BcastEnabled(st)
    ensures Inv(Do(st, BcastStep(wrote)))
  {
    if BcastTouches(st.bcast) {
      BcastAt(st);
      var s := st.list[st.bcast.i];
      assert SessInv(st, s);
      var (y, p) := BcastMove(st.bcast, st.sess[s], wrote);
      BcastFollows(st.bcast, st.sess[s], wrote);
      BcastMoveKeepsInv(st, s, y, p);
    } else {
      var st2 := BcastPass(st);
      BcastPassKeepsInv(st, st2.bcast, st2.lock);
    }
  }

  // ---------- the stopping thread ----------

  lemma StopAt(st: State)
    requires Inv(st) && StopTouches(st.stopper)
    ensures Live(st, st.list[st.stopper.i])
    ensures st.lock == Some(Stopper) && st.server == SDone
    ensures st.sess[st.list[st.stopper.i]].ready != Connecting && st.sess[st.list[st.stopper.i]].pc != Unstarted
  {
    var s := st.list[st.stopper.i];
    assert Left(st.stopper, st.list)[0] == s;
    HeldLive(st, s);
    assert SessInv(st, s);
  }

  lemma StopHoldsLess(i: nat, list: seq<Sid>, m: StopPc, r: Sid)
    requires i < |list| && StopTouches(m) && m.i == i
    ensures Holds(SDone, Left(m, list), r) ==
            Holds(SDone, Left(MNext(i + 1), list), r) + (if r == list[i] then 1 else 0)
  {
    CountDrop(list, i, r);
  }

  lemma StopMoveKeepsInv(st: State, s: Sid, y: Session, p: StopPc)
    requires Inv(st) && StopTouches(st.stopper) && st.list[st.stopper.i] == s && Live(st, s)
    requires st.lock == Some(Stopper) && st.server == SDone
    requires FollowsLate(st.sess[s], y) && SelfInv(y) && y.pc == st.sess[s].pc && y.pc != Unstarted
    requires y.ready == Closing ==> (st.sess[s].ready == Closing && !StopCloses(st.stopper)) || StopCloses(p)
    requires if StopTouches(p) then p.i == st.stopper.i && y.frees == 0
             else p == MNext(st.stopper.i + 1) && y.frees == 1
    requires p.MClose? ==> CloserOk(y, p.c) && Plain(p.c)
    requires p.MDel? ==> DelOk(y, p.d)
    ensures Inv(st.(sess := st.sess[s := y], stopper := p))
  {
    var st2 := st.(sess := st.sess[s := y], stopper := p);
    assert SessInv(st, s);
    assert SessInv(st2, s);
    AllSessFrame(st, st2, s);
    ServerFrame(st, st2, s);
    BcastFrame(st, st2, s);
    if StopTouches(p) {
      OwnFrame(st, st2, s);
    } else {
      forall r ensures Share(st, r) == Share(st2, r) + (if r == s then 1 else 0) {
        StopHoldsLess(st.stopper.i, st.list, st.stopper, r);
      }
      ReleaseFrame(st, st2, s);
    }
  }

  lemma StopPassKeepsInv(st: State, p: StopPc, l: Option<Actor>, running: bool, list: seq<Sid>)
    requires Inv(st) && !StopTouches(st.stopper)
    requires var st2 := st.(stopper := p, lock := l, running := running, list := list);
      LockInv(st2) && StopInv(st2) && BcastInv(st2) && RunInv(st2)
    requires list == st.list || (!BcastTouches(st.bcast) && st.server == SDone)
    requires Left(p, list) == Left(st.stopper, st.list)
    ensures Inv(st.(stopper := p, lock := l, running := running, list := list))
  {
    var st2 := st.(stopper := p, lock := l, running := running, list := list);
    StopPassServerInv(st, st2);
    PassFrame(st, st2);
  }

  lemma StopPassServerInv(st: State, st2: State)
    requires ServerInv(st) && st2.server == st.server && st2.sess == st.sess
    requires st2.list == st.list || st.server == SDone
    ensures ServerInv(st2)
  {
    forall r | PreConnect(st2.server, r) ensures Live(st2, r) {
      assert Live(st, r);
    }
  }

  lemma StopKeepsInv(st: State)
    requires Inv(st) && StopEnabled(st)
    ensures Inv(Do(st, StopStep))
  {
    if StopTouches(st.stopper) {
      StopAt(st);
      var s := st.list[st.stopper.i];
      assert SessInv(st, s);
      var (y, p) := StopMove(st.stopper, st.sess[s]);
      StopFollows(st.stopper, st.sess[s]);
      StopMoveKeepsInv(st, s, y, p);
    } else {
      var st2 := StopPass(st);
      StopPassKeepsInv(st, st2.stopper, st2.lock, st2.running, st2.list);
    }
  }

  // ---------- the server thread: steps that touch no session ----------

  lemma ServerPassHolds(st: State, r: Sid)
    requires !ServerTouches(st.server) && (st.server.SScan? ==> st.server.i <= |st.list|)
    ensures var st2 := ServerPass(st, None); Holds(st2.server, st2.list, r) == Holds(st.server, st.list, r)
  {
    match st.server
    case SPush(s) =>
      CountAppend(st.list, s, r);
      assert [s][1..] == [];
    case SCleanLock => assert st.list[0..] == st.list;
    case SFree(doomed) => if doomed != [] { assert [doomed[0]] + doomed[1..] == doomed; }
    case _ =>
  }

  lemma ServerPassServerInv(st: State, p: ServerPc, list: seq<Sid>)
    requires ServerInv(st) && AllSess(st) && OwnInv(st)
    requires forall r :: PreConnect(p, r) ==> PreConnect(st.server, r)
    requires forall r :: r in Doomed(p) ==> r in Doomed(st.server)
    requires p.SScan? ==> p.i <= |list|
    requires p.SJudge? ==> p.i < |list|
    requires p.SDel? ==> p.d == DelCheck
    ensures ServerInv(st.(server := p, list := list))
  {
    if p.SDel? {
      assert p.first in Doomed(p);
      HeldLive(st, p.first);
      assert SessInv(st, p.first);
    }
  }

  lemma ServerPassLocks(st: State)
    requires LockInv(st) && !ServerTouches(st.server) && ServerEnabled(st, None)
    ensures var st2 := ServerPass(st, None);
      && LockInv(st2)
      && (st2.list != st.list ==> st.lock == Some(Server))
      && st2.server != SNew
  {
  }

  lemma ServerPassPlaces(st: State)
    requires ServerInv(st) && !ServerTouches(st.server)
    ensures var st2 := ServerPass(st, None);
      && st2 == st.(server := st2.server, lock := st2.lock, list := st2.list)
      && (forall r :: PreOpen(st2.server, r) == PreOpen(st.server, r))
      && (forall r :: PreSpawn(st2.server, r) == PreSpawn(st.server, r))
      && (forall r :: PreConnect(st2.server, r) == PreConnect(st.server, r))
  {
  }

  lemma ServerPassDoomed(st: State)
    requires ServerInv(st) && !ServerTouches(st.server)
    ensures var st2 := ServerPass(st, None);
      && (forall r :: r in Doomed(st2.server) ==> r in Doomed(st.server))
      && (st2.server.SScan? ==> st2.server.i <= |st2.list|)
      && (st2.server.SJudge? ==> st2.server.i < |st2.list|)
      && (st2.server.SDel? ==> st2.server.d == DelCheck)
  {
    if st.server.SFree? && st.server.doomed != [] {
      assert [st.server.doomed[0]] + st.server.doomed[1..] == st.server.doomed;
    }
  }

  lemma ServerPassKeepsInv(st: State)
    requires Inv(st) && !ServerTouches(st.server) && ServerEnabled(st, None)
    ensures Inv(ServerPass(st, None))
  {
    var st2 := ServerPass(st, None);
    assert !StopJoined(st.stopper);
    forall r ensures Share(st2, r) == Share(st, r) {
      ServerPassHolds(st, r);
    }
    ServerPassLocks(st);
    ServerPassPlaces(st);
    ServerPassDoomed(st);
    ServerPassServerInv(st, st2.server, st2.list);
    PassFrame(st, st2);
  }

  lemma ConnectKeepsInv(st: State)
    requires Inv(st) && st.server == SAccept
    ensures Inv(st.(server := SUpgrade))
  {
    PassFrame(st, st.(server := SUpgrade));
  }

  lemma RunStepKeepsInv(st: State)
    requires Inv(st) && RunEnabled(st)
    ensures Inv(RunDo(st))
  {
    PassFrame(st, RunDo(st));
  }

  lemma AcceptKeepsInv(st: State, s: Sid)
    requires Inv(st) && st.server == SUpgrade && s !in st.sess
    ensures Inv(ServerPass(st, Some(s)))
  {
    var st2 := ServerPass(st, Some(s));
    forall r | r in st2.sess ensures SessInv(st2, r) {
      if r != s {
        assert SessInv(st, r);
      }
    }
    forall r ensures Share(st2, r) == if Live(st2, r) then 1 else 0 {
      assert Share(st, r) == if Live(st, r) then 1 else 0;
      assert [s][1..] == [];
    }
    AcceptKeepsThreads(st, s);
  }

  lemma AcceptKeepsThreads(st: State, s: Sid)
    requires Inv(st) && st.server == SUpgrade && s !in st.sess
    ensures var st2 := ServerPass(st, Some(s)); LockInv(st2) && ServerInv(st2) && BcastInv(st2) && StopInv(st2)
  {
    if BcastTouches(st.bcast) {
      BcastAt(st);
    }
  }

  // ---------- the server thread: steps that touch a session ----------

  lemma ServerAt(st: State)
    requires Inv(st) && ServerTouches(st.server)
    ensures var s := ServerTarget(st.server, st.list); Live(st, s)
    ensures !StopJoined(st.stopper)
  {
    match st.server
    case SJudge(i, kept, _) =>
      assert st.list[i..][0] == st.list[i];
      HeldLive(st, st.list[i]);
    case SDel(s, _, _) =>
      assert s in Doomed(st.server);
      HeldLive(st, s);
    case SOpen(s) => assert PreConnect(st.server, s);
    case SRun(s) => assert PreConnect(st.server, s);
    case SSpawn(s) => assert PreConnect(st.server, s);
    case SConnect(s) => assert PreConnect(st.server, s);
    case _ =>
  }

  lemma ServerFollows(p: ServerPc, s: Sid, x: Session)
    requires ServerTouches(p) && SelfInv(x) && StartInv(x, p, s) && x.frees == 0
    requires p.SOpen? || p.SRun? || p.SSpawn? || p.SConnect? || p.SDel? ==> ServerTarget(p, []) == s
    requires p.SDel? ==> DelOk(x, p.d) && DelEnabled(x, p.d)
    ensures var (y, q) := ServerMove(p, s, x);
      && Follows(x, y) && SelfInv(y) && StartInv(y, q, s)
      && (y.pc == x.pc || x.pc == Unstarted)
      && (if q.SFree? then y.frees == 1 else y.frees == 0)
      && (q.SDel? ==> q.first == s && DelOk(y, q.d))
      && (y.ready == Closing ==> (x.ready == Closing && !ServerCloses(p)) || ServerCloses(q))
  {
    if p.SDel? {
      DelFollows(x, p.d);
    }
  }

  lemma JudgeHolds(list: seq<Sid>, i: nat, kept: seq<Sid>, doomed: seq<Sid>, r: Sid)
    requires i < |list|
    ensures Holds(SScan(i + 1, kept + [list[i]], doomed), list, r) == Holds(SJudge(i, kept, doomed), list, r)
    ensures Holds(SScan(i + 1, kept, doomed + [list[i]]), list, r) == Holds(SJudge(i, kept, doomed), list, r)
  {
    CountDrop(list, i, r);
    CountAppend(kept, list[i], r);
    CountAppend(doomed, list[i], r);
  }

  lemma DelHolds(list: seq<Sid>, s: Sid, rest: seq<Sid>, d: DelPc, r: Sid)
    ensures Holds(SDel(s, rest, d), list, r) == Holds(SFree(rest), list, r) + (if r == s then 1 else 0)
  {
    assert ([s] + rest)[1..] == rest;
  }

  lemma ServerMoveHolds(p: ServerPc, list: seq<Sid>, s: Sid, x: Session, r: Sid)
    requires ServerTouches(p) && s == ServerTarget(p, list)
    requires p.SJudge? ==> p.i < |list|
    ensures var (y, q) := ServerMove(p, s, x);
      Holds(p, list, r) == Holds(q, list, r) + (if q.SFree? && r == s then 1 else 0)
  {
    if p.SJudge? {
      JudgeHolds(list, p.i, p.kept, p.doomed, r);
    } else if p.SDel? {
      DelHolds(list, s, p.rest, p.d, r);
    }
  }

  lemma ServerMovePlaces(p: ServerPc, s: Sid, x: Session, list: seq<Sid>)
    requires ServerTouches(p) && s == ServerTarget(p, list)
    ensures var (y, q) := ServerMove(p, s, x);
      && (forall r :: r != s ==> PreOpen(p, r) == PreOpen(q, r) && PreSpawn(p, r) == PreSpawn(q, r))
      && (forall r :: r != s ==> PreConnect(p, r) == PreConnect(q, r))
      && (PreConnect(q, s) ==> PreConnect(p, s))
      && (forall r :: r in Doomed(q) ==> r in Doomed(p) || (p.SJudge? && r == s && x.ready == Closed))
      && ServerHolds(p) == ServerHolds(q) && q != SDone && q != SNew && !q.SJudge?
      && (q.SScan? ==> p.SJudge? && q.i == p.i + 1)
  {
  }

  lemma ServerMoveKeepsInv(st: State, s: Sid, y: Session, q: ServerPc)
    requires Inv(st) && ServerTouches(st.server) && Live(st, s) && !StopJoined(st.stopper)
    requires s == ServerTarget(st.server, st.list)
    requires Follows(st.sess[s], y) && SelfInv(y) && StartInv(y, q, s)
    requires y.pc == st.sess[s].pc || st.sess[s].pc == Unstarted
    requires y.ready == Closing ==>
               (st.sess[s].ready == Closing && !ServerCloses(st.server)) || (ServerCloses(q) && q.first == s)
    requires ServerHolds(q) == ServerHolds(st.server) && q != SNew
    requires ServerInv(st.(sess := st.sess[s := y], server := q))
    requires forall r :: r != s ==> PreOpen(st.server, r) == PreOpen(q, r) && PreSpawn(st.server, r) == PreSpawn(q, r)
    requires forall r :: r != s ==> PreConnect(st.server, r) == PreConnect(q, r)
    requires forall r ::
               Holds(st.server, st.list, r) == Holds(q, st.list, r) + (if y.frees == 1 && r == s then 1 else 0)
    ensures Inv(st.(sess := st.sess[s := y], server := q))
  {
    var st2 := st.(sess := st.sess[s := y], server := q);
    assert SessInv(st, s);
    assert SessInv(st2, s);
    AllSessFrame(st, st2, s);
    BcastFrame(st, st2, s);
    StopFrame(st, st2, s);
    if y.frees == 1 {
      ReleaseFrame(st, st2, s);
    } else {
      OwnFrame(st, st2, s);
    }
  }

  lemma ServerMoveServerInv(st: State, s: Sid, y: Session, q: ServerPc)
    requires ServerInv(st) && Live(st, s)
    requires Follows(st.sess[s], y) && (y.frees == 1 ==> !PreConnect(q, s))
    requires y.frees <= 1
    requires forall r :: PreConnect(q, r) ==> PreConnect(st.server, r)
    requires forall r :: r in Doomed(q) ==> r in Doomed(st.server) || (r == s && y.torn)
    requires q.SScan? ==> q.i <= |st.list|
    requires !q.SJudge?
    requires q.SDel? ==> q.first == s && DelOk(y, q.d)
    ensures ServerInv(st.(sess := st.sess[s := y], server := q))
  {
    var st2 := st.(sess := st.sess[s := y], server := q);
    forall r | PreConnect(q, r) ensures Live(st2, r) {
      assert Live(st, r);
    }
    forall r | r in Doomed(q) ensures Get(st2, r).torn {
    }
  }

  lemma ServerTouchKeepsInv(st: State)
    requires Inv(st) && ServerTouches(st.server) && ServerEnabled(st, None)
    ensures Inv(ServerDo(st, None))
  {
    ServerAt(st);
    var s := ServerTarget(st.server, st.list);
    assert SessInv(st, s);
    var (y, q) := ServerMove(st.server, s, st.sess[s]);
    ServerFollows(st.server, s, st.sess[s]);
    forall r ensures Holds(st.server, st.list, r) == Holds(q, st.list, r) + (if y.frees == 1 && r == s then 1 else 0) {
      ServerMoveHolds(st.server, st.list, s, st.sess[s], r);
    }
    ServerMovePlaces(st.server, s, st.sess[s], st.list);
    ServerMoveServerInv(st, s, y, q);
    ServerMoveKeepsInv(st, s, y, q);
  }

  lemma ServerKeepsInv(st: State, accepted: Option<Sid>)
    requires Inv(st) && ServerEnabled(st, accepted)
    ensures Inv(Do(st, ServerStep(accepted)))
  {
    if ServerTouches(st.server) {
      ServerTouchKeepsInv(st);
    } else if st.server == SAccept && accepted.Some? {
      ConnectKeepsInv(st);
    } else if st.server == SUpgrade && accepted.Some? {
      AcceptKeepsInv(st, accepted.value);
    } else {
      ServerPassKeepsInv(st);
    }
  }

  lemma StepKeepsInv(st: State, step: Step)
    requires Inv(st) && Enabled(st, step)
    ensures Inv(Do(st, step))
  {
    match step
    case RunStep => RunStepKeepsInv(st);
    case ServerStep(accepted) => ServerKeepsInv(st, accepted);
    case BcastStep(wrote) => BcastKeepsInv(st, wrote);
    case StopStep => StopKeepsInv(st);
    case SessionStep(s, read) => SessionKeepsInv(st, s, read);
  }

  lemma {:induction false} RunKeepsInv(tr: seq<State>, steps: seq<Step>, i: nat)
    requires Run(tr, steps) && i < |tr|
    ensures Inv(tr[i])
  {
    if i == 0 {
      InitInv(tr[0]);
    } else {
      RunKeepsInv(tr, steps, i - 1);
      assert Stepped(tr, steps, i - 1);
      StepKeepsInv(tr[i - 1], steps[i - 1]);
    }
  }

  lemma InitInv(st: State)
    requires Init(st)
    ensures Inv(st)
  {
  }

  /** A server whose stop found it not running. */
  lemma SkippedKeepsInv()
    ensures Inv(NEW_SERVER.(stopper := MSkipped))
  {
    InitInv(NEW_SERVER);
    StopKeepsInv(NEW_SERVER);
  }
}
