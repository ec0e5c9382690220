/** What every step of the session protocol keeps. */
module SessionInvariant {
  import opened Wrappers
  import opened SessionProtocol

  predicate Closish(x: Session) {
    x.ready == Closing || x.ready == Closed
  }

  predicate PreOpen(p: ServerPc, s: Sid) {
    p == SLock(s) || p == SPush(s) || p == SUnlock(s) || p == SOpen(s)
  }

  predicate PreSpawn(p: ServerPc, s: Sid) {
    PreOpen(p, s) || p == SRun(s) || p == SSpawn(s)
  }

  predicate PreConnect(p: ServerPc, s: Sid) {
    PreSpawn(p, s) || p == SConnect(s)
  }

  predicate ServerHolds(p: ServerPc) {
    p.SPush? || p.SUnlock? || p.SScan? || p.SJudge? || p.SCleanUnlock?
  }

  predicate BcastHolds(p: BcastPc) {
    p != BIdle && p != BLock
  }

  predicate StopHolds(p: StopPc) {
    p.MNext? || p.MNotify? || p.MClose? || p.MDel? || p.MUnlock?
  }

  // Past the join of the server thread.
  predicate StopJoined(p: StopPc) {
    p.MLock? || StopHolds(p) || p.MDone?
  }

  // ---------- ownership ----------

  /** How often `s` occurs in `l`. */
  function Count(l: seq<Sid>, s: Sid): nat {
    if l == [] then 0 else (if l[0] == s then 1 else 0) + Count(l[1..], s)
  }

  function Fresh(p: ServerPc): seq<Sid> {
    if p.SLock? || p.SPush? then [p.s] else []
  }

  /** The entries of `sessions` the stopping thread has not deleted yet. */
  function Left(m: StopPc, list: seq<Sid>): seq<Sid> {
    if StopTouches(m) || m.MNext? then From(list, m.i) else list
  }

  /** The entries a running clean-up has decided to keep, and those it has not looked at. */
  function Kept(p: ServerPc): seq<Sid> {
    if p.SScan? || p.SJudge? then p.kept else []
  }

  function Unread(p: ServerPc, left: seq<Sid>): seq<Sid> {
    if p.SScan? || p.SJudge? then From(left, p.i) else left
  }

  function Doomed(p: ServerPc): seq<Sid> {
    if p.SScan? || p.SJudge? || p.SCleanUnlock? || p.SFree? then p.doomed
    else if p.SDel? then [p.first] + p.rest
    else []
  }

  /** How often `s` is held: freshly accepted, in the list, in `toFree`. */
  function Holds(p: ServerPc, left: seq<Sid>, s: Sid): nat {
    Count(Fresh(p), s) + Count(Kept(p), s) + Count(Unread(p, left), s) + Count(Doomed(p), s)
  }

  function Share(st: State, s: Sid): nat {
    Holds(st.server, Left(st.stopper, st.list), s)
  }

  lemma {:induction false} CountAppend(l: seq<Sid>, x: Sid, s: Sid)
    ensures Count(l + [x], s) == Count(l, s) + (if x == s then 1 else 0)
  {
    if l == [] {
      assert l + [x] == [x];
    } else {
      CountAppend(l[1..], x, s);
      assert (l + [x])[1..] == l[1..] + [x];
    }
  }

  lemma CountDrop(l: seq<Sid>, i: nat, s: Sid)
    requires i < |l|
    ensures Count(l[i..], s) == Count(l[i + 1..], s) + (if l[i] == s then 1 else 0)
  {
    assert l[i..][1..] == l[i + 1..];
  }

  lemma {:induction false} CountIn(l: seq<Sid>, s: Sid)
    ensures s in l <==> Count(l, s) >= 1
  {
    if l != [] {
      CountIn(l[1..], s);
      assert l == [l[0]] + l[1..];
    }
  }

  /** Every live session is held exactly once, nothing else is held. */
  ghost predicate OwnInv(st: State) {
    forall s: Sid {:trigger Share(st, s)} :: Share(st, s) == if Live(st, s) then 1 else 0
  }

  // ---------- closing ----------

  predicate CloserOk(x: Session, c: ClosePc) {
    && x.closes >= 1
    && x.ready != Connecting
    && (c == CodeSocket || c == Tear || c == Finish || c == Halt ==> Closish(x))
    && (c == Finish || c == Halt ==> x.torn)
  }

  /** Inside close(), not close(code). */
  predicate Plain(c: ClosePc) {
    c != CodeCheck && c != CodeMark && c != CodeSocket
  }

  predicate DelOk(x: Session, d: DelPc) {
    && x.closes >= 1
    && x.ready != Connecting
    && (d.DelClose? ==> CloserOk(x, d.c) && Plain(d.c))
    && (d.DelStop? || d.DelJoin? || d.DelBase? || d.DelFree? ==> x.torn)
    && (d.DelJoin? || d.DelBase? || d.DelFree? ==> !x.running)
    && (d.DelBase? || d.DelFree? ==> x.pc == Done)
  }

  predicate ThreadCloses(x: Session) {
    x.pc.Close? && x.pc.c != Halt
  }

  predicate BcastCloses(p: BcastPc) {
    p.BClose? && p.c != Halt
  }

  predicate DelCloses(d: DelPc) {
    d.DelClose? && d.c != Halt
  }

  predicate StopCloses(p: StopPc) {
    (p.MClose? && p.c != Halt) || (p.MDel? && DelCloses(p.d))
  }

  predicate ServerCloses(p: ServerPc) {
    p.SDel? && DelCloses(p.d)
  }

  /** Some thread is inside a close of `s` and has not yet written CLOSED for the last time. */
  predicate InFlight(st: State, s: Sid)
    requires s in st.sess
  {
    || ThreadCloses(st.sess[s])
    || (BcastCloses(st.bcast) && At(st.list, st.bcast.i) == s)
    || (StopCloses(st.stopper) && At(st.list, st.stopper.i) == s)
    || (ServerCloses(st.server) && st.server.first == s)
  }

  /** What holds of a session's own fields. */
  predicate SelfInv(x: Session) {
    && (Closish(x) ==> x.closes >= 1)
    && (x.ready == Closed ==> x.torn)
    && (x.torn ==> Closish(x))
    && x.frees <= 1
    && (x.frees == 1 ==> x.pc == Done && x.torn && !x.running)
    && (x.pc.Close? ==> CloserOk(x, x.pc.c))
  }

  /** What ties a session to the server thread that starts it. */
  predicate StartInv(x: Session, p: ServerPc, s: Sid) {
    && (x.ready == Connecting <==> PreOpen(p, s))
    && (x.pc == Unstarted <==> PreSpawn(p, s))
    && x.connects == (if PreConnect(p, s) then 0 else 1)
  }

  predicate SessInv(st: State, s: Sid)
    requires s in st.sess
  {
    && SelfInv(st.sess[s])
    && StartInv(st.sess[s], st.server, s)
    && (st.sess[s].ready == Closing ==> InFlight(st, s))
  }

  ghost predicate AllSess(st: State) {
    forall s: Sid {:trigger SessInv(st, s)} :: s in st.sess ==> SessInv(st, s)
  }

  // ---------- the threads ----------

  ghost predicate LockInv(st: State) {
    && (st.lock == Some(Server) <==> ServerHolds(st.server))
    && (st.lock == Some(Broadcaster) <==> BcastHolds(st.bcast))
    && (st.lock == Some(Stopper) <==> StopHolds(st.stopper))
    && (st.lock.Some? ==> !st.lock.value.Own?)
  }

  ghost predicate ServerInv(st: State) {
    && (forall s: Sid :: PreConnect(st.server, s) ==> Live(st, s))
    && (forall s: Sid :: s in Doomed(st.server) ==> Get(st, s).torn)
    && (st.server.SScan? ==> st.server.i <= |st.list|)
    && (st.server.SJudge? ==> st.server.i < |st.list|)
    && (st.server.SDel? ==> DelOk(Get(st, st.server.first), st.server.d))
  }

  ghost predicate BcastInv(st: State) {
    && (st.bcast.BLoop? ==> st.bcast.i <= |st.list|)
    && (BcastTouches(st.bcast) ==>
      && st.bcast.i < |st.list|
      && (!st.bcast.BSend? ==> Get(st, st.list[st.bcast.i]).ready != Connecting)
      && (st.bcast.BClose? ==> CloserOk(Get(st, st.list[st.bcast.i]), st.bcast.c)))
  }

  ghost predicate StopInv(st: State) {
    && (StopJoined(st.stopper) ==> st.server == SDone)
    && (st.stopper.MNext? ==> st.stopper.i <= |st.list|)
    && (StopTouches(st.stopper) ==>
      && st.stopper.i < |st.list|
      && (st.stopper.MClose? ==> CloserOk(Get(st, st.list[st.stopper.i]), st.stopper.c) && Plain(st.stopper.c))
      && (st.stopper.MDel? ==> DelOk(Get(st, st.list[st.stopper.i]), st.stopper.d)))
    && (st.stopper.MUnlock? || st.stopper.MDone? ==> st.list == [])
  }

  /** When the server's flag is up; a server that never ran has no sessions. */
  ghost predicate RunInv(st: State) {
    && (st.running <==> st.server != SNew && (st.stopper == MTest || st.stopper == MAcceptor || st.stopper == MClear))
    && (st.server == SNew ==> st.sess == map[] && st.list == [] && (st.stopper == MTest || st.stopper == MSkipped))
    && (st.stopper == MSkipped ==> st.server == SNew)
  }

  ghost predicate Inv(st: State) {
    && !st.fault
    && RunInv(st)
    && LockInv(st)
    && OwnInv(st)
    && AllSess(st)
    && ServerInv(st)
    && BcastInv(st)
    && StopInv(st)
  }

  // ---------- one session ----------

  /** What may happen to a session at any step. */
  predicate Follows(x: Session, y: Session) {
    && (x.ready != Connecting ==> y.ready != Connecting)
    && (Closish(x) ==> Closish(y))
    && (x.torn ==> y.torn)
    && x.closes <= y.closes
    && (x.pc == Done ==> y.pc == Done)
  }

  /** What may happen to it once its thread runs. */
  predicate FollowsLate(x: Session, y: Session) {
    Follows(x, y) && (y.running ==> x.running) && y.connects == x.connects && y.ready != Connecting
  }

  lemma OkFollows(x: Session, y: Session, c: ClosePc, d: DelPc)
    requires Follows(x, y)
    ensures CloserOk(x, c) ==> CloserOk(y, c)
    ensures DelOk(x, d) && (y.running ==> x.running) ==> DelOk(y, d)
  {
  }

  lemma CloseFollows(x: Session, c: ClosePc)
    requires SelfInv(x) && CloserOk(x, c)
    ensures var (y, n) := CloseStep(x, c);
      && FollowsLate(x, y) && SelfInv(y)
      && y.frees == x.frees && y.pc == x.pc
      && (if n.Some? then CloserOk(y, n.value) && (Plain(c) ==> Plain(n.value)) else y.torn)
      && (y.ready == Closing ==> (x.ready == Closing && c == Halt) || (n.Some? && n.value != Halt))
  {
  }

  lemma DelFollows(x: Session, d: DelPc)
    requires SelfInv(x) && DelOk(x, d) && x.frees == 0 && x.pc != Unstarted && DelEnabled(x, d)
    ensures var (y, n) := DelStep(x, d);
      && FollowsLate(x, y) && SelfInv(y)
      && y.pc == x.pc
      && (if n.Some? then DelOk(y, n.value) && y.frees == 0 else y.frees == 1)
      && (y.ready == Closing ==> (x.ready == Closing && !DelCloses(d)) || (n.Some? && DelCloses(n.value)))
  {
    if d.DelClose? {
      CloseFollows(x, d.c);
    }
  }

  lemma ThreadFollows(x: Session, read: ReadResult)
    requires SelfInv(x) && x.ready != Connecting && x.frees == 0
    requires x.pc != Unstarted && x.pc != Done
    ensures var y := ThreadStep(x, read);
      && FollowsLate(x, y) && SelfInv(y)
      && y.frees == 0 && y.pc != Unstarted
      && (y.ready == Closing ==> (x.ready == Closing && !ThreadCloses(x)) || ThreadCloses(y))
  {
    if x.pc.Close? {
      CloseFollows(x, x.pc.c);
    }
  }

  lemma BcastFollows(p: BcastPc, x: Session, wrote: WriteResult)
    requires SelfInv(x) && BcastTouches(p)
    requires !p.BSend? ==> x.ready != Connecting
    requires p.BClose? ==> CloserOk(x, p.c)
    ensures var (y, q) := BcastMove(p, x, wrote);
      && Follows(x, y) && SelfInv(y)
      && (y.running ==> x.running) && y.connects == x.connects && y.frees == x.frees && y.pc == x.pc
      && (y.ready == Connecting <==> x.ready == Connecting)
      && BcastHolds(q) && (BcastTouches(q) ==> q.i == p.i && !q.BSend? && y.ready != Connecting)
      && (q.BLoop? ==> q.i == p.i + 1)
      && (q.BClose? ==> CloserOk(y, q.c))
      && (y.ready == Closing ==> (x.ready == Closing && !BcastCloses(p)) || BcastCloses(q))
  {
    if p.BClose? {
      CloseFollows(x, p.c);
    }
  }

  lemma StopFollows(p: StopPc, x: Session)
    requires SelfInv(x) && StopTouches(p) && x.frees == 0 && x.pc != Unstarted && x.ready != Connecting
    requires p.MClose? ==> CloserOk(x, p.c) && Plain(p.c)
    requires p.MDel? ==> DelOk(x, p.d) && DelEnabled(x, p.d)
    ensures var (y, q) := StopMove(p, x);
      && FollowsLate(x, y) && SelfInv(y) && y.pc == x.pc
      && (if StopTouches(q) then q.i == p.i && y.frees == 0 else q == MNext(p.i + 1) && y.frees == 1)
      && (q.MClose? ==> CloserOk(y, q.c) && Plain(q.c))
      && (q.MDel? ==> DelOk(y, q.d))
      && (y.ready == Closing ==> (x.ready == Closing && !StopCloses(p)) || StopCloses(q))
  {
    match p
    case MNotify(_) =>
    case MClose(_, c) => CloseFollows(x, c);
    case MDel(_, d) => DelFollows(x, d);
  }

  // ---------- one session changes, and the thread that changed it moves on ----------

  /** `st2` differs from `st` in session `s` and in the places of the threads only. */
  ghost predicate Changes(st: State, st2: State, s: Sid) {
    && Live(st, s)
    && s in st2.sess
    && st2.sess == st.sess[s := st2.sess[s]]
    && st2.list == st.list
    && Follows(st.sess[s], st2.sess[s])
  }

  lemma OthersFollow(st: State, st2: State, s: Sid, r: Sid)
    requires Changes(st, st2, s)
    ensures Follows(Get(st, r), Get(st2, r))
  {
  }

  lemma ServerFrame(st: State, st2: State, s: Sid)
    requires ServerInv(st) && Changes(st, st2, s)
    requires st2.server == st.server
    requires st2.sess[s].running ==> st.sess[s].running
    requires st2.sess[s].frees == 0 || st.server == SDone
    ensures ServerInv(st2)
  {
    forall r | PreConnect(st2.server, r) ensures Live(st2, r) {
      assert Live(st, r);
    }
    forall r | r in Doomed(st2.server) ensures Get(st2, r).torn {
      assert Get(st, r).torn;
    }
    if st.server.SDel? {
      OthersFollow(st, st2, s, st.server.first);
      OkFollows(Get(st, st.server.first), Get(st2, st.server.first), Check, st.server.d);
    }
  }

  lemma BcastFrame(st: State, st2: State, s: Sid)
    requires BcastInv(st) && Changes(st, st2, s)
    requires st2.bcast == st.bcast
    ensures BcastInv(st2)
  {
    if BcastTouches(st.bcast) {
      var r := st.list[st.bcast.i];
      OthersFollow(st, st2, s, r);
      OkFollows(Get(st, r), Get(st2, r), if st.bcast.BClose? then st.bcast.c else Check, DelCheck);
    }
  }

  lemma StopFrame(st: State, st2: State, s: Sid)
    requires StopInv(st) && Changes(st, st2, s)
    requires st2.stopper == st.stopper
    requires StopJoined(st.stopper) ==> st2.server == st.server && (st2.sess[s].running ==> st.sess[s].running)
    ensures StopInv(st2)
  {
    if StopTouches(st.stopper) {
      var r := st.list[st.stopper.i];
      OthersFollow(st, st2, s, r);
      OkFollows(Get(st, r), Get(st2, r),
        if st.stopper.MClose? then st.stopper.c else Check,
        if st.stopper.MDel? then st.stopper.d else DelCheck);
    }
  }

  lemma OwnFrame(st: State, st2: State, s: Sid)
    requires OwnInv(st) && Changes(st, st2, s) && st2.sess[s].frees == 0
    requires forall r :: Share(st2, r) == Share(st, r)
    ensures OwnInv(st2)
  {
    forall r ensures Share(st2, r) == if Live(st2, r) then 1 else 0 {
      assert Share(st, r) == if Live(st, r) then 1 else 0;
    }
  }

  /** Session `s` is released, and its holder lets go of it. */
  lemma ReleaseFrame(st: State, st2: State, s: Sid)
    requires OwnInv(st) && Changes(st, st2, s) && st2.sess[s].frees == 1
    requires forall r :: Share(st, r) == Share(st2, r) + (if r == s then 1 else 0)
    ensures OwnInv(st2)
  {
    forall r ensures Share(st2, r) == if Live(st2, r) then 1 else 0 {
      assert Share(st, r) == if Live(st, r) then 1 else 0;
    }
  }

  /** The other sessions, when the acting thread was and is busy with `s` only. */
  lemma AllSessFrame(st: State, st2: State, s: Sid)
    requires AllSess(st) && Changes(st, st2, s) && SessInv(st2, s)
    requires st2.server == st.server || !st.server.SDel? || st.server.first == s
    requires forall r :: PreOpen(st2.server, r) == PreOpen(st.server, r) || r == s
    requires forall r :: PreSpawn(st2.server, r) == PreSpawn(st.server, r) || r == s
    requires forall r :: PreConnect(st2.server, r) == PreConnect(st.server, r) || r == s
    requires st2.bcast == st.bcast || (BcastTouches(st.bcast) && At(st.list, st.bcast.i) == s)
    requires st2.stopper == st.stopper || (StopTouches(st.stopper) && At(st.list, st.stopper.i) == s)
    ensures AllSess(st2)
  {
    forall r | r in st2.sess ensures SessInv(st2, r) {
      assert SessInv(st, r);
    }
  }

  /** Steps that touch no session. */
  lemma PassFrame(st: State, st2: State)
    requires AllSess(st) && OwnInv(st) && st2.sess == st.sess
    requires forall r :: Share(st2, r) == Share(st, r)
    requires st2.list == st.list || (!BcastTouches(st.bcast) && !StopTouches(st.stopper))
    requires st2.server == st.server || !ServerTouches(st.server)
    requires forall r :: PreOpen(st2.server, r) == PreOpen(st.server, r)
    requires forall r :: PreSpawn(st2.server, r) == PreSpawn(st.server, r)
    requires forall r :: PreConnect(st2.server, r) == PreConnect(st.server, r)
    requires st2.bcast == st.bcast || !BcastTouches(st.bcast)
    requires st2.stopper == st.stopper || !StopTouches(st.stopper)
    ensures AllSess(st2) && OwnInv(st2)
  {
    forall r | r in st2.sess ensures SessInv(st2, r) {
      assert SessInv(st, r);
    }
    forall r ensures Share(st2, r) == if Live(st2, r) then 1 else 0 {
      assert Share(st, r) == if Live(st, r) then 1 else 0;
    }
  }

  lemma HeldLive(st: State, s: Sid)
    requires OwnInv(st)
    requires s in Fresh(st.server) || s in Kept(st.server) || s in Doomed(st.server)
          || s in Unread(st.server, Left(st.stopper, st.list))
    ensures Live(st, s)
  {
    CountIn(Fresh(st.server), s);
    CountIn(Kept(st.server), s);
    CountIn(Doomed(st.server), s);
    CountIn(Unread(st.server, Left(st.stopper, st.list)), s);
    assert Share(st, s) >= 1;
  }
}
