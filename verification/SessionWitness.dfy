/** A run in which two promises a reader might expect do not hold: readyState steps back from CLOSED
    to CLOSING, and onClose is called twice for one session. And three in which a stop waits for a peer. */
module SessionWitness {
  import opened Wrappers
  import opened SessionProtocol
  import SessionProgress

  ghost predicate Reachable(st: State) {
    exists tr, steps :: Run(tr, steps) && tr[|steps|] == st
  }

  lemma ReachStep(st: State, step: Step, st2: State)
    requires Reachable(st) && Enabled(st, step) && st2 == Do(st, step)
    ensures Reachable(st2)
  {
    var tr, steps :| Run(tr, steps) && tr[|steps|] == st;
    var tr2, steps2 := tr + [st2], steps + [step];
    forall i | 0 <= i < |steps2| ensures Stepped(tr2, steps2, i) {
      if i < |steps| { assert Stepped(tr, steps, i); }
    }
    assert Run(tr2, steps2);
    assert tr2[|steps2|] == st2;
  }

  function Shape(x: Session, p: ServerPc, b: BcastPc, l: Option<Actor>): State {
    State(true, l, [0], map[0 := x], p, b, MTest, false)
  }

  function Calm(p: ServerPc): State {
    State(true, None, [], map[], p, BIdle, MTest, false)
  }

  /** The server runs and a client has connected. */
  lemma Connected() returns (st: State)
    ensures Reachable(st) && st == Calm(SUpgrade)
  {
    assert Run([NEW_SERVER], []) && [NEW_SERVER][0] == NEW_SERVER;
    ReachStep(NEW_SERVER, RunStep, Calm(SHead));
    ReachStep(Calm(SHead), ServerStep(None), Calm(SAccept));
    ReachStep(Calm(SAccept), ServerStep(Some(0)), Calm(SUpgrade));
    st := Calm(SUpgrade);
  }

  /** Its session was accepted and entered in the list. */
  lemma Entered() returns (st: State)
    ensures Reachable(st)
    ensures st == Shape(NEW_SESSION, SUnlock(0), BIdle, Some(Server))
  {
    var a := Connected();
    var b := a.(sess := map[0 := NEW_SESSION], server := SLock(0));
    ReachStep(a, ServerStep(Some(0)), b);
    var c := b.(lock := Some(Server), server := SPush(0));
    ReachStep(b, ServerStep(None), c);
    st := Shape(NEW_SESSION, SUnlock(0), BIdle, Some(Server));
    ReachStep(c, ServerStep(None), st);
  }

  /** It was started. */
  lemma Started() returns (st: State)
    ensures Reachable(st)
    ensures st == Shape(Session(Open, true, false, Head, 0, 0, 0), SConnect(0), BIdle, None)
  {
    var d := Entered();
    var f := Shape(NEW_SESSION, SOpen(0), BIdle, None);
    ReachStep(d, ServerStep(None), f);
    var g := Shape(NEW_SESSION.(ready := Open), SRun(0), BIdle, None);
    ReachStep(f, ServerStep(None), g);
    var h := Shape(NEW_SESSION.(ready := Open, running := true), SSpawn(0), BIdle, None);
    ReachStep(g, ServerStep(None), h);
    st := Shape(Session(Open, true, false, Head, 0, 0, 0), SConnect(0), BIdle, None);
    ReachStep(h, ServerStep(None), st);
  }

  /** Its own thread found the peer gone and is past the guard of close(). */
  lemma ThreadPastGuard() returns (st: State)
    ensures Reachable(st)
    ensures st == Shape(Session(Open, true, false, Close(Mark), 0, 1, 0), SConnect(0), BIdle, None)
  {
    var a := Started();
    var x := Session(Open, true, false, Head, 0, 0, 0);
    var b := Shape(x.(pc := Test), SConnect(0), BIdle, None);
    ReachStep(a, SessionStep(0, Got), b);
    var c := Shape(x.(pc := Read), SConnect(0), BIdle, None);
    ReachStep(b, SessionStep(0, Got), c);
    var d := Shape(x.(pc := Notify(false)), SConnect(0), BIdle, None);
    ReachStep(c, SessionStep(0, PeerClosed), d);
    var e := Shape(x.(pc := Close(Check), closes := 1), SConnect(0), BIdle, None);
    ReachStep(d, SessionStep(0, Got), e);
    st := Shape(x.(pc := Close(Mark), closes := 1), SConnect(0), BIdle, None);
    ReachStep(e, SessionStep(0, Got), st);
  }

  /** The broadcaster's write to it failed. */
  lemma WriteFailed() returns (st: State)
    ensures Reachable(st)
    ensures st == Shape(Session(Open, true, false, Close(Mark), 0, 1, 0), SConnect(0), BNotify(0), Some(Broadcaster))
  {
    var a := ThreadPastGuard();
    var x := Session(Open, true, false, Close(Mark), 0, 1, 0);
    var l := Some(Broadcaster);
    var b := a.(bcast := BLock);
    ReachStep(a, BcastStep(Sent), b);
    var c := Shape(x, SConnect(0), BLoop(0), l);
    ReachStep(b, BcastStep(Sent), c);
    var d := Shape(x, SConnect(0), BSend(0), l);
    ReachStep(c, BcastStep(Sent), d);
    var e := Shape(x, SConnect(0), BWrite(0), l);
    ReachStep(d, BcastStep(Sent), e);
    st := Shape(x, SConnect(0), BNotify(0), l);
    ReachStep(e, BcastStep(WriteFatal), st);
  }

  /** The broadcaster, too, is past the guard of close(code). */
  lemma BothPastGuard() returns (st: State)
    ensures Reachable(st)
    ensures st == Shape(Session(Open, true, false, Close(Mark), 0, 2, 0), SConnect(0), BClose(0, CodeMark),
                        Some(Broadcaster))
  {
    var f := WriteFailed();
    var x := Session(Open, true, false, Close(Mark), 0, 1, 0);
    var l := Some(Broadcaster);
    var g := Shape(x.(closes := 2), SConnect(0), BClose(0, CodeCheck), l);
    ReachStep(f, BcastStep(Sent), g);
    st := Shape(x.(closes := 2), SConnect(0), BClose(0, CodeMark), l);
    ReachStep(g, BcastStep(Sent), st);
  }

  /** readyState goes from CLOSED back to CLOSING, after two calls of onClose and none of onConnection. */
  lemma StepsBack() returns (st: State, step: Step)
    ensures Reachable(st) && Enabled(st, step)
    ensures 0 in st.sess && st.sess[0].ready == Closed && st.sess[0].closes == 2 && st.sess[0].connects == 0
    ensures 0 in Do(st, step).sess && Do(st, step).sess[0].ready == Closing
  {
    var a := BothPastGuard();
    var x := Session(Closing, true, false, Close(Tear), 0, 2, 0);
    var p, q, l := SConnect(0), BClose(0, CodeMark), Some(Broadcaster);
    var b := Shape(x, p, q, l);
    ReachStep(a, SessionStep(0, Got), b);
    var c := Shape(x.(torn := true, pc := Close(Finish)), p, q, l);
    ReachStep(b, SessionStep(0, Got), c);
    st := Shape(x.(ready := Closed, torn := true, pc := Close(Halt)), p, q, l);
    ReachStep(c, SessionStep(0, Got), st);
    step := BcastStep(Sent);
  }

  // ---------- a stop that waits for a peer ----------

  /** Server::stop waits for the server thread, and that for the request of a client. */
  lemma StopWaitsForUpgrade() returns (st: State)
    ensures Reachable(st) && st.stopper == MJoin && st.server == SUpgrade
  {
    var a := Connected();
    ReachStep(a, StopStep, a.(stopper := MAcceptor));
    ReachStep(a.(stopper := MAcceptor), StopStep, a.(stopper := MClear));
    st := a.(running := false, stopper := MJoin);
    ReachStep(a.(stopper := MClear), StopStep, st);
  }

  /** The session waits for a message. */
  lemma Reading() returns (st: State)
    ensures Reachable(st)
    ensures st == Shape(Session(Open, true, false, Read, 0, 0, 0), SConnect(0), BIdle, None)
  {
    var a := Started();
    var x := Session(Open, true, false, Read, 0, 0, 0);
    var b := Shape(x.(pc := Test), SConnect(0), BIdle, None);
    ReachStep(a, SessionStep(0, Got), b);
    st := Shape(x, SConnect(0), BIdle, None);
    ReachStep(b, SessionStep(0, Got), st);
  }

  lemma InWrite(c: State, x: Session) returns (st: State)
    requires Reachable(c) && c == Shape(x, SConnect(0), BIdle, None) && x.ready == Open && x.frees == 0
    ensures Reachable(st) && st == Shape(x, SConnect(0), BWrite(0), Some(Broadcaster))
  {
    var l := Some(Broadcaster);
    ReachStep(c, BcastStep(Sent), c.(bcast := BLock));
    var d := Shape(x, SConnect(0), BLoop(0), l);
    ReachStep(c.(bcast := BLock), BcastStep(Sent), d);
    var e := Shape(x, SConnect(0), BSend(0), l);
    ReachStep(d, BcastStep(Sent), e);
    st := Shape(x, SConnect(0), BWrite(0), l);
    ReachStep(e, BcastStep(Sent), st);
  }

  /** The broadcaster writes to it, and meanwhile the server is stopped. */
  lemma StopWaitsForWrite() returns (st: State)
    ensures Reachable(st) && SessionProgress.WriteHeld(st, 0)
  {
    var a := Reading();
    var x := Session(Open, true, false, Read, 0, 0, 0);
    var b := InWrite(a, x);
    var c := Announced(b, x);
    st := Stopped(c);
  }

  lemma Announced(b: State, x: Session) returns (c: State)
    requires Reachable(b) && b == Shape(x, SConnect(0), b.bcast, b.lock) && x.frees == 0
    ensures Reachable(c) && c == Shape(x.(connects := x.connects + 1), SCleanTest, b.bcast, b.lock)
  {
    c := Shape(x.(connects := x.connects + 1), SCleanTest, b.bcast, b.lock);
    ReachStep(b, ServerStep(None), c);
  }

  /** Server::stop up to the lock of the mutex. */
  lemma Stopped(b: State) returns (st: State)
    requires Reachable(b) && b.server == SCleanTest && b.running && b.stopper == MTest
    ensures Reachable(st) && st == b.(server := SDone, running := false, stopper := MLock)
  {
    ReachStep(b, StopStep, b.(stopper := MAcceptor));
    ReachStep(b.(stopper := MAcceptor), StopStep, b.(stopper := MClear));
    var c := b.(running := false, stopper := MJoin);
    ReachStep(b.(stopper := MClear), StopStep, c);
    st := ServerEnds(c);
  }

  lemma ServerEnds(c: State) returns (st: State)
    requires Reachable(c) && c.server == SCleanTest && !c.running && c.stopper == MJoin
    ensures Reachable(st) && st == c.(server := SDone, stopper := MLock)
  {
    ReachStep(c, ServerStep(None), c.(server := SHead));
    ReachStep(c.(server := SHead), ServerStep(None), c.(server := SDone));
    st := c.(server := SDone, stopper := MLock);
    ReachStep(c.(server := SDone), StopStep, st);
  }

  /** Server::stop tears the session's socket down, under the mutex. */
  lemma StopWaitsForTeardown() returns (st: State)
    ensures Reachable(st) && SessionProgress.TearHeld(st, 0)
  {
    var a := Reading();
    var b := Announced(a, a.sess[0]);
    var c := Stopped(b);
    st := InTeardown(c, b.sess[0]);
  }

  lemma InTeardown(c: State, x: Session) returns (st: State)
    requires Reachable(c) && x == Session(Open, true, false, Read, 1, 0, 0)
    requires c == Shape(x, SDone, BIdle, None).(running := false, stopper := MLock)
    ensures Reachable(st) && SessionProgress.TearHeld(st, 0)
  {
    var d := c.(lock := Some(Stopper), stopper := MNext(0));
    ReachStep(c, StopStep, d);
    ReachStep(d, StopStep, d.(stopper := MNotify(0)));
    var e := d.(sess := map[0 := x.(closes := 1)], stopper := MClose(0, Check));
    ReachStep(d.(stopper := MNotify(0)), StopStep, e);
    ReachStep(e, StopStep, e.(stopper := MClose(0, Mark)));
    st := d.(sess := map[0 := x.(closes := 1, ready := Closing)], stopper := MClose(0, Tear));
    ReachStep(e.(stopper := MClose(0, Mark)), StopStep, st);
  }
}
