/** Waiting, and how waiting ends, in the session protocol. */
module SessionProgress {
  import opened Wrappers
  import opened SessionProtocol
  import opened SessionInvariant
  import opened SessionSteps

  // ---------- who waits for whom ----------

  predicate Ended(st: State, a: Actor) {
    match a
    case Server => st.server == SDone || st.server == SNew
    case Broadcaster => false
    case Stopper => st.stopper == MDone || st.stopper == MSkipped
    case Own(s) => !SessionEnabled(st, s)
  }

  /** The thread a delete of `s` at place `d` waits for. */
  function Joins(st: State, s: Sid, d: DelPc): Option<Actor> {
    if DelEnabled(Get(st, s), d) then None else Some(Own(s))
  }

  /** The thread that must move before `a` can. */
  function Blocker(st: State, a: Actor): Option<Actor> {
    match a
    case Server =>
      if st.server.SLock? || st.server.SCleanLock? then st.lock
      else if st.server.SDel? then Joins(st, st.server.first, st.server.d)
      else None
    case Broadcaster => if st.bcast.BLock? then st.lock else None
    case Stopper =>
      if st.stopper.MJoin? && st.server != SDone then Some(Server)
      else if st.stopper.MLock? then st.lock
      else if st.stopper.MDel? then Joins(st, At(st.list, st.stopper.i), st.stopper.d)
      else None
    case Own(_) => None
  }

  function Rank(st: State, a: Actor): nat {
    match a
    case Own(_) => 0
    case Server => if st.server.SLock? || st.server.SCleanLock? then 2 else 1
    case Broadcaster => if st.bcast.BLock? then 2 else 1
    case Stopper => if st.stopper.MJoin? then 3 else if st.stopper.MLock? then 2 else 1
  }

  /** Every wait, for the mutex or for a thread to end, goes down in rank and to a thread that has
      not ended: the wait-for graph has no cycle. */
  lemma WaitsGoDown(st: State, a: Actor)
    requires Inv(st) && Blocker(st, a).Some?
    ensures var b := Blocker(st, a).value; Rank(st, b) < Rank(st, a) && !Ended(st, b)
  {
    match a
    case Server =>
      if st.server.SDel? {
        ServerAt(st);
        assert SessInv(st, st.server.first);
      }
    case Stopper =>
      if st.stopper.MDel? {
        StopAt(st);
        assert SessInv(st, At(st.list, st.stopper.i));
      }
    case _ =>
  }

  /** The end of the chain of waits that starts at `a`. */
  ghost function Root(st: State, a: Actor): Actor
    requires Inv(st)
    decreases Rank(st, a)
  {
    if Blocker(st, a).None? then a
    else
      WaitsGoDown(st, a);
      Root(st, Blocker(st, a).value)
  }

  /** A session whose thread is being joined has lost its socket and its running flag. */
  lemma JoinedIsDown(st: State, a: Actor)
    requires Inv(st) && Blocker(st, a).Some? && Blocker(st, a).value.Own?
    ensures Down(st, Blocker(st, a).value.s) && SessionEnabled(st, Blocker(st, a).value.s)
  {
    match a
    case Server => if st.server.SDel? { ServerAt(st); assert SessInv(st, st.server.first); }
    case Stopper => if st.stopper.MDel? { StopAt(st); assert SessInv(st, At(st.list, st.stopper.i)); }
    case _ =>
  }

  // ---------- calls that block ----------

  // The library calls in which a thread may be held up by a peer.
  datatype Call =
    | Upgrade           // http::read and the handshake of a connection that has no session yet
    | Reading(s: Sid)   // socket.read
    | Writing(s: Sid)   // socket.write
    | Handshake(s: Sid) // socket.close(code)
    | Teardown(s: Sid)  // websocket::teardown, which reads until the peer has closed its end

  function Closes(c: ClosePc, s: Sid): Option<Call> {
    if c == CodeSocket then Some(Handshake(s)) else if c == Tear then Some(Teardown(s)) else None
  }

  /** The call `a` stands in. */
  function CallOf(st: State, a: Actor): Option<Call> {
    match a
    case Server =>
      if st.server == SUpgrade then Some(Upgrade)
      else if st.server.SDel? && st.server.d.DelClose? then Closes(st.server.d.c, st.server.first)
      else None
    case Broadcaster =>
      if st.bcast.BWrite? then Some(Writing(At(st.list, st.bcast.i)))
      else if st.bcast.BClose? then Closes(st.bcast.c, At(st.list, st.bcast.i))
      else None
    case Stopper =>
      if st.stopper.MClose? then Closes(st.stopper.c, At(st.list, st.stopper.i))
      else if st.stopper.MDel? && st.stopper.d.DelClose? then Closes(st.stopper.d.c, At(st.list, st.stopper.i))
      else None
    case Own(s) =>
      if Get(st, s).pc == Read then Some(Reading(s))
      else if Get(st, s).pc.Close? then Closes(Get(st, s).pc.c, s)
      else None
  }

  /** A call on a session's socket returns once the socket was torn down; otherwise it is for the peers:
      the calls in `silent` get no answer. */
  predicate Held(st: State, call: Call, silent: set<Call>) {
    call in silent && (call == Upgrade || !Get(st, call.s).torn)
  }

  predicate Stuck(st: State, a: Actor, silent: set<Call>) {
    CallOf(st, a).Some? && Held(st, CallOf(st, a).value, silent)
  }

  function ActorOf(step: Step): Actor {
    match step
    case RunStep => Stopper
    case ServerStep(_) => Server
    case BcastStep(_) => Broadcaster
    case StopStep => Stopper
    case SessionStep(s, _) => Own(s)
  }

  function StepOf(a: Actor): Step {
    match a
    case Server => ServerStep(None)
    case Broadcaster => BcastStep(Sent)
    case Stopper => StopStep
    case Own(s) => SessionStep(s, Got)
  }

  /** `a` has a step, and no peer holds it up. */
  predicate Moves(st: State, a: Actor, silent: set<Call>) {
    Enabled(st, StepOf(a)) && !Stuck(st, a, silent)
  }

  /** The calls in which a thread others wait for can be held up: the server thread with a connection
      whose client sends no request; inside the mutex the broadcaster with a session whose peer takes no
      data, does not answer the closing handshake or does not close its end, and the stopping thread with
      one whose peer does not close its end. */
  predicate HoldsOthersUp(st: State, b: Actor, silent: set<Call>) {
    || (b == Server && st.server == SUpgrade && Upgrade in silent)
    || (&& b == Broadcaster && st.lock == Some(Broadcaster) && CallOf(st, b).Some?
        && !CallOf(st, b).value.Upgrade? && !CallOf(st, b).value.Reading? && Stuck(st, b, silent))
    || (&& b == Stopper && st.lock == Some(Stopper) && CallOf(st, b).Some?
        && CallOf(st, b).value.Teardown? && Stuck(st, b, silent))
  }

  /** The stopping thread only ever waits for a teardown, inside the mutex. */
  lemma StopperCalls(st: State)
    requires Inv(st) && CallOf(st, Stopper).Some?
    ensures CallOf(st, Stopper).value.Teardown? && st.lock == Some(Stopper)
  {
    StopAt(st);
  }

  /** Whatever the peers do, at the end of a chain of waits stands a thread that moves, unless a peer holds
      it up; and if anybody waits for that thread, then exactly in one of these places. */
  lemma {:induction false} RootMoves(st: State, a: Actor, silent: set<Call>)
    requires Inv(st) && !Ended(st, a)
    ensures var b := Root(st, a);
      && !Ended(st, b)
      && (Moves(st, b, silent) <==> !Stuck(st, b, silent))
      && (b != a ==> (Stuck(st, b, silent) <==> HoldsOthersUp(st, b, silent)))
    decreases Rank(st, a)
  {
    if Blocker(st, a).Some? {
      WaitsGoDown(st, a);
      var b := Blocker(st, a).value;
      RootMoves(st, b, silent);
      if Blocker(st, b).None? {
        WaitedFor(st, a, silent);
      }
    } else {
      Unblocked(st, a);
    }
  }

  lemma Unblocked(st: State, a: Actor)
    requires Inv(st) && !Ended(st, a) && Blocker(st, a).None?
    ensures Enabled(st, StepOf(a))
  {
  }

  lemma WaitedFor(st: State, a: Actor, silent: set<Call>)
    requires Inv(st) && Blocker(st, a).Some? && Blocker(st, Blocker(st, a).value).None?
    ensures Stuck(st, Blocker(st, a).value, silent) <==> HoldsOthersUp(st, Blocker(st, a).value, silent)
  {
    var b := Blocker(st, a).value;
    match b
    case Own(s) => JoinedIsDown(st, a);
    case Server => if st.server.SDel? { ServerAt(st); }
    case Stopper => if StopTouches(st.stopper) { StopAt(st); }
    case Broadcaster =>
  }

  /** No reachable state of the protocol is stuck, but for these calls. */
  lemma DeadlockFree(tr: seq<State>, steps: seq<Step>, i: nat, a: Actor, silent: set<Call>)
    requires Run(tr, steps) && i < |tr| && !Ended(tr[i], a)
    ensures Inv(tr[i])
    ensures var b := Root(tr[i], a);
      && !Ended(tr[i], b)
      && (Moves(tr[i], b, silent) || (if b == a then Stuck(tr[i], b, silent) else HoldsOthersUp(tr[i], b, silent)))
  {
    RunKeepsInv(tr, steps, i);
    RootMoves(tr[i], a, silent);
  }

  /** A continuation in which the calls in `silent` get no answer. */
  ghost predicate Quietly(st: State, tr: seq<State>, steps: seq<Step>, silent: set<Call>) {
    && |tr| == |steps| + 1 && tr[0] == st
    && forall i :: 0 <= i < |steps| ==>
         && Enabled(tr[i], steps[i]) && !Stuck(tr[i], ActorOf(steps[i]), silent)
         && tr[i + 1] == Do(tr[i], steps[i])
  }

  /** A client that connects and sends nothing keeps Server::stop waiting as long as it likes. */
  lemma {:induction false} SilentClientHoldsStop(st: State, tr: seq<State>, steps: seq<Step>, silent: set<Call>, j: nat)
    requires Quietly(st, tr, steps, silent) && j < |tr|
    requires st.server == SUpgrade && st.stopper == MJoin && Upgrade in silent
    ensures tr[j].server == SUpgrade && tr[j].stopper == MJoin
  {
    if j > 0 {
      SilentClientHoldsStop(st, tr, steps, silent, j - 1);
      UpgradeStaysHeld(tr[j - 1], steps[j - 1], silent);
    }
  }

  lemma UpgradeStaysHeld(st: State, step: Step, silent: set<Call>)
    requires Enabled(st, step) && !Stuck(st, ActorOf(step), silent)
    requires st.server == SUpgrade && st.stopper == MJoin && Upgrade in silent
    ensures Do(st, step).server == SUpgrade && Do(st, step).stopper == MJoin
  {
  }

  /** The broadcaster writes to `s`, whose peer neither reads nor sends, while the stopping thread waits
      for the mutex. */
  predicate WriteHeld(st: State, s: Sid) {
    && st.server == SDone && st.stopper == MLock && st.lock == Some(Broadcaster)
    && st.bcast.BWrite? && At(st.list, st.bcast.i) == s
    && Get(st, s).pc == Read && !Get(st, s).torn
  }

  /** A peer that takes no data keeps it waiting, too. */
  lemma {:induction false} StalledPeerHoldsStop(st: State, tr: seq<State>, steps: seq<Step>, silent: set<Call>,
                                                j: nat, s: Sid)
    requires Quietly(st, tr, steps, silent) && j < |tr|
    requires WriteHeld(st, s) && Writing(s) in silent && Reading(s) in silent
    ensures WriteHeld(tr[j], s)
  {
    if j > 0 {
      StalledPeerHoldsStop(st, tr, steps, silent, j - 1, s);
      WriteStaysHeld(tr[j - 1], steps[j - 1], silent, s);
    }
  }

  lemma WriteStaysHeld(st: State, step: Step, silent: set<Call>, s: Sid)
    requires Enabled(st, step) && !Stuck(st, ActorOf(step), silent)
    requires WriteHeld(st, s) && Writing(s) in silent && Reading(s) in silent
    ensures WriteHeld(Do(st, step), s)
  {
  }

  /** The stopping thread tears `s` down, whose peer neither sends nor closes its end. */
  predicate TearHeld(st: State, s: Sid) {
    && st.server == SDone && st.lock == Some(Stopper) && (st.bcast == BIdle || st.bcast == BLock)
    && st.stopper.MClose? && st.stopper.c == Tear && At(st.list, st.stopper.i) == s
    && Get(st, s).pc == Read && !Get(st, s).torn
  }

  /** A peer that keeps its end open keeps Server::stop, and the mutex, as well. */
  lemma {:induction false} OpenPeerHoldsStop(st: State, tr: seq<State>, steps: seq<Step>, silent: set<Call>,
                                             j: nat, s: Sid)
    requires Quietly(st, tr, steps, silent) && j < |tr|
    requires TearHeld(st, s) && Teardown(s) in silent && Reading(s) in silent
    ensures TearHeld(tr[j], s)
  {
    if j > 0 {
      OpenPeerHoldsStop(st, tr, steps, silent, j - 1, s);
      TearStaysHeld(tr[j - 1], steps[j - 1], silent, s);
    }
  }

  lemma TearStaysHeld(st: State, step: Step, silent: set<Call>, s: Sid)
    requires Enabled(st, step) && !Stuck(st, ActorOf(step), silent)
    requires TearHeld(st, s) && Teardown(s) in silent && Reading(s) in silent
    ensures TearHeld(Do(st, step), s)
  {
  }

  // ---------- how many steps a stop takes ----------

  /** How many steps `a` takes from the i-th to before the j-th. */
  function Taken(steps: seq<Step>, i: nat, j: nat, a: Actor): nat
    requires i <= j <= |steps|
    decreases j
  {
    if i == j then 0 else Taken(steps, i, j - 1, a) + if ActorOf(steps[j - 1]) == a then 1 else 0
  }

  function CloseLeft(c: ClosePc): nat {
    match c
    case CodeCheck => 7 case CodeMark => 6 case CodeSocket => 5
    case Check => 4 case Mark => 3 case Tear => 2 case Finish => 1 case Halt => 0
  }

  /** How many steps a session's thread has left once it was told to stop. */
  function ThreadLeft(x: Session): nat {
    match x.pc
    case Unstarted => 0
    case Done => 0
    case Head => 1
    case Test => 2
    case Notify(coded) => 11
    case Close(c) => 2 + CloseLeft(c)
    case Read => 12
  }

  /** A session that was told to stop, and whose socket is gone. */
  predicate Down(st: State, s: Sid) {
    s in st.sess && st.sess[s].torn && !st.sess[s].running && Closish(st.sess[s]) && st.sess[s].pc != Unstarted
  }

  /** Its thread comes nearer to its end with each step, nobody else moves it, and down is down. */
  lemma DownNearsItsEnd(st: State, step: Step, s: Sid)
    requires Inv(st) && Enabled(st, step) && Down(st, s)
    ensures Down(Do(st, step), s)
    ensures if ActorOf(step) == Own(s) then ThreadLeft(Get(Do(st, step), s)) < ThreadLeft(Get(st, s))
            else Get(Do(st, step), s).pc == Get(st, s).pc
  {
    if !step.SessionStep? {
      PcStays(st, step, s);
      DownStays(st, step, s);
    }
  }

  lemma DownStep(tr: seq<State>, steps: seq<Step>, k: nat, s: Sid)
    requires Run(tr, steps) && k < |steps| && Down(tr[k], s)
    ensures Down(tr[k + 1], s)
    ensures var before, after := ThreadLeft(Get(tr[k], s)), ThreadLeft(Get(tr[k + 1], s));
      if ActorOf(steps[k]) == Own(s) then after < before else after == before
  {
    RunKeepsInv(tr, steps, k);
    assert Stepped(tr, steps, k);
    DownNearsItsEnd(tr[k], steps[k], s);
  }

  lemma DownStays(st: State, step: Step, s: Sid)
    requires Inv(st) && Enabled(st, step) && Down(st, s) && !step.SessionStep?
    ensures Down(Do(st, step), s)
  {
    assert SessInv(st, s);
    match step
    case RunStep =>
    case ServerStep(accepted) =>
      ServerDownStays(st, accepted, s);
    case BcastStep(wrote) =>
      if BcastTouches(st.bcast) && At(st.list, st.bcast.i) == s {
        BcastFollows(st.bcast, st.sess[s], wrote);
      }
    case StopStep =>
      if StopTouches(st.stopper) && At(st.list, st.stopper.i) == s {
        StopAt(st);
        StopFollows(st.stopper, st.sess[s]);
      }
  }

  lemma ServerDownStays(st: State, accepted: Option<Sid>, s: Sid)
    requires Inv(st) && ServerEnabled(st, accepted) && Down(st, s)
    ensures Down(ServerDo(st, accepted), s)
  {
    assert SessInv(st, s);
    if ServerTouches(st.server) && ServerTarget(st.server, st.list) == s {
      ServerAt(st);
      ServerFollows(st.server, s, st.sess[s]);
    }
  }

  /** From then on its thread takes at most ThreadLeft steps, whatever the schedule, so a join of it
      returns. */
  lemma {:induction false} JoinIsBounded(tr: seq<State>, steps: seq<Step>, i: nat, j: nat, s: Sid)
    requires Run(tr, steps) && i <= j < |tr| && Down(tr[i], s)
    ensures Down(tr[j], s)
    ensures Taken(steps, i, j, Own(s)) + ThreadLeft(Get(tr[j], s)) <= ThreadLeft(Get(tr[i], s))
    decreases j
  {
    if i < j {
      JoinIsBounded(tr, steps, i, j - 1, s);
      DownStep(tr, steps, j - 1, s);
    }
  }

  /** Only its own thread moves a session's thread, once started. */
  lemma PcStays(st: State, step: Step, s: Sid)
    requires Inv(st) && Enabled(st, step) && s in st.sess && st.sess[s].pc != Unstarted && !step.SessionStep?
    ensures Get(Do(st, step), s).pc == st.sess[s].pc
  {
    assert SessInv(st, s);
    match step
    case RunStep =>
    case ServerStep(accepted) => ServerKeepsPc(st, accepted, s);
    case BcastStep(wrote) => BcastKeepsPc(st, wrote, s);
    case StopStep => StopKeepsPc(st, s);
  }

  lemma ServerKeepsPc(st: State, accepted: Option<Sid>, s: Sid)
    requires s in st.sess && ServerEnabled(st, accepted) && (st.server.SSpawn? ==> st.server.s != s)
    ensures Get(ServerDo(st, accepted), s).pc == st.sess[s].pc
  {
    if ServerTouches(st.server) {
      ServerMovePc(st.server, s, st.sess[s]);
    }
  }

  lemma ServerMovePc(p: ServerPc, s: Sid, x: Session)
    requires ServerTouches(p)
    ensures !p.SSpawn? ==> ServerMove(p, s, x).0.pc == x.pc
  {
  }

  lemma BcastKeepsPc(st: State, wrote: WriteResult, s: Sid)
    requires s in st.sess
    ensures Get(BcastDo(st, wrote), s).pc == st.sess[s].pc
  {
    if BcastTouches(st.bcast) {
      assert BcastMove(st.bcast, st.sess[s], wrote).0.pc == st.sess[s].pc;
    }
  }

  lemma StopKeepsPc(st: State, s: Sid)
    requires s in st.sess
    ensures Get(StopDo(st), s).pc == st.sess[s].pc
  {
    if StopTouches(st.stopper) {
      assert StopMove(st.stopper, st.sess[s]).0.pc == st.sess[s].pc;
    }
  }

  function DelLeft(d: DelPc): nat {
    match d
    case DelCheck => 9
    case DelClose(c) => 4 + CloseLeft(c)
    case DelStop => 3
    case DelJoin => 2
    case DelBase => 1
    case DelFree => 0
  }

  /** How many steps the server thread has left once its running flag was cleared. */
  function ServerLeft(p: ServerPc, n: nat): nat {
    match p
    case SNew => 0
    case SDone => 0
    case SHead => 1
    case SFree(doomed) => 2 + 20 * |doomed|
    case SDel(_, rest, d) => 3 + 20 * |rest| + DelLeft(d)
    case SCleanUnlock(doomed) => 3 + 20 * |doomed|
    case SScan(i, _, doomed) => 4 + 20 * |doomed| + 30 * (if i <= n then n - i else 0)
    case SJudge(i, _, doomed) => 3 + 20 * |doomed| + 30 * (if i <= n then n - i else 0)
    case SCleanLock => 5 + 30 * n
    case SCleanTest => 2
    case SConnect(_) => 3
    case SSpawn(_) => 4
    case SRun(_) => 5
    case SOpen(_) => 6
    case SUnlock(_) => 7
    case SPush(_) => 8
    case SLock(_) => 9
    case SUpgrade => 10
    case SAccept => 11
  }

  /** After Server::stop cleared `running`, every step of the server thread brings its end nearer, and
      no other thread changes how far it is. */
  lemma ServerNearsItsEnd(st: State, step: Step)
    requires Inv(st) && Enabled(st, step) && st.stopper == MJoin
    ensures var before, after := ServerLeft(st.server, |st.list|), ServerLeft(Do(st, step).server, |Do(st, step).list|);
      if step.ServerStep? then after < before else after == before
  {
    match step
    case ServerStep(accepted) =>
      if ServerTouches(st.server) {
        ServerAt(st);
        var s := ServerTarget(st.server, st.list);
        ServerMoveLeft(st.server, s, Get(st, s), |st.list|);
      } else {
        ServerPassLeft(st, accepted);
      }
    case _ =>
  }

  lemma ServerMoveLeft(p: ServerPc, s: Sid, x: Session, n: nat)
    requires ServerTouches(p) && (p.SJudge? ==> p.i < n)
    ensures ServerLeft(ServerMove(p, s, x).1, n) < ServerLeft(p, n)
  {
  }

  lemma ServerPassLeft(st: State, accepted: Option<Sid>)
    requires !ServerTouches(st.server) && st.server != SDone && st.server != SNew && !st.running
    requires st.server.SScan? ==> st.server.i <= |st.list|
    ensures var st2 := ServerPass(st, accepted); ServerLeft(st2.server, |st2.list|) < ServerLeft(st.server, |st.list|)
  {
  }

  lemma ServerJoinStep(tr: seq<State>, steps: seq<Step>, k: nat)
    requires Run(tr, steps) && k < |steps| && tr[k].stopper == MJoin
    ensures var before, after := ServerLeft(tr[k].server, |tr[k].list|), ServerLeft(tr[k + 1].server, |tr[k + 1].list|);
      if ActorOf(steps[k]) == Server then after < before else after == before
  {
    RunKeepsInv(tr, steps, k);
    assert Stepped(tr, steps, k);
    ServerNearsItsEnd(tr[k], steps[k]);
  }

  /** So while stop waits for it, it takes at most ServerLeft steps. */
  lemma {:induction false} ServerJoinIsBounded(tr: seq<State>, steps: seq<Step>, i: nat, j: nat)
    requires Run(tr, steps) && i <= j < |tr| && tr[i].stopper == MJoin && tr[j].stopper == MJoin
    ensures Taken(steps, i, j, Server) + ServerLeft(tr[j].server, |tr[j].list|)
         <= ServerLeft(tr[i].server, |tr[i].list|)
    decreases j
  {
    if i < j {
      StaysPastClear(tr, steps, i, j - 1);
      PastClearStep(tr, steps, j - 1);
      ServerJoinIsBounded(tr, steps, i, j - 1);
      ServerJoinStep(tr, steps, j - 1);
    }
  }

  lemma {:induction false} StaysPastClear(tr: seq<State>, steps: seq<Step>, i: nat, j: nat)
    requires Run(tr, steps) && i <= j < |tr| && (tr[i].stopper == MJoin || StopJoined(tr[i].stopper))
    ensures tr[j].stopper == MJoin || StopJoined(tr[j].stopper)
    ensures StopJoined(tr[i].stopper) ==> StopJoined(tr[j].stopper)
    decreases j
  {
    if i < j {
      StaysPastClear(tr, steps, i, j - 1);
      PastClearStep(tr, steps, j - 1);
    }
  }

  lemma PastClearStep(tr: seq<State>, steps: seq<Step>, k: nat)
    requires Run(tr, steps) && k < |steps|
    ensures StopJoined(tr[k].stopper) ==> StopJoined(tr[k + 1].stopper)
    ensures tr[k].stopper == MJoin ==> tr[k + 1].stopper == MJoin || StopJoined(tr[k + 1].stopper)
  {
    assert Stepped(tr, steps, k);
  }

  /** How many steps the stopping thread has left once it has joined the server's thread and `n` sessions
      are listed. */
  function StopLeft(p: StopPc, n: nat): nat {
    var rest := (i: int) => 2 + 30 * (if i <= n then n - i else 0);
    match p
    case MLock => 3 + 30 * n
    case MNext(i) => rest(i)
    case MNotify(i) => rest(i + 1) + 20
    case MClose(i, c) => rest(i + 1) + 12 + CloseLeft(c)
    case MDel(i, d) => rest(i + 1) + 1 + DelLeft(d)
    case MUnlock => 1
    case _ => 0
  }

  lemma StopNearsItsEnd(st: State, step: Step)
    requires Inv(st) && Enabled(st, step) && StopJoined(st.stopper)
    ensures StopJoined(Do(st, step).stopper)
    ensures var before, after := StopLeft(st.stopper, |st.list|), StopLeft(Do(st, step).stopper, |Do(st, step).list|);
      if ActorOf(step) == Stopper then after < before else after == before
  {
    if step.StopStep? && StopTouches(st.stopper) {
      StopAt(st);
      StopMoveLeft(st.stopper, st.sess[st.list[st.stopper.i]], |st.list|);
    }
  }

  lemma StopMoveLeft(p: StopPc, x: Session, n: nat)
    requires StopTouches(p) && p.i < n
    ensures StopJoined(StopMove(p, x).1) && StopLeft(StopMove(p, x).1, n) < StopLeft(p, n)
  {
  }

  lemma StopStepLeft(tr: seq<State>, steps: seq<Step>, k: nat)
    requires Run(tr, steps) && k < |steps| && StopJoined(tr[k].stopper)
    ensures StopJoined(tr[k + 1].stopper)
    ensures var before, after := StopLeft(tr[k].stopper, |tr[k].list|), StopLeft(tr[k + 1].stopper, |tr[k + 1].list|);
      if ActorOf(steps[k]) == Stopper then after < before else after == before
  {
    RunKeepsInv(tr, steps, k);
    assert Stepped(tr, steps, k);
    StopNearsItsEnd(tr[k], steps[k]);
  }

  /** After the join Server::stop itself takes at most StopLeft steps, whatever the schedule; when it can
      take no more it has returned or it waits for the mutex or for a session's thread. */
  lemma {:induction false} StopIsBounded(tr: seq<State>, steps: seq<Step>, i: nat, j: nat)
    requires Run(tr, steps) && i <= j < |tr| && StopJoined(tr[i].stopper)
    ensures StopJoined(tr[j].stopper)
    ensures Taken(steps, i, j, Stopper) + StopLeft(tr[j].stopper, |tr[j].list|) <= StopLeft(tr[i].stopper, |tr[i].list|)
    ensures StopLeft(tr[j].stopper, |tr[j].list|) == 0 ==> tr[j].stopper == MDone
    decreases j
  {
    if i < j {
      StopIsBounded(tr, steps, i, j - 1);
      StopStepLeft(tr, steps, j - 1);
    }
  }

  // ---------- how long the broadcaster keeps the mutex ----------

  /** How many steps the broadcaster has left inside the mutex with `n` sessions listed. */
  function BcastLeft(p: BcastPc, n: nat): nat {
    match p
    case BLoop(i) => 2 + 20 * (if i <= n then n - i else 0)
    case BSend(i) => 13 + 20 * (if i < n then n - i - 1 else 0)
    case BWrite(i) => 12 + 20 * (if i < n then n - i - 1 else 0)
    case BNotify(i) => 11 + 20 * (if i < n then n - i - 1 else 0)
    case BClose(i, c) => 3 + CloseLeft(c) + 20 * (if i < n then n - i - 1 else 0)
    case BUnlock => 1
    case _ => 0
  }

  lemma BcastNearsItsEnd(st: State, step: Step)
    requires Inv(st) && Enabled(st, step) && BcastHolds(st.bcast)
    ensures var before, after := BcastLeft(st.bcast, |st.list|), BcastLeft(Do(st, step).bcast, |Do(st, step).list|);
      if ActorOf(step) == Broadcaster then after < before else after == before && Do(st, step).bcast == st.bcast
  {
    if step.BcastStep? && BcastTouches(st.bcast) {
      BcastMoveLeft(st.bcast, Get(st, At(st.list, st.bcast.i)), step.wrote, |st.list|);
    }
  }

  lemma BcastMoveLeft(p: BcastPc, x: Session, wrote: WriteResult, n: nat)
    requires BcastTouches(p) && p.i < n
    ensures BcastLeft(BcastMove(p, x, wrote).1, n) < BcastLeft(p, n)
  {
  }

  lemma BcastStepLeft(tr: seq<State>, steps: seq<Step>, k: nat)
    requires Run(tr, steps) && k < |steps| && BcastHolds(tr[k].bcast)
    ensures var before, after := BcastLeft(tr[k].bcast, |tr[k].list|), BcastLeft(tr[k + 1].bcast, |tr[k + 1].list|);
      if ActorOf(steps[k]) == Broadcaster then after < before else after == before
  {
    RunKeepsInv(tr, steps, k);
    assert Stepped(tr, steps, k);
    BcastNearsItsEnd(tr[k], steps[k]);
  }

  /** As long as the broadcaster has the mutex it takes at most BcastLeft steps. */
  lemma {:induction false} BcastIsBounded(tr: seq<State>, steps: seq<Step>, i: nat, j: nat)
    requires Run(tr, steps) && i <= j < |tr| && forall k :: i <= k < j ==> BcastHolds(tr[k].bcast)
    ensures Taken(steps, i, j, Broadcaster) + BcastLeft(tr[j].bcast, |tr[j].list|)
         <= BcastLeft(tr[i].bcast, |tr[i].list|)
    decreases j
  {
    if i < j {
      BcastIsBounded(tr, steps, i, j - 1);
      BcastStepLeft(tr, steps, j - 1);
    }
  }
}
