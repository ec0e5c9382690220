/** What holds of the whole application, with any number of sessions, under every schedule. */
module WholeTheorems {
  import opened Wrappers
  import opened Whole
  import opened WholeInvariant
  import A = Streaming
  import AI = StreamingInvariant
  import AT = StreamingTheorems
  import S = SessionProtocol
  import SI = SessionInvariant
  import SS = SessionSteps
  import P = SessionProgress
  import R = WholeRuns

  // ---------- who waits for whom ----------

  function FromApp(a: A.Actor): Actor {
    match a
    case Main => Main
    case Control => Control
    case Decoder => Decoder
    case Encoder => Encoder
    case Broadcaster => Broadcaster
    case ServerLoop => ServerLoop
  }

  function FromServer(a: S.Actor): Actor {
    match a
    case Server => ServerLoop
    case Broadcaster => Broadcaster
    case Stopper => Control
    case Own(s) => Own(s)
  }

  predicate Ended(st: State, a: Actor) {
    match a
    case Main => AT.Ended(st.app, A.Main)
    case Control => AT.Ended(st.app, A.Control)
    case Decoder => AT.Ended(st.app, A.Decoder)
    case Encoder => AT.Ended(st.app, A.Encoder)
    case Broadcaster => AT.Ended(st.app, A.Broadcaster)
    case ServerLoop => P.Ended(st.ses, S.Server)
    case Own(s) => P.Ended(st.ses, S.Own(s))
  }

  /** The thread acts inside the session protocol. */
  predicate InServer(st: State, a: Actor) {
    match a
    case Control => InStop(st.app.c)
    case Broadcaster => AppCastPhase(st.app.w.bcast) != Outside
    case ServerLoop => true
    case Own(_) => true
    case _ => false
  }

  function ServerSide(a: Actor): S.Actor
    requires !a.Main? && !a.Decoder? && !a.Encoder?
  {
    match a
    case Control => S.Stopper
    case Broadcaster => S.Broadcaster
    case ServerLoop => S.Server
    case Own(s) => S.Own(s)
  }

  function AppSide(a: Actor): A.Actor
    requires !a.Own?
  {
    match a
    case Main => A.Main
    case Control => A.Control
    case Decoder => A.Decoder
    case Encoder => A.Encoder
    case Broadcaster => A.Broadcaster
    case ServerLoop => A.ServerLoop
  }

  /** The thread that must move before `a` can. */
  function Blocker(st: State, a: Actor): Option<Actor> {
    if InServer(st, a) then
      match P.Blocker(st.ses, ServerSide(a))
      case None => None
      case Some(b) => Some(FromServer(b))
    else
      match AT.Blocker(st.app, AppSide(a))
      case None => None
      case Some(b) => Some(FromApp(b))
  }

  function Rank(st: State, a: Actor): nat {
    if InServer(st, a) then P.Rank(st.ses, ServerSide(a)) else AT.Rank(st.app, AppSide(a))
  }

  /** From a thread inside the protocol a wait goes to one inside it, of the same rank here and there. */
  lemma WaitsInServer(st: State, a: Actor)
    requires Inv(st) && InServer(st, a) && Blocker(st, a).Some?
    ensures var b := Blocker(st, a).value; Rank(st, b) < Rank(st, a) && !Ended(st, b)
  {
    P.WaitsGoDown(st.ses, ServerSide(a));
    SameRank(st, P.Blocker(st.ses, ServerSide(a)).value, ServerSide(a));
  }

  lemma SameRank(st: State, b: S.Actor, a: S.Actor)
    requires Inv(st) && P.Blocker(st.ses, a) == Some(b) && !P.Ended(st.ses, b)
    ensures Rank(st, FromServer(b)) == P.Rank(st.ses, b) && !Ended(st, FromServer(b))
  {
    match b
    case Server =>
    case Own(s) =>
    case Broadcaster => HolderInside(st);
    case Stopper => HolderInside(st);
  }

  /** Who holds sessionsMtx is inside the protocol. */
  lemma HolderInside(st: State)
    requires Inv(st)
    ensures st.ses.lock == Some(S.Broadcaster) ==> InServer(st, Broadcaster) && !Ended(st, Broadcaster)
    ensures st.ses.lock == Some(S.Stopper) ==> InServer(st, Control) && !Ended(st, Control)
  {
  }

  lemma WaitsInApp(st: State, a: Actor)
    requires Inv(st) && !InServer(st, a) && Blocker(st, a).Some?
    ensures var b := Blocker(st, a).value; Rank(st, b) < Rank(st, a) && !Ended(st, b)
  {
    AT.WaitsGoDown(st.app, AppSide(a));
    if a == Control { ControlWaits(st); } else { OthersWait(st, a); }
  }

  lemma ControlWaits(st: State)
    requires Inv(st) && !InServer(st, Control) && AT.Blocker(st.app, A.Control).Some?
    requires var b := AT.Blocker(st.app, A.Control).value;
             AT.Rank(st.app, b) < AT.Rank(st.app, A.Control) && !AT.Ended(st.app, b)
    ensures var b := FromApp(AT.Blocker(st.app, A.Control).value); Rank(st, b) < Rank(st, Control) && !Ended(st, b)
  {
    if AT.CtrlJoins(st.app.c.pc) { ControlJoins(st); } else { ControlLocks(st); }
  }

  lemma ControlJoins(st: State)
    requires AI.PartsInv(st.app.c) && !InServer(st, Control) && AT.CtrlJoins(st.app.c.pc)
    requires AT.Blocker(st.app, A.Control).Some? && !AT.Ended(st.app, AT.Blocker(st.app, A.Control).value)
    ensures var b := FromApp(AT.Blocker(st.app, A.Control).value); Rank(st, b) < Rank(st, Control) && !Ended(st, b)
  {
  }

  /** The control thread waits for the queue: whoever has it is outside the protocol. */
  lemma ControlLocks(st: State)
    requires AI.PartsInv(st.app.c) && AI.LocksInv(st.app.c.pc, st.app.w, st.app.l)
    requires !InServer(st, Control) && !AT.CtrlJoins(st.app.c.pc) && AT.Blocker(st.app, A.Control).Some?
    requires var b := AT.Blocker(st.app, A.Control).value;
             AT.Rank(st.app, b) < AT.Rank(st.app, A.Control) && !AT.Ended(st.app, b)
    ensures var b := FromApp(AT.Blocker(st.app, A.Control).value); Rank(st, b) < Rank(st, Control) && !Ended(st, b)
  {
  }

  lemma OthersWait(st: State, a: Actor)
    requires Inv(st) && !InServer(st, a) && a != Control && AT.Blocker(st.app, AppSide(a)).Some?
    requires var b := AT.Blocker(st.app, AppSide(a)).value;
             AT.Rank(st.app, b) < AT.Rank(st.app, AppSide(a)) && !AT.Ended(st.app, b)
    ensures var b := FromApp(AT.Blocker(st.app, AppSide(a)).value); Rank(st, b) < Rank(st, a) && !Ended(st, b)
  {
    if a == Main { MainWaits(st); } else { WorkersWait(st, a); }
  }

  lemma MainWaits(st: State)
    requires AT.Blocker(st.app, A.Main).Some? && !AT.Ended(st.app, AT.Blocker(st.app, A.Main).value)
    ensures var b := FromApp(AT.Blocker(st.app, A.Main).value); Rank(st, b) < Rank(st, Main) && !Ended(st, b)
  {
  }

  /** The decoder and the encoder, and the broadcaster outside the protocol, wait for somebody who is
      outside as well. */
  lemma WorkersWait(st: State, a: Actor)
    requires AI.LocksInv(st.app.c.pc, st.app.w, st.app.l) && (a == Decoder || a == Encoder || a == Broadcaster)
    requires !InServer(st, a) && AT.Blocker(st.app, AppSide(a)).Some?
    requires var b := AT.Blocker(st.app, AppSide(a)).value;
             AT.Rank(st.app, b) < AT.Rank(st.app, AppSide(a)) && !AT.Ended(st.app, b)
    ensures var b := FromApp(AT.Blocker(st.app, AppSide(a)).value); Rank(st, b) < Rank(st, a) && !Ended(st, b)
  {
    var b := AT.Blocker(st.app, AppSide(a)).value;
    assert !InServer(st, FromApp(b));
  }

  /** Every wait of any thread of the application, sessions included, for any of the mutexes or for a
      thread's end, goes to a thread of lower rank that has not ended: the wait-for graph has no cycle. */
  lemma WaitsGoDown(st: State, a: Actor)
    requires Inv(st) && Blocker(st, a).Some?
    ensures var b := Blocker(st, a).value; Rank(st, b) < Rank(st, a) && !Ended(st, b)
  {
    if InServer(st, a) { WaitsInServer(st, a); } else { WaitsInApp(st, a); }
  }

  /** The end of the chain of waits that starts at `a`. */
  ghost function Root(st: State, a: Actor): Actor
    requires Inv(st)
    decreases Rank(st, a)
  {
    if Blocker(st, a).None? then a
    else
      WaitsGoDown(st, a);
      Root(st, Blocker(st, a).value)
  }

  // ---------- deadlock ----------

  // The calls in which a thread may be held up from outside.
  datatype Call = Camera | Peer(call: P.Call)

  /** The call `a` stands in. */
  function CallOf(st: State, a: Actor): Option<Call> {
    if a == Decoder && st.app.w.dec == A.DRead then Some(Camera)
    else if InServer(st, a) then
      match P.CallOf(st.ses, ServerSide(a))
      case None => None
      case Some(call) => Some(Peer(call))
    else None
  }

  /** The calls in `silent` get no answer; on a socket that was torn down every call returns. */
  predicate Stuck(st: State, a: Actor, silent: set<Call>) {
    match CallOf(st, a)
    case None => false
    case Some(Camera) => Camera in silent
    case Some(Peer(call)) => Peer(call) in silent && (call == P.Upgrade || !S.Get(st.ses, call.s).torn)
  }

  function StepOf(a: Actor): Step {
    match a
    case Main => MainStep(false)
    case Control => ControlStep(A.Ok)
    case Decoder => DecStep(false)
    case Encoder => EncStep(false, None)
    case Broadcaster => BcastStep(S.Sent)
    case ServerLoop => ServerStep(None)
    case Own(s) => OwnStep(s, S.Got)
  }

  predicate Moves(st: State, a: Actor, silent: set<Call>) {
    Enabled(st, StepOf(a)) && !Stuck(st, a, silent)
  }

  /** The only calls in which a thread that others wait for can be held up: the decoder's read from the
      camera; the server thread's read of a new client's request; under sessionsMtx, with a session whose
      socket is up, the broadcaster's write, closing handshake or teardown, and the stopping thread's
      teardown. */
  predicate HoldsOthersUp(st: State, b: Actor, silent: set<Call>) {
    || (b == Decoder && st.app.w.dec == A.DRead && Camera in silent)
    || (b == ServerLoop && st.ses.server == S.SUpgrade && Peer(P.Upgrade) in silent)
    || (&& b == Broadcaster && st.app.l.sessions == Some(A.Broadcaster)
        && OnSocket(st, b, silent) && !CallOf(st, b).value.call.Reading?)
    || (&& b == Control && st.app.l.sessions == Some(A.Control)
        && OnSocket(st, b, silent) && CallOf(st, b).value.call.Teardown?)
  }

  /** `b` is in an unanswered call on the socket, not torn down, of some session. */
  predicate OnSocket(st: State, b: Actor, silent: set<Call>) {
    && CallOf(st, b).Some? && CallOf(st, b).value.Peer? && !CallOf(st, b).value.call.Upgrade?
    && CallOf(st, b).value in silent && !S.Get(st.ses, CallOf(st, b).value.call.s).torn
  }

  lemma Unblocked(st: State, a: Actor)
    requires Inv(st) && !Ended(st, a) && Blocker(st, a).None?
    ensures Enabled(st, StepOf(a))
  {
    if InServer(st, a) { UnblockedInServer(st, a); } else { UnblockedInApp(st, a); }
  }

  lemma UnblockedInServer(st: State, a: Actor)
    requires Inv(st) && InServer(st, a) && !Ended(st, a) && P.Blocker(st.ses, ServerSide(a)).None?
    ensures Enabled(st, StepOf(a))
  {
    P.Unblocked(st.ses, ServerSide(a));
  }

  lemma UnblockedInApp(st: State, a: Actor)
    requires Inv(st) && !InServer(st, a) && !Ended(st, a) && AT.Blocker(st.app, AppSide(a)).None?
    ensures Enabled(st, StepOf(a))
  {
  }

  /** A thread somebody waits for and that waits for nobody itself. */
  lemma WaitedFor(st: State, a: Actor, silent: set<Call>)
    requires Inv(st) && Blocker(st, a).Some?
    ensures Stuck(st, Blocker(st, a).value, silent) <==> HoldsOthersUp(st, Blocker(st, a).value, silent)
  {
    var b := Blocker(st, a).value;
    match b
    case Own(s) => OwnWaited(st, a, s); WaitedOwn(st, ServerSide(a), s, silent);
    case Control => WaitedControl(st, silent);
    case ServerLoop => WaitedServer(st, silent);
    case Broadcaster => WaitedBroadcaster(st, silent);
    case _ => WaitedMedia(st, b, silent);
  }

  lemma OwnWaited(st: State, a: Actor, s: S.Sid)
    requires Blocker(st, a) == Some(Own(s))
    ensures InServer(st, a) && P.Blocker(st.ses, ServerSide(a)) == Some(S.Own(s))
  {
  }

  lemma WaitedMedia(st: State, b: Actor, silent: set<Call>)
    requires b.Main? || b.Decoder? || b.Encoder?
    ensures Stuck(st, b, silent) <==> HoldsOthersUp(st, b, silent)
  {
  }

  lemma WaitedOwn(st: State, a: S.Actor, s: S.Sid, silent: set<Call>)
    requires SI.Inv(st.ses) && P.Blocker(st.ses, a) == Some(S.Own(s))
    ensures !Stuck(st, Own(s), silent)
  {
    P.JoinedIsDown(st.ses, a);
    DownIsFree(st, s, silent);
  }

  lemma DownIsFree(st: State, s: S.Sid, silent: set<Call>)
    requires P.Down(st.ses, s)
    ensures !Stuck(st, Own(s), silent)
  {
  }

  lemma WaitedControl(st: State, silent: set<Call>)
    requires Inv(st)
    ensures Stuck(st, Control, silent) <==> HoldsOthersUp(st, Control, silent)
  {
    if P.CallOf(st.ses, S.Stopper).Some? {
      P.StopperCalls(st.ses);
    }
  }

  lemma WaitedServer(st: State, silent: set<Call>)
    requires Inv(st)
    ensures Stuck(st, ServerLoop, silent) <==> HoldsOthersUp(st, ServerLoop, silent)
  {
    if st.ses.server.SDel? {
      SS.ServerAt(st.ses);
    }
  }

  lemma WaitedBroadcaster(st: State, silent: set<Call>)
    requires Inv(st)
    ensures Stuck(st, Broadcaster, silent) <==> HoldsOthersUp(st, Broadcaster, silent)
  {
  }

  /** What there is to say about `b` at the end of the chain of waits from `a`. */
  predicate Ends(st: State, a: Actor, b: Actor, silent: set<Call>) {
    && !Ended(st, b)
    && (Moves(st, b, silent) <==> !Stuck(st, b, silent))
    && (b != a ==> (Stuck(st, b, silent) <==> HoldsOthersUp(st, b, silent)))
  }

  /** At the end of every chain of waits stands a thread that moves, whatever the camera and the peers do,
      unless it is in a call they hold up; and if anybody waits for it, exactly in one of these. */
  lemma {:induction false} RootMoves(st: State, a: Actor, silent: set<Call>)
    requires Inv(st) && !Ended(st, a)
    ensures Ends(st, a, Root(st, a), silent)
    decreases Rank(st, a)
  {
    if Blocker(st, a).Some? {
      WaitsGoDown(st, a);
      RootMoves(st, Blocker(st, a).value, silent);
      Waited(st, a, silent);
    } else {
      Unblocked(st, a);
    }
  }

  lemma Waited(st: State, a: Actor, silent: set<Call>)
    requires Inv(st) && Blocker(st, a).Some? && Ends(st, Blocker(st, a).value, Root(st, Blocker(st, a).value), silent)
    ensures Ends(st, a, Root(st, Blocker(st, a).value), silent)
  {
    WaitedFor(st, a, silent);
  }

  /** No reachable state of the application is stuck: behind every thread that has not ended, be it main,
      control, decoder, encoder, broadcaster, server or a session's, stands one that moves, or one held up
      from outside in one of these calls. */
  lemma DeadlockFree(tr: seq<State>, steps: seq<Step>, i: nat, a: Actor, silent: set<Call>)
    requires Run(tr, steps) && i < |tr| && !Ended(tr[i], a)
    ensures Inv(tr[i])
    ensures Ends(tr[i], a, Root(tr[i], a), silent)
  {
    RunKeepsInv(tr, steps, i);
    RootMoves(tr[i], a, silent);
  }

  // ---------- a stop that waits for ever ----------

  function ActorOf(step: Step): Actor {
    match step
    case MainStep(_) => Main
    case ControlStep(_) => Control
    case DecStep(_) => Decoder
    case EncStep(_, _) => Encoder
    case BcastStep(_) => Broadcaster
    case ServerStep(_) => ServerLoop
    case OwnStep(s, _) => Own(s)
  }

  /** The i-th step is not the return of a call that `silent` leaves unanswered. */
  predicate Unanswered(tr: seq<State>, steps: seq<Step>, silent: set<Call>, i: int)
    requires 0 <= i < |steps| && |tr| == |steps| + 1
  {
    !Stuck(tr[i], ActorOf(steps[i]), silent)
  }

  /** The control thread waits, in Server::stop, for a client that sends no request, for a peer that takes no
      data, or for one that keeps its end open. */
  predicate StopHeld(ses: S.State, s: S.Sid, silent: set<Call>) {
    || (ses.server == S.SUpgrade && ses.stopper == S.MJoin && Peer(P.Upgrade) in silent)
    || (P.WriteHeld(ses, s) && Peer(P.Writing(s)) in silent && Peer(P.Reading(s)) in silent)
    || (P.TearHeld(ses, s) && Peer(P.Teardown(s)) in silent && Peer(P.Reading(s)) in silent)
  }

  function Peers(silent: set<Call>): set<P.Call> {
    set c | c in silent && c.Peer? :: c.call
  }

  /** Nothing any thread of the application does ends such a wait as long as the call gets no answer: the
      stop command, or the process, stays where it is. */
  lemma {:induction false} StopStaysHeld(tr: seq<State>, steps: seq<Step>, silent: set<Call>, i: nat, j: nat, s: S.Sid)
    requires Run(tr, steps) && i <= j < |tr| && StopHeld(tr[i].ses, s, silent)
    requires forall k :: i <= k < j ==> Unanswered(tr, steps, silent, k)
    ensures StopHeld(tr[j].ses, s, silent)
    decreases j
  {
    if i < j {
      StopStaysHeld(tr, steps, silent, i, j - 1, s);
      HeldAt(tr, steps, silent, j - 1, s);
    }
  }

  lemma HeldAt(tr: seq<State>, steps: seq<Step>, silent: set<Call>, k: nat, s: S.Sid)
    requires Run(tr, steps) && k < |steps| && StopHeld(tr[k].ses, s, silent) && Unanswered(tr, steps, silent, k)
    ensures StopHeld(tr[k + 1].ses, s, silent)
  {
    RunKeepsInv(tr, steps, k);
    assert Stepped(tr, steps, k);
    HeldInStop(tr[k], s, silent);
    HeldStep(tr[k], steps[k], silent, s);
  }

  /** The thread that so waits is the control thread, in stopWs. */
  lemma HeldInStop(st: State, s: S.Sid, silent: set<Call>)
    requires Inv(st) && StopHeld(st.ses, s, silent)
    ensures InStop(st.app.c)
  {
  }

  lemma HeldStep(st: State, step: Step, silent: set<Call>, s: S.Sid)
    requires Inv(st) && Enabled(st, step) && !Stuck(st, ActorOf(step), silent)
    requires StopHeld(st.ses, s, silent) && InStop(st.app.c)
    ensures StopHeld(Do(st, step).ses, s, silent)
  {
    R.StepsServer(st, step);
    var one := R.SesStep(st, step);
    if one.Some? {
      NotStuck(st, step, silent, one.value);
      HeldServerStep(st.ses, one.value, silent, s);
    }
  }

  lemma NotStuck(st: State, step: Step, silent: set<Call>, one: S.Step)
    requires !Stuck(st, ActorOf(step), silent) && R.SesStep(st, step) == Some(one)
    requires InStop(st.app.c) && CastTied(st.app.w.bcast, st.ses.bcast)
    ensures !P.Stuck(st.ses, P.ActorOf(one), Peers(silent))
  {
    PeersIn(silent);
  }

  lemma PeersIn(silent: set<Call>)
    ensures forall c :: c in Peers(silent) ==> Peer(c) in silent
  {
  }

  lemma HeldServerStep(ses: S.State, one: S.Step, silent: set<Call>, s: S.Sid)
    requires S.Enabled(ses, one) && !P.Stuck(ses, P.ActorOf(one), Peers(silent))
    requires StopHeld(ses, s, silent)
    ensures StopHeld(S.Do(ses, one), s, silent)
  {
    if P.WriteHeld(ses, s) {
      P.WriteStaysHeld(ses, one, Peers(silent), s);
    } else if P.TearHeld(ses, s) {
      P.TearStaysHeld(ses, one, Peers(silent), s);
    } else {
      P.UpgradeStaysHeld(ses, one, Peers(silent));
    }
  }
}
