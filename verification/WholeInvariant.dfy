/** The two halves of the whole application never disagree, so what each half keeps holds of both. */
module WholeInvariant {
  import opened Wrappers
  import opened Whole
  import A = Streaming
  import AI = StreamingInvariant
  import S = SessionProtocol
  import SI = SessionInvariant
  import SS = SessionSteps

  predicate ServerTied(w: A.Workers, ses: S.State) {
    w.srv == ServerPhase(ses.server) && w.srvOn == ses.running
  }

  predicate CastTied(b: A.BcastPc, p: S.BcastPc) {
    AppCastPhase(b) == CastPhaseOf(p)
  }

  predicate LockTied(m: Option<A.Actor>, l: Option<S.Actor>) {
    m == Holder(l)
  }

  /** The server has been built, and run() not been called. */
  predicate Unrun(p: A.Ctl) {
    p.Build? || p == A.Launch(A.RunTask) || p == A.Launch(A.RunServer)
  }

  predicate StopTied(c: A.Ctrl, p: S.StopPc, s: S.ServerPc) {
    && (c.pc.StopServer? && c.server ==> c.pc.s == StopPhase(p))
    && (!c.pc.StopServer? && c.server ==> p == S.MTest)
    && (!c.server ==> p == S.MDone || p == S.MSkipped)
    && (Unrun(c.pc) && c.server ==> s == S.SNew)
  }

  predicate Tied(st: State) {
    && ServerTied(st.app.w, st.ses)
    && CastTied(st.app.w.bcast, st.ses.bcast)
    && LockTied(st.app.l.sessions, st.ses.lock)
    && StopTied(st.app.c, st.ses.stopper, st.ses.server)
  }

  ghost predicate Inv(st: State) {
    AI.Inv(st.app) && SI.Inv(st.ses) && Tied(st)
  }

  // ---------- the server thread ----------

  /** What a step of the server thread does to its place, and to the mutex. */
  ghost predicate SrvMoves(p: A.SrvPc, q: A.SrvPc, on: bool, some: bool, m: Option<A.Actor>, n: Option<A.Actor>) {
    if p == q then n == m
    else
      && p != A.SOff && q == A.SrvNext(p, on, some) && n == A.SrvSessions(p, m)
      && (p == A.SLock || p == A.SCleanLock ==> m == None)
  }

  /** What no step of the server thread does. */
  ghost predicate ServerLeaves(st: S.State, st2: S.State) {
    && st2.running == st.running && st2.bcast == st.bcast && st2.stopper == st.stopper
    && st.server != S.SNew && st2.server != S.SNew
  }

  lemma ServerMoves(st: S.State, accepted: Option<S.Sid>)
    requires SI.LockInv(st) && S.ServerEnabled(st, accepted)
    ensures var st2 := S.ServerDo(st, accepted);
      && ServerLeaves(st, st2)
      && SrvMoves(ServerPhase(st.server), ServerPhase(st2.server), st.running, accepted.Some?,
                  Holder(st.lock), Holder(st2.lock))
  {
    if S.ServerTouches(st.server) {
      var s := S.ServerTarget(st.server, st.list);
      TouchMoves(st.server, s, S.Get(st, s));
    } else {
      PassLeaves(st, accepted);
      if SI.ServerHolds(st.server) { PassMovesInside(st, accepted); } else { PassMovesOutside(st, accepted); }
    }
  }

  lemma TouchMoves(p: S.ServerPc, s: S.Sid, x: S.Session)
    requires S.ServerTouches(p)
    ensures var q := S.ServerMove(p, s, x).1; ServerPhase(q) == ServerPhase(p) && q != S.SNew
  {
  }

  lemma PassLeaves(st: S.State, accepted: Option<S.Sid>)
    requires S.ServerEnabled(st, accepted) && !S.ServerTouches(st.server)
    ensures ServerLeaves(st, S.ServerPass(st, accepted))
  {
  }

  lemma PassMovesInside(st: S.State, accepted: Option<S.Sid>)
    requires SI.LockInv(st) && !S.ServerTouches(st.server) && SI.ServerHolds(st.server)
    ensures var st2 := S.ServerPass(st, accepted);
      SrvMoves(ServerPhase(st.server), ServerPhase(st2.server), st.running, accepted.Some?,
                  Holder(st.lock), Holder(st2.lock))
  {
  }

  lemma PassMovesOutside(st: S.State, accepted: Option<S.Sid>)
    requires S.ServerEnabled(st, accepted) && !S.ServerTouches(st.server) && !SI.ServerHolds(st.server)
    ensures var st2 := S.ServerPass(st, accepted);
      SrvMoves(ServerPhase(st.server), ServerPhase(st2.server), st.running, accepted.Some?,
                  Holder(st.lock), Holder(st2.lock))
  {
  }

  lemma ServerKeepsInv(st: State, accepted: Option<S.Sid>)
    requires Inv(st) && ServerEnabled(st, accepted)
    ensures Inv(ServerDo(st, accepted))
  {
    SS.ServerKeepsInv(st.ses, accepted);
    ServerMoves(st.ses, accepted);
    var ses := S.ServerDo(st.ses, accepted);
    if ServerPhase(ses.server) != ServerPhase(st.ses.server) {
      AI.SrvKeepsInv(st.app, accepted.Some?);
    }
  }

  // ---------- the broadcaster ----------

  ghost predicate BcastLeaves(st: S.State, st2: S.State) {
    st2.running == st.running && st2.server == st.server && st2.stopper == st.stopper
  }

  lemma BcastMoves(st: S.State, wrote: S.WriteResult)
    requires SI.LockInv(st) && S.BcastEnabled(st)
    ensures var st2 := S.BcastDo(st, wrote);
      && BcastLeaves(st, st2)
      && match CastPhaseOf(st.bcast)
         case Outside => CastPhaseOf(st2.bcast) == Locking && st2.lock == st.lock
         case Locking => CastPhaseOf(st2.bcast) == Inside && st.lock == None && st2.lock == Some(S.Broadcaster)
         case Inside =>
           || (CastPhaseOf(st2.bcast) == Inside && st2.lock == st.lock)
           || (CastPhaseOf(st2.bcast) == Outside && st2.lock == None)
  {
    if S.BcastTouches(st.bcast) {
      SendMoves(st.bcast, S.Get(st, S.At(st.list, st.bcast.i)), wrote);
    }
  }

  lemma SendMoves(p: S.BcastPc, x: S.Session, wrote: S.WriteResult)
    requires S.BcastTouches(p)
    ensures CastPhaseOf(S.BcastMove(p, x, wrote).1) == Inside
  {
  }

  lemma BcastKeepsInv(st: State, wrote: S.WriteResult)
    requires Inv(st) && BcastEnabled(st)
    ensures Inv(BcastDo(st, wrote))
  {
    if AppCastPhase(st.app.w.bcast) == Outside {
      OutsideKeepsInv(st, wrote);
    } else {
      InsideKeepsInv(st, wrote);
    }
  }

  lemma OutsideKeepsInv(st: State, wrote: S.WriteResult)
    requires Inv(st) && BcastEnabled(st) && AppCastPhase(st.app.w.bcast) == Outside
    ensures Inv(BcastDo(st, wrote))
  {
    AI.BcastKeepsInv(st.app);
    if AppCastPhase(A.BcastDo(st.app).w.bcast) != Outside {
      SS.BcastKeepsInv(st.ses, wrote);
      BcastMoves(st.ses, wrote);
    }
  }

  lemma InsideKeepsInv(st: State, wrote: S.WriteResult)
    requires Inv(st) && BcastEnabled(st) && AppCastPhase(st.app.w.bcast) != Outside
    ensures Inv(BcastDo(st, wrote))
  {
    SS.BcastKeepsInv(st.ses, wrote);
    BcastMoves(st.ses, wrote);
    var ses := S.BcastDo(st.ses, wrote);
    if CastPhaseOf(ses.bcast) != CastPhaseOf(st.ses.bcast) {
      AI.BcastKeepsInv(st.app);
      InsideKeepsTied(st, ses);
    }
  }

  lemma InsideKeepsTied(st: State, ses: S.State)
    requires Tied(st) && AppCastPhase(st.app.w.bcast) != Outside && BcastLeaves(st.ses, ses)
    requires if CastPhaseOf(st.ses.bcast) == Locking
             then CastPhaseOf(ses.bcast) == Inside && ses.lock == Some(S.Broadcaster)
             else CastPhaseOf(ses.bcast) == Outside && ses.lock == None
    ensures Tied(State(A.BcastDo(st.app), ses))
  {
  }

  // ---------- the control thread inside Server::stop ----------

  ghost predicate StopLeaves(st: S.State, st2: S.State) {
    st2.server == st.server && st2.bcast == st.bcast
  }

  /** What a step of Server::stop does to its place, the server's flag, and the mutex. */
  ghost predicate StopMoves(st: S.State, st2: S.State) {
    var p, q := StopPhase(st.stopper), StopPhase(st2.stopper);
    if p == q then st2.running == st.running && st2.lock == st.lock
    else
      && st2.running == (p != A.SrvFlag && st.running)
      && (match p
          case SrvFlag => q == (if st.running then A.SrvJoin else A.DelServer) && st2.lock == st.lock
          case SrvJoin => q == A.SrvLock && st2.lock == st.lock && ServerPhase(st.server) == A.SOff
          case SrvLock => q == A.SrvClose && st.lock == None && st2.lock == Some(S.Stopper)
          case SrvClose => q == A.DelServer && st2.lock == None
          case DelServer => false)
  }

  lemma StopDoes(st: S.State)
    requires SI.RunInv(st) && S.StopEnabled(st)
    ensures StopLeaves(st, S.StopDo(st)) && StopMoves(st, S.StopDo(st))
  {
    if S.StopTouches(st.stopper) {
      DelMoves(st.stopper, S.Get(st, S.At(st.list, st.stopper.i)));
    }
  }

  lemma DelMoves(p: S.StopPc, x: S.Session)
    requires S.StopTouches(p)
    ensures StopPhase(S.StopMove(p, x).1) == StopPhase(p) == A.SrvClose
  {
  }

  /** What the control thread does in stopWs up to the deletion of the server. */
  lemma StopServerDoes(app: A.State, s: A.ServerPc, choice: A.Choice)
    requires app.c.pc == A.StopServer(s) && app.c.server && s != A.DelServer
    ensures var app2 := A.ControlDo(app, choice);
      && app2.c.pc == A.StopServer(match s
           case SrvFlag => if app.w.srvOn then A.SrvJoin else A.DelServer
           case SrvJoin => A.SrvLock
           case SrvLock => A.SrvClose
           case _ => A.DelServer)
      && app2.c.server
      && app2.w == app.w.(srvOn := s != A.SrvFlag && app.w.srvOn)
      && app2.l.sessions ==
           (if s == A.SrvLock then Some(A.Control) else if s == A.SrvClose then None else app.l.sessions)
  {
  }

  lemma StopKeepsInv(st: State, choice: A.Choice)
    requires Inv(st) && InStop(st.app.c) && S.StopEnabled(st.ses)
    ensures Inv(ControlDo(st, choice))
  {
    SS.StopKeepsInv(st.ses);
    StopDoes(st.ses);
    if StopPhase(S.StopDo(st.ses).stopper) != StopPhase(st.ses.stopper) {
      StopMayMove(st);
      AI.ControlKeepsInv(st.app, choice);
      StopKeepsTied(st, A.ControlDo(st.app, choice), choice);
    }
  }

  /** The stop leaves its phase only when Streaming's step is enabled. */
  lemma StopMayMove(st: State)
    requires Tied(st) && InStop(st.app.c) && StopMoves(st.ses, S.StopDo(st.ses))
    requires StopPhase(S.StopDo(st.ses).stopper) != StopPhase(st.ses.stopper)
    ensures A.ControlEnabled(st.app)
  {
  }

  lemma StopKeepsTied(st: State, app: A.State, choice: A.Choice)
    requires Tied(st) && AI.PartsInv(st.app.c) && InStop(st.app.c) && app == A.ControlDo(st.app, choice)
    requires StopMoves(st.ses, S.StopDo(st.ses)) && StopLeaves(st.ses, S.StopDo(st.ses))
    requires SI.RunInv(S.StopDo(st.ses))
    requires StopPhase(S.StopDo(st.ses).stopper) != StopPhase(st.ses.stopper)
    ensures Tied(State(app, S.StopDo(st.ses)))
  {
    StopServerDoes(st.app, st.app.c.pc.s, choice);
  }

  // ---------- the control thread elsewhere ----------

  /** Where it can go, as far as the server is concerned. */
  ghost predicate PcMoves(c: A.Ctrl, d: A.Ctrl, choice: A.Choice) {
    if c.pc == A.Build(A.NewServer) && choice != A.Fail then d.server && d.pc == A.Build(A.NewTask)
    else if c.pc == A.StopServer(A.DelServer) then !d.server && d.pc.StopTask?
    else
      && d.server == c.server
      && (d.pc.StopServer? ==> d.pc.s == A.SrvFlag)
      && (Unrun(d.pc) && c.server ==> Unrun(c.pc) && c.pc != A.Launch(A.RunServer))
  }

  lemma ElsewhereMoves(c: A.Ctrl, choice: A.Choice, srvOn: bool, empty: bool)
    requires AI.PartsInv(c) && !InStop(c)
    ensures PcMoves(c, A.CtrlNext(c, choice, srvOn, empty), choice)
  {
    match c.pc
    case Idle(i) => IdleMoves(c, i, choice);
    case Build(b) => BuildMoves(c, b, choice);
    case Launch(r) => LaunchMoves(c, r, choice);
    case StopVideo(v) => VideoMoves(c, v, choice);
    case StopServer(s) => ServerPcMoves(c, s, choice, srvOn);
    case StopTask(t) => TaskMoves(c, t, choice, empty);
  }

  lemma IdleMoves(c: A.Ctrl, i: A.IdlePc, choice: A.Choice)
    requires c.pc == A.Idle(i) && AI.PartsInv(c)
    ensures PcMoves(c, A.IdleNext(c, i, choice), choice)
  {
  }

  lemma BuildMoves(c: A.Ctrl, b: A.BuildPc, choice: A.Choice)
    requires c.pc == A.Build(b) && AI.PartsInv(c)
    ensures PcMoves(c, A.BuildNext(c, b, choice), choice)
  {
  }

  lemma LaunchMoves(c: A.Ctrl, r: A.LaunchPc, choice: A.Choice)
    requires c.pc == A.Launch(r) && AI.PartsInv(c)
    ensures PcMoves(c, A.LaunchNext(c, r), choice)
  {
  }

  lemma VideoMoves(c: A.Ctrl, v: A.VideoPc, choice: A.Choice)
    requires c.pc == A.StopVideo(v) && AI.PartsInv(c)
    ensures PcMoves(c, A.VideoNext(c, v), choice)
  {
  }

  lemma ServerPcMoves(c: A.Ctrl, s: A.ServerPc, choice: A.Choice, srvOn: bool)
    requires c.pc == A.StopServer(s) && AI.PartsInv(c) && !InStop(c)
    ensures PcMoves(c, A.ServerNext(c, s, srvOn), choice)
  {
  }

  lemma TaskMoves(c: A.Ctrl, t: A.TaskPc, choice: A.Choice, empty: bool)
    requires c.pc == A.StopTask(t) && AI.PartsInv(c)
    ensures PcMoves(c, A.TaskNext(c, t, empty), choice)
  {
  }

  /** What it does to the server's thread and flag, the broadcaster, and sessionsMtx. */
  lemma ElsewhereLeaves(app: A.State)
    requires AI.PartsInv(app.c) && AI.WorkersInv(app.c, app.w) && !InStop(app.c)
    ensures var w2 := A.CtrlWorkers(app.c, app.w);
      && AppCastPhase(w2.bcast) == AppCastPhase(app.w.bcast)
      && (w2.srv, w2.srvOn) == (if app.c.pc == A.Launch(A.RunServer) then (A.SHead, true) else (app.w.srv, app.w.srvOn))
    ensures A.CtrlLocks(app.c.pc, app.l).sessions == app.l.sessions
  {
    if app.c.pc.Launch? {
      RunLeaves(app.c, app.w, app.c.pc.r);
    }
  }

  lemma RunLeaves(c: A.Ctrl, w: A.Workers, r: A.LaunchPc)
    requires c.pc == A.Launch(r) && AI.WorkersInv(c, w)
    ensures var w2 := A.LaunchWorkers(r, w, c.output);
      && AppCastPhase(w2.bcast) == AppCastPhase(w.bcast)
      && (w2.srv, w2.srvOn) == (if r == A.RunServer then (A.SHead, true) else (w.srv, w.srvOn))
  {
  }

  /** Before a server is built nobody is left of the one before. */
  lemma NobodyLeft(app: A.State)
    requires AI.Inv(app) && app.c.pc == A.Build(A.NewServer)
    ensures app.w.srv == A.SOff && !app.w.srvOn && app.w.bcast == A.BOff && app.l.sessions == None
  {
  }

  lemma ElsewhereKeepsInv(st: State, choice: A.Choice)
    requires Inv(st) && !InStop(st.app.c) && A.ControlEnabled(st.app)
    ensures Inv(ControlDo(st, choice))
  {
    AI.ControlKeepsInv(st.app, choice);
    ElsewhereMoves(st.app.c, choice, st.app.w.srvOn, st.app.q.queue == []);
    ElsewhereLeaves(st.app);
    if st.app.c.pc == A.Build(A.NewServer) && choice != A.Fail {
      NobodyLeft(st.app);
      SS.InitInv(S.NEW_SERVER);
    } else if st.app.c.pc == A.Launch(A.RunServer) {
      RunServerKeepsInv(st, choice);
    }
  }

  lemma RunServerKeepsInv(st: State, choice: A.Choice)
    requires Inv(st) && st.app.c.pc == A.Launch(A.RunServer)
    ensures Inv(ControlDo(st, choice))
  {
    AI.ControlKeepsInv(st.app, choice);
    SS.RunStepKeepsInv(st.ses);
  }

  // ---------- every step ----------

  lemma MainKeepsInv(st: State, sigint: bool)
    requires Inv(st) && A.MainEnabled(st.app.c)
    ensures Inv(st.(app := A.Do(st.app, A.MainStep(sigint))))
  {
    AI.MainKeepsInv(st.app, sigint);
  }

  lemma StepKeepsInv(st: State, step: Step)
    requires Inv(st) && Enabled(st, step)
    ensures Inv(Do(st, step))
  {
    match step
    case MainStep(sigint) => MainKeepsInv(st, sigint);
    case ControlStep(choice) =>
      if InStop(st.app.c) { StopKeepsInv(st, choice); } else { ElsewhereKeepsInv(st, choice); }
    case DecStep(some) => AI.DecKeepsInv(st.app, some);
    case EncStep(frame, write) => AI.EncKeepsInv(st.app, frame, write);
    case BcastStep(wrote) => BcastKeepsInv(st, wrote);
    case ServerStep(accepted) => ServerKeepsInv(st, accepted);
    case OwnStep(s, read) => SS.SessionKeepsInv(st.ses, s, read);
  }

  lemma InitInv(st: State)
    requires Init(st)
    ensures Inv(st)
  {
    AI.InitInv(st.app);
    SS.InitInv(S.NEW_SERVER);
    SS.SkippedKeepsInv();
  }

  lemma {:induction false} RunKeepsInv(tr: seq<State>, steps: seq<Step>, i: nat)
    requires Run(tr, steps) && i < |tr|
    ensures Inv(tr[i])
  {
    if i == 0 {
      InitInv(tr[0]);
    } else {
      RunKeepsInv(tr, steps, i - 1);
      assert Stepped(tr, steps, i - 1);
      StepKeepsInv(tr[i - 1], steps[i - 1]);
    }
  }
}
