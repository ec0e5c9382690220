/** The whole application: the threads of Streaming, and in place of its single steps for the server's
    loop, a broadcast and Server::stop the steps of SessionProtocol, with one thread per session.

    The control thread is SessionProtocol's stopping thread. The protocol's state is that of the latest
    server; between the deletion of one and the next start it is the stopped one's. */
module Whole {
  import opened Wrappers
  import A = Streaming
  import S = SessionProtocol

  datatype State = State(app: A.State, ses: S.State)

  datatype Actor = Main | Control | Decoder | Encoder | Broadcaster | ServerLoop | Own(s: S.Sid)

  datatype Step =
    | MainStep(sigint: bool)
    | ControlStep(choice: A.Choice)
    | DecStep(some: bool)
    | EncStep(frame: bool, write: Option<nat>)
    | BcastStep(wrote: S.WriteResult)
    | ServerStep(accepted: Option<S.Sid>)
    | OwnStep(s: S.Sid, read: S.ReadResult)

  ghost predicate Init(st: State) {
    A.Init(st.app) && st.ses == S.NEW_SERVER.(stopper := S.MSkipped)
  }

  // ---------- which of Streaming's places a place of the protocol belongs to ----------

  function ServerPhase(p: S.ServerPc): A.SrvPc {
    match p
    case SNew => A.SOff
    case SHead => A.SHead
    case SAccept => A.SAccept
    case SUpgrade => A.SAccept
    case SLock(_) => A.SLock
    case SPush(_) => A.SPush
    case SUnlock(_) => A.SPush
    case SOpen(_) => A.SClean
    case SRun(_) => A.SClean
    case SSpawn(_) => A.SClean
    case SConnect(_) => A.SClean
    case SCleanTest => A.SClean
    case SCleanLock => A.SCleanLock
    case SScan(_, _, _) => A.SScan
    case SJudge(_, _, _) => A.SScan
    case SCleanUnlock(_) => A.SScan
    case SFree(_) => A.SJoin
    case SDel(_, _, _) => A.SJoin
    case SDone => A.SOff
  }

  function StopPhase(p: S.StopPc): A.ServerPc {
    match p
    case MTest => A.SrvFlag
    case MAcceptor => A.SrvFlag
    case MClear => A.SrvFlag
    case MJoin => A.SrvJoin
    case MLock => A.SrvLock
    case MDone => A.DelServer
    case MSkipped => A.DelServer
    case _ => A.SrvClose
  }

  // Where the broadcaster is, as far as Server::broadcast goes.
  datatype CastPhase = Outside | Locking | Inside

  function CastPhaseOf(p: S.BcastPc): CastPhase {
    if p == S.BIdle then Outside else if p == S.BLock then Locking else Inside
  }

  function AppCastPhase(p: A.BcastPc): CastPhase {
    if p == A.BSLock then Locking else if p == A.BSend then Inside else Outside
  }

  function Holder(m: Option<S.Actor>): Option<A.Actor> {
    match m
    case None => None
    case Some(Server) => Some(A.ServerLoop)
    case Some(Broadcaster) => Some(A.Broadcaster)
    case Some(Stopper) => Some(A.Control)
    case Some(Own(_)) => None
  }

  // ---------- steps ----------

  /** The control thread is inside Server::stop. */
  predicate InStop(c: A.Ctrl) {
    c.pc.StopServer? && c.server && c.pc.s != A.DelServer
  }

  predicate ControlEnabled(st: State) {
    if InStop(st.app.c) then S.StopEnabled(st.ses) else A.ControlEnabled(st.app)
  }

  /** What the control thread does to the server it is not stopping: build the next, run it. */
  function Managed(c: A.Ctrl, ses: S.State, choice: A.Choice): S.State {
    if c.pc == A.Build(A.NewServer) && choice != A.Fail then S.NEW_SERVER
    else if c.pc == A.Launch(A.RunServer) then S.RunDo(ses)
    else ses
  }

  function ControlDo(st: State, choice: A.Choice): State {
    if InStop(st.app.c) then
      var ses := S.StopDo(st.ses);
      State(if StopPhase(ses.stopper) == StopPhase(st.ses.stopper) then st.app else A.ControlDo(st.app, choice), ses)
    else
      State(A.ControlDo(st.app, choice), Managed(st.app.c, st.ses, choice))
  }

  predicate BcastEnabled(st: State) {
    if AppCastPhase(st.app.w.bcast) == Outside then A.BcastEnabled(st.app) else S.BcastEnabled(st.ses)
  }

  function BcastDo(st: State, wrote: S.WriteResult): State {
    if AppCastPhase(st.app.w.bcast) == Outside then
      var app := A.BcastDo(st.app);
      State(app, if AppCastPhase(app.w.bcast) == Outside then st.ses else S.BcastDo(st.ses, wrote))
    else
      var ses := S.BcastDo(st.ses, wrote);
      State(if CastPhaseOf(ses.bcast) == CastPhaseOf(st.ses.bcast) then st.app else A.BcastDo(st.app), ses)
  }

  predicate ServerEnabled(st: State, accepted: Option<S.Sid>) {
    S.ServerEnabled(st.ses, accepted)
  }

  function ServerDo(st: State, accepted: Option<S.Sid>): State {
    var ses := S.ServerDo(st.ses, accepted);
    State(if ServerPhase(ses.server) == ServerPhase(st.ses.server) then st.app else A.SrvDo(st.app, accepted.Some?),
          ses)
  }

  predicate Enabled(st: State, step: Step) {
    match step
    case MainStep(_) => A.MainEnabled(st.app.c)
    case ControlStep(_) => ControlEnabled(st)
    case DecStep(_) => A.DecEnabled(st.app)
    case EncStep(_, _) => A.EncEnabled(st.app)
    case BcastStep(_) => BcastEnabled(st)
    case ServerStep(accepted) => ServerEnabled(st, accepted)
    case OwnStep(s, _) => S.SessionEnabled(st.ses, s)
  }

  function Do(st: State, step: Step): State {
    match step
    case MainStep(sigint) => st.(app := A.Do(st.app, A.MainStep(sigint)))
    case ControlStep(choice) => ControlDo(st, choice)
    case DecStep(some) => st.(app := A.DecDo(st.app, some))
    case EncStep(frame, write) => st.(app := A.EncDo(st.app, frame, write))
    case BcastStep(wrote) => BcastDo(st, wrote)
    case ServerStep(accepted) => ServerDo(st, accepted)
    case OwnStep(s, read) => st.(ses := S.Do(st.ses, S.SessionStep(s, read)))
  }

  /** The i-th step leads from the i-th state to the next. */
  predicate Stepped(tr: seq<State>, steps: seq<Step>, i: int)
    requires 0 <= i < |steps| && |tr| == |steps| + 1
  {
    Enabled(tr[i], steps[i]) && tr[i + 1] == Do(tr[i], steps[i])
  }

  ghost predicate Run(tr: seq<State>, steps: seq<Step>) {
    && |tr| == |steps| + 1
    && Init(tr[0])
    && forall i :: 0 <= i < |steps| ==> Stepped(tr, steps, i)
  }
}
