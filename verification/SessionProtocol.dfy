/** The session ownership protocol of the WebSocket server.

    Four kinds of thread run interleaved: the server's own loop, the broadcaster inside
    Server::broadcast, one thread per session, and the owner, which calls Server::run and Server::stop.
    Every read or write of `_readyState`, `running` and `sessions`, every lock, unlock, join and
    delete is one step. A step that touches a session whose storage was released raises `fault`;
    nothing in the step relation prevents it, so its absence is a theorem.
 */
module SessionProtocol {
  import opened Wrappers

  type Sid = nat

  // ws::SessionLifeCycle
  datatype Ready = Connecting | Open | Closing | Closed

  // Where a caller stands inside Session::close(code) (the Code steps) or Session::close().
  datatype ClosePc =
    | CodeCheck    // the guard of close(code)
    | CodeMark     // _readyState = CLOSING
    | CodeSocket   // socket.close(code)
    | Check        // the guard of close()
    | Mark         // _readyState = CLOSING
    | Tear         // teardown of the socket
    | Finish       // _readyState = CLOSED
    | Halt         // stop(): running = false

  // Where a caller stands inside `delete session`.
  datatype DelPc =
    | DelCheck                // readyState <= CLOSING?
    | DelClose(c: ClosePc)    // close()
    | DelStop                 // running = false
    | DelJoin                 // pThread.join()
    | DelBase                 // ~LoopInside clears running again
    | DelFree                 // the storage goes

  // A session's own thread.
  datatype ThreadPc =
    | Unstarted
    | Head                    // while(running)
    | Test                    // readyState != OPEN?
    | Read                    // socket.read
    | Notify(coded: bool)     // listener->onClose, then close(code) or close()
    | Close(c: ClosePc)
    | Done

  datatype Session = Session(
    ready: Ready,
    running: bool,
    torn: bool,        // the TCP layer was torn down
    pc: ThreadPc,
    connects: nat,     // onConnection calls received
    closes: nat,       // onClose calls received
    frees: nat)        // times its storage was released

  const NEW_SESSION := Session(Connecting, false, false, Unstarted, 0, 0, 0)

  datatype ServerPc =
    | SNew        // run() has not been called
    | SHead
    | SAccept     // the acceptor, which does not block
    | SUpgrade    // reading the request of a new connection and answering it
    | SLock(s: Sid)
    | SPush(s: Sid)
    | SUnlock(s: Sid)
    | SOpen(s: Sid)
    | SRun(s: Sid)
    | SSpawn(s: Sid)
    | SConnect(s: Sid)
    | SCleanTest
    | SCleanLock
    | SScan(i: nat, kept: seq<Sid>, doomed: seq<Sid>)    // more elements?
    | SJudge(i: nat, kept: seq<Sid>, doomed: seq<Sid>)   // readyState != CLOSED?
    | SCleanUnlock(doomed: seq<Sid>)
    | SFree(doomed: seq<Sid>)
    | SDel(first: Sid, rest: seq<Sid>, d: DelPc)
    | SDone

  datatype BcastPc =
    | BIdle
    | BLock
    | BLoop(i: nat)
    | BSend(i: nat)
    | BWrite(i: nat)
    | BNotify(i: nat)
    | BClose(i: nat, c: ClosePc)
    | BUnlock

  datatype StopPc =
    | MTest
    | MAcceptor
    | MClear
    | MJoin
    | MLock
    | MNext(i: nat)
    | MNotify(i: nat)
    | MClose(i: nat, c: ClosePc)
    | MDel(i: nat, d: DelPc)
    | MUnlock
    | MDone       // stop() ran to its end
    | MSkipped    // stop() found the server not running

  datatype Actor = Server | Broadcaster | Stopper | Own(s: Sid)

  datatype State = State(
    running: bool,
    lock: Option<Actor>,
    list: seq<Sid>,
    sess: map<Sid, Session>,
    server: ServerPc,
    bcast: BcastPc,
    stopper: StopPc,
    fault: bool)

  // What the network does; Got covers a message, no data and eof, Quiet any other error.
  datatype ReadResult = Got | PeerClosed | Fatal | Quiet | Failed
  datatype WriteResult = Sent | WriteFatal | WriteQuiet

  datatype Step =
    | RunStep                             // the owner calls Server::run
    | ServerStep(accepted: Option<Sid>)   // a connection, then a session, or none
    | BcastStep(wrote: WriteResult)
    | StopStep                            // the owner inside Server::stop
    | SessionStep(s: Sid, read: ReadResult)

  // ---------- one session ----------

  /** A server just built. */
  const NEW_SERVER := State(false, None, [], map[], SNew, BIdle, MTest, false)

  ghost predicate Init(st: State) {
    st == NEW_SERVER
  }

  function Get(st: State, s: Sid): Session {
    if s in st.sess then st.sess[s] else NEW_SESSION
  }

  predicate Live(st: State, s: Sid) {
    s in st.sess && st.sess[s].frees == 0
  }

  /** Access to session `s`, leaving it as `x`. */
  function Put(st: State, s: Sid, x: Session): State {
    st.(sess := st.sess[s := x], fault := st.fault || !Live(st, s))
  }

  function At(l: seq<Sid>, i: nat): Sid {
    if i < |l| then l[i] else 0
  }

  function From(l: seq<Sid>, i: nat): seq<Sid> {
    if i <= |l| then l[i..] else []
  }

  function CloseStep(x: Session, c: ClosePc): (Session, Option<ClosePc>) {
    match c
    case CodeCheck => (x, if x.ready == Closed then None else Some(CodeMark))
    case CodeMark => (x.(ready := Closing), Some(CodeSocket))
    case CodeSocket => (x, Some(Check))
    case Check => (x, if x.ready == Closed then None else Some(Mark))
    case Mark => (x.(ready := Closing), Some(Tear))
    case Tear => (x.(torn := true), Some(Finish))
    case Finish => (x.(ready := Closed), Some(Halt))
    case Halt => (x.(running := false), None)
  }

  predicate Joinable(x: Session) {
    x.pc != Unstarted
  }

  predicate DelEnabled(x: Session, d: DelPc) {
    d == DelJoin && Joinable(x) ==> x.pc == Done
  }

  function DelStep(x: Session, d: DelPc): (Session, Option<DelPc>) {
    match d
    case DelCheck => (x, if x.ready != Closed then Some(DelClose(Check)) else Some(DelStop))
    case DelClose(c) =>
      var (y, n) := CloseStep(x, c);
      (y, Some(if n.Some? then DelClose(n.value) else DelStop))
    case DelStop => (x.(running := false), Some(DelJoin))
    case DelJoin => (x, Some(DelBase))
    case DelBase => (x.(running := false), Some(DelFree))
    case DelFree => (x.(frees := x.frees + 1), None)
  }

  // ---------- the server thread ----------

  predicate ServerTouches(p: ServerPc) {
    p.SOpen? || p.SRun? || p.SSpawn? || p.SConnect? || p.SJudge? || p.SDel?
  }

  /** The session the server thread works on. */
  function ServerTarget(p: ServerPc, list: seq<Sid>): Sid
    requires ServerTouches(p)
  {
    match p
    case SOpen(s) => s
    case SRun(s) => s
    case SSpawn(s) => s
    case SConnect(s) => s
    case SJudge(i, _, _) => At(list, i)
    case SDel(s, _, _) => s
  }

  predicate ServerEnabled(st: State, accepted: Option<Sid>) {
    match st.server
    case SNew => false
    case SUpgrade => accepted.Some? ==> accepted.value !in st.sess
    case SLock(_) => st.lock == None
    case SCleanLock => st.lock == None
    case SDel(s, _, d) => DelEnabled(Get(st, s), d)
    case SDone => false
    case _ => true
  }

  /** Session::run, onConnection, the predicate of remove_if, and `delete` in clearup. */
  function ServerMove(p: ServerPc, s: Sid, x: Session): (Session, ServerPc)
    requires ServerTouches(p)
  {
    match p
    case SOpen(_) => (x.(ready := Open), SRun(s))
    case SRun(_) => (x.(running := true), SSpawn(s))
    case SSpawn(_) => (x.(pc := Head), SConnect(s))
    case SConnect(_) => (x.(connects := x.connects + 1), SCleanTest)
    case SJudge(i, kept, doomed) =>
      (x, if x.ready == Closed then SScan(i + 1, kept, doomed + [s]) else SScan(i + 1, kept + [s], doomed))
    case SDel(_, rest, d) =>
      var (y, n) := DelStep(x, d);
      (y, if n.Some? then SDel(s, rest, n.value) else SFree(rest))
  }

  /** The remaining steps of LoopInside::entryPoint, Server::loop and Server::clearup. */
  function ServerPass(st: State, accepted: Option<Sid>): State
    requires !ServerTouches(st.server)
  {
    match st.server
    case SNew => st
    case SHead => st.(server := if st.running then SAccept else SDone)
    case SAccept => st.(server := if accepted.None? then SCleanTest else SUpgrade)
    case SUpgrade =>
      if accepted.None? then st.(server := SCleanTest)
      else st.(sess := st.sess[accepted.value := NEW_SESSION], server := SLock(accepted.value))
    case SLock(s) => st.(lock := Some(Server), server := SPush(s))
    case SPush(s) => st.(list := st.list + [s], server := SUnlock(s))
    case SUnlock(s) => st.(lock := None, server := SOpen(s))
    case SCleanTest => st.(server := if st.running then SCleanLock else SHead)
    case SCleanLock => st.(lock := Some(Server), server := SScan(0, [], []))
    case SScan(i, kept, doomed) =>
      if i < |st.list| then st.(server := SJudge(i, kept, doomed))
      else st.(list := kept, server := SCleanUnlock(doomed))
    case SCleanUnlock(doomed) => st.(lock := None, server := SFree(doomed))
    case SFree(doomed) =>
      st.(server := if doomed == [] then SHead else SDel(doomed[0], doomed[1..], DelCheck))
    case SDone => st
  }

  function ServerDo(st: State, accepted: Option<Sid>): State {
    if ServerTouches(st.server) then
      var s := ServerTarget(st.server, st.list);
      var (y, p) := ServerMove(st.server, s, Get(st, s));
      Put(st, s, y).(server := p)
    else ServerPass(st, accepted)
  }

  // ---------- the broadcaster ----------

  predicate BcastTouches(p: BcastPc) {
    p.BSend? || p.BWrite? || p.BNotify? || p.BClose?
  }

  predicate BcastEnabled(st: State) {
    st.bcast == BLock ==> st.lock == None
  }

  /** Session::send, with the error path through ServerCallback::onError. */
  function BcastMove(p: BcastPc, x: Session, wrote: WriteResult): (Session, BcastPc)
    requires BcastTouches(p)
  {
    match p
    case BSend(i) => (x, if x.ready != Open then BLoop(i + 1) else BWrite(i))
    case BWrite(i) => (x, if wrote == WriteFatal then BNotify(i) else BLoop(i + 1))
    case BNotify(i) => (x.(closes := x.closes + 1), BClose(i, CodeCheck))
    case BClose(i, c) =>
      var (y, n) := CloseStep(x, c);
      (y, if n.Some? then BClose(i, n.value) else BLoop(i + 1))
  }

  function BcastPass(st: State): State
    requires !BcastTouches(st.bcast)
  {
    match st.bcast
    case BIdle => st.(bcast := BLock)
    case BLock => st.(lock := Some(Broadcaster), bcast := BLoop(0))
    case BLoop(i) => st.(bcast := if i < |st.list| then BSend(i) else BUnlock)
    case BUnlock => st.(lock := None, bcast := BIdle)
  }

  function BcastDo(st: State, wrote: WriteResult): State {
    if BcastTouches(st.bcast) then
      var s := At(st.list, st.bcast.i);
      var (y, p) := BcastMove(st.bcast, Get(st, s), wrote);
      Put(st, s, y).(bcast := p)
    else BcastPass(st)
  }

  // ---------- the thread in Server::stop ----------

  predicate StopTouches(p: StopPc) {
    p.MNotify? || p.MClose? || p.MDel?
  }

  predicate StopEnabled(st: State) {
    match st.stopper
    case MJoin => st.server == SDone
    case MLock => st.lock == None
    case MDel(i, d) => DelEnabled(Get(st, At(st.list, i)), d)
    case MDone => false
    case MSkipped => false
    case _ => true
  }

  function StopMove(p: StopPc, x: Session): (Session, StopPc)
    requires StopTouches(p)
  {
    match p
    case MNotify(i) => (x.(closes := x.closes + 1), MClose(i, Check))
    case MClose(i, c) =>
      var (y, n) := CloseStep(x, c);
      (y, if n.Some? then MClose(i, n.value) else MDel(i, DelCheck))
    case MDel(i, d) =>
      var (y, n) := DelStep(x, d);
      (y, if n.Some? then MDel(i, n.value) else MNext(i + 1))
  }

  /** LoopInside::run; nobody but the thread it starts reads the flag before that thread runs. */
  predicate RunEnabled(st: State) {
    st.server == SNew && st.stopper == MTest
  }

  function RunDo(st: State): State {
    st.(running := true, server := SHead)
  }

  function StopPass(st: State): State
    requires !StopTouches(st.stopper)
  {
    match st.stopper
    case MTest => st.(stopper := if st.running then MAcceptor else MSkipped)
    case MAcceptor => st.(stopper := MClear)
    case MClear => st.(running := false, stopper := MJoin)
    case MJoin => st.(stopper := MLock)
    case MLock => st.(lock := Some(Stopper), stopper := MNext(0))
    case MNext(i) => if i < |st.list| then st.(stopper := MNotify(i)) else st.(list := [], stopper := MUnlock)
    case MUnlock => st.(lock := None, stopper := MDone)
    case MDone => st
    case MSkipped => st
  }

  function StopDo(st: State): State {
    if StopTouches(st.stopper) then
      var s := At(st.list, st.stopper.i);
      var (y, p) := StopMove(st.stopper, Get(st, s));
      Put(st, s, y).(stopper := p)
    else StopPass(st)
  }

  // ---------- a session's thread ----------

  predicate SessionEnabled(st: State, s: Sid) {
    s in st.sess && st.sess[s].pc != Unstarted && st.sess[s].pc != Done
  }

  /** LoopInside::entryPoint around Session::loop. */
  function ThreadStep(x: Session, read: ReadResult): Session {
    match x.pc
    case Unstarted => x
    case Head => x.(pc := if x.running then Test else Done)
    case Test => x.(pc := if x.ready != Open then Head else Read)
    case Read =>
      x.(pc := match read
        case Got => Head
        case PeerClosed => Notify(false)
        case Fatal => Notify(true)
        case Quiet => Head
        case Failed => Notify(false))
    case Notify(coded) => x.(closes := x.closes + 1, pc := Close(if coded then CodeCheck else Check))
    case Close(c) =>
      var (y, n) := CloseStep(x, c);
      y.(pc := if n.Some? then Close(n.value) else Head)
    case Done => x
  }

  // ---------- the whole ----------

  predicate Enabled(st: State, step: Step) {
    match step
    case RunStep => RunEnabled(st)
    case ServerStep(accepted) => ServerEnabled(st, accepted)
    case BcastStep(_) => BcastEnabled(st)
    case StopStep => StopEnabled(st)
    case SessionStep(s, _) => SessionEnabled(st, s)
  }

  function Do(st: State, step: Step): State {
    match step
    case RunStep => RunDo(st)
    case ServerStep(accepted) => ServerDo(st, accepted)
    case BcastStep(wrote) => BcastDo(st, wrote)
    case StopStep => StopDo(st)
    case SessionStep(s, read) => Put(st, s, ThreadStep(Get(st, s), read))
  }

  /** The i-th step leads from the i-th state to the next. */
  predicate Stepped(tr: seq<State>, steps: seq<Step>, i: int)
    requires 0 <= i < |steps| && |tr| == |steps| + 1
  {
    Enabled(tr[i], steps[i]) && tr[i + 1] == Do(tr[i], steps[i])
  }

  /** A run: any interleaving of any length. */
  ghost predicate Run(tr: seq<State>, steps: seq<Step>) {
    && |tr| == |steps| + 1
    && Init(tr[0])
    && forall i :: 0 <= i < |steps| ==> Stepped(tr, steps, i)
  }
}
