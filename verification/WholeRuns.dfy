/** Both halves of the whole application run as they do alone, so what is proved of either holds of the
    whole, also between two moments of a run. */
module WholeRuns {
  import opened Wrappers
  import opened Whole
  import opened WholeInvariant
  import A = Streaming
  import AT = StreamingTheorems
  import S = SessionProtocol
  import SI = SessionInvariant
  import ST = SessionTheorems
  import P = SessionProgress

  // ---------- one step ----------

  /** Which step of Streaming a step is, if any. */
  function AppStep(st: State, step: Step): Option<A.Step> {
    match step
    case MainStep(sigint) => Some(A.MainStep(sigint))
    case ControlStep(choice) =>
      if InStop(st.app.c) && StopPhase(S.StopDo(st.ses).stopper) == StopPhase(st.ses.stopper) then None
      else Some(A.ControlStep(choice))
    case DecStep(got) => Some(A.DecStep(got))
    case EncStep(frame, write) => Some(A.EncStep(frame, write))
    case BcastStep(wrote) =>
      if AppCastPhase(st.app.w.bcast) != Outside
         && CastPhaseOf(S.BcastDo(st.ses, wrote).bcast) == CastPhaseOf(st.ses.bcast) then None
      else Some(A.BcastStep)
    case ServerStep(accepted) =>
      if ServerPhase(S.ServerDo(st.ses, accepted).server) == ServerPhase(st.ses.server) then None
      else Some(A.SrvStep(accepted.Some?))
    case OwnStep(_, _) => None
  }

  /** Which step of the session protocol it is, if any. */
  function SesStep(st: State, step: Step): Option<S.Step> {
    match step
    case ControlStep(_) =>
      if InStop(st.app.c) then Some(S.StopStep)
      else if st.app.c.pc == A.Launch(A.RunServer) then Some(S.RunStep)
      else None
    case BcastStep(wrote) =>
      if AppCastPhase(st.app.w.bcast) != Outside || AppCastPhase(A.BcastDo(st.app).w.bcast) != Outside then
        Some(S.BcastStep(wrote))
      else None
    case ServerStep(accepted) => Some(S.ServerStep(accepted))
    case OwnStep(s, read) => Some(S.SessionStep(s, read))
    case _ => None
  }

  /** It builds a server. */
  predicate Builds(st: State, step: Step) {
    step.ControlStep? && step.choice != A.Fail && st.app.c.pc == A.Build(A.NewServer)
  }

  lemma StepsStreaming(st: State, step: Step)
    requires Inv(st) && Enabled(st, step)
    ensures match AppStep(st, step)
            case None => Do(st, step).app == st.app
            case Some(one) => A.Enabled(st.app, one) && Do(st, step).app == A.Do(st.app, one)
  {
    match step
    case ControlStep(choice) => ControlIsStreaming(st, choice);
    case BcastStep(wrote) => BcastIsStreaming(st, wrote);
    case ServerStep(accepted) => ServerIsStreaming(st, accepted);
    case _ =>
  }

  lemma ServerIsStreaming(st: State, accepted: Option<S.Sid>)
    requires Inv(st) && ServerEnabled(st, accepted)
    ensures match AppStep(st, ServerStep(accepted))
            case None => ServerDo(st, accepted).app == st.app
            case Some(one) =>
              && one == A.SrvStep(accepted.Some?) && A.SrvEnabled(st.app)
              && ServerDo(st, accepted).app == A.SrvDo(st.app, accepted.Some?)
  {
    ServerMoves(st.ses, accepted);
  }

  lemma ControlIsStreaming(st: State, choice: A.Choice)
    requires Inv(st) && ControlEnabled(st)
    ensures match AppStep(st, ControlStep(choice))
            case None => ControlDo(st, choice).app == st.app
            case Some(one) =>
              && one == A.ControlStep(choice) && A.ControlEnabled(st.app)
              && ControlDo(st, choice).app == A.ControlDo(st.app, choice)
  {
    if InStop(st.app.c) {
      StopDoes(st.ses);
      if StopPhase(S.StopDo(st.ses).stopper) != StopPhase(st.ses.stopper) { StopMayMove(st); }
    }
  }

  lemma BcastIsStreaming(st: State, wrote: S.WriteResult)
    requires Inv(st) && BcastEnabled(st)
    ensures match AppStep(st, BcastStep(wrote))
            case None => BcastDo(st, wrote).app == st.app
            case Some(one) =>
              && one == A.BcastStep && A.BcastEnabled(st.app)
              && BcastDo(st, wrote).app == A.BcastDo(st.app)
  {
    if AppCastPhase(st.app.w.bcast) != Outside { BcastMoves(st.ses, wrote); }
  }

  lemma StepsServer(st: State, step: Step)
    requires Inv(st) && Enabled(st, step)
    ensures match SesStep(st, step)
            case None => Do(st, step).ses == if Builds(st, step) then S.NEW_SERVER else st.ses
            case Some(one) => S.Enabled(st.ses, one) && Do(st, step).ses == S.Do(st.ses, one) && !Builds(st, step)
  {
  }

  // ---------- a run of Streaming ----------

  /** The k-th step of the whole, in the run of Streaming whose state `f[k]` is the whole's k-th. */
  predicate AppLink(tr: seq<State>, steps: seq<Step>, asteps: seq<A.Step>, f: seq<nat>, k: nat)
    requires k < |tr| && k < |steps| && k + 1 < |f|
  {
    match AppStep(tr[k], steps[k])
    case None => f[k + 1] == f[k]
    case Some(one) => f[k + 1] == f[k] + 1 && f[k] < |asteps| && asteps[f[k]] == one
  }

  /** The application's part of the whole, up to the i-th moment, is a run of Streaming: the same states, and
      the same steps in the same order. */
  ghost predicate ShowsApp(tr: seq<State>, steps: seq<Step>, i: nat,
                           atr: seq<A.State>, asteps: seq<A.Step>, f: seq<nat>)
    requires i < |tr| == |steps| + 1
  {
    && A.Run(atr, asteps) && |f| == i + 1 && f[i] == |asteps|
    && (forall k {:trigger f[k]} :: 0 <= k <= i ==> f[k] < |atr| && atr[f[k]] == tr[k].app)
    && (forall j, k {:trigger f[j], f[k]} :: 0 <= j <= k <= i ==> f[j] <= f[k])
    && (forall k {:trigger AppLink(tr, steps, asteps, f, k)} :: 0 <= k < i ==> AppLink(tr, steps, asteps, f, k))
  }

  lemma {:induction false} StreamingRun(tr: seq<State>, steps: seq<Step>, i: nat)
    returns (atr: seq<A.State>, asteps: seq<A.Step>, f: seq<nat>)
    requires Run(tr, steps) && i < |tr|
    ensures ShowsApp(tr, steps, i, atr, asteps, f)
  {
    if i == 0 {
      return [tr[0].app], [], [0];
    }
    atr, asteps, f := StreamingRun(tr, steps, i - 1);
    StreamingAt(tr, steps, i - 1);
    atr, asteps, f := AppNext(tr, steps, i, atr, asteps, f);
  }

  lemma AppNext(tr: seq<State>, steps: seq<Step>, i: nat, atr0: seq<A.State>, asteps0: seq<A.Step>, f0: seq<nat>)
    returns (atr: seq<A.State>, asteps: seq<A.Step>, f: seq<nat>)
    requires 0 < i < |tr| == |steps| + 1 && ShowsApp(tr, steps, i - 1, atr0, asteps0, f0)
    requires match AppStep(tr[i - 1], steps[i - 1])
             case None => tr[i].app == tr[i - 1].app
             case Some(one) => A.Enabled(tr[i - 1].app, one) && tr[i].app == A.Do(tr[i - 1].app, one)
    ensures ShowsApp(tr, steps, i, atr, asteps, f)
  {
    match AppStep(tr[i - 1], steps[i - 1])
    case None =>
      AppStays(tr, steps, i, atr0, asteps0, f0);
      return atr0, asteps0, f0 + [|asteps0|];
    case Some(one) =>
      AppGrows(tr, steps, i, atr0, asteps0, f0, one);
      return atr0 + [tr[i].app], asteps0 + [one], f0 + [|asteps0| + 1];
  }

  lemma StreamingAt(tr: seq<State>, steps: seq<Step>, k: nat)
    requires Run(tr, steps) && k < |steps|
    ensures match AppStep(tr[k], steps[k])
            case None => tr[k + 1].app == tr[k].app
            case Some(one) => A.Enabled(tr[k].app, one) && tr[k + 1].app == A.Do(tr[k].app, one)
  {
    RunKeepsInv(tr, steps, k);
    assert Stepped(tr, steps, k);
    StepsStreaming(tr[k], steps[k]);
  }

  lemma AppStays(tr: seq<State>, steps: seq<Step>, i: nat, atr: seq<A.State>, asteps: seq<A.Step>, f: seq<nat>)
    requires 0 < i < |tr| == |steps| + 1 && ShowsApp(tr, steps, i - 1, atr, asteps, f)
    requires AppStep(tr[i - 1], steps[i - 1]).None? && tr[i].app == tr[i - 1].app
    ensures ShowsApp(tr, steps, i, atr, asteps, f + [|asteps|])
  {
    var g := f + [|asteps|];
    forall k | 0 <= k < i ensures AppLink(tr, steps, asteps, g, k) {
      if k < i - 1 { assert AppLink(tr, steps, asteps, f, k); }
    }
  }

  lemma AppGrows(tr: seq<State>, steps: seq<Step>, i: nat,
                 atr: seq<A.State>, asteps: seq<A.Step>, f: seq<nat>, one: A.Step)
    requires 0 < i < |tr| == |steps| + 1 && ShowsApp(tr, steps, i - 1, atr, asteps, f)
    requires AppStep(tr[i - 1], steps[i - 1]) == Some(one)
    requires A.Enabled(tr[i - 1].app, one) && tr[i].app == A.Do(tr[i - 1].app, one)
    ensures ShowsApp(tr, steps, i, atr + [tr[i].app], asteps + [one], f + [|asteps| + 1])
  {
    var g, more := f + [|asteps| + 1], asteps + [one];
    Extend(atr, asteps, one, tr[i].app);
    forall k | 0 <= k < i ensures AppLink(tr, steps, more, g, k) {
      if k < i - 1 { assert AppLink(tr, steps, asteps, f, k); }
    }
  }

  lemma Extend(atr: seq<A.State>, asteps: seq<A.Step>, one: A.Step, next: A.State)
    requires A.Run(atr, asteps) && A.Enabled(atr[|asteps|], one) && next == A.Do(atr[|asteps|], one)
    ensures A.Run(atr + [next], asteps + [one])
  {
    var tr, steps := atr + [next], asteps + [one];
    forall i | 0 <= i < |steps| ensures A.Stepped(tr, steps, i) {
      if i < |asteps| { assert A.Stepped(atr, asteps, i); }
    }
  }

  // ---------- a run of the session protocol ----------

  predicate SesLink(tr: seq<State>, steps: seq<Step>, ssteps: seq<S.Step>, f: seq<nat>, k: nat)
    requires k < |tr| && k < |steps| && k + 1 < |f|
  {
    match SesStep(tr[k], steps[k])
    case None => f[k + 1] == f[k] && !Builds(tr[k], steps[k])
    case Some(one) => f[k + 1] == f[k] + 1 && f[k] < |ssteps| && ssteps[f[k]] == one
  }

  /** The part of the server built before the moment `b`, from then up to the i-th moment, is a run of the
      session protocol: the same states, and the same steps in the same order. */
  ghost predicate ShowsServer(tr: seq<State>, steps: seq<Step>, b: nat, i: nat,
                              str: seq<S.State>, ssteps: seq<S.Step>, f: seq<nat>)
    requires b <= i < |tr| == |steps| + 1
  {
    && S.Run(str, ssteps) && |f| == i + 1 && f[i] == |ssteps|
    && (b == 0 || Builds(tr[b - 1], steps[b - 1]))
    && (forall k {:trigger f[k]} :: b <= k <= i ==> f[k] < |str| && str[f[k]] == tr[k].ses)
    && (forall j, k {:trigger f[j], f[k]} :: b <= j <= k <= i ==> f[j] <= f[k])
    && (forall k {:trigger SesLink(tr, steps, ssteps, f, k)} :: b <= k < i ==> SesLink(tr, steps, ssteps, f, k))
  }

  lemma {:induction false} ServerRun(tr: seq<State>, steps: seq<Step>, i: nat)
    returns (b: nat, str: seq<S.State>, ssteps: seq<S.Step>, f: seq<nat>)
    requires Run(tr, steps) && i < |tr|
    ensures b <= i && ShowsServer(tr, steps, b, i, str, ssteps, f)
  {
    if i == 0 {
      b, str, ssteps, f := 0, [S.NEW_SERVER, tr[0].ses], [S.StopStep], [1];
      assert S.Stepped(str, ssteps, 0);
      return;
    }
    b, str, ssteps, f := ServerRun(tr, steps, i - 1);
    ServerAt(tr, steps, i - 1);
    match SesStep(tr[i - 1], steps[i - 1])
    case None =>
      if Builds(tr[i - 1], steps[i - 1]) {
        return i, [S.NEW_SERVER], [], seq(i + 1, k => 0);
      }
      ServerStays(tr, steps, b, i, str, ssteps, f);
      f := f + [|ssteps|];
    case Some(one) =>
      ServerGrows(tr, steps, b, i, str, ssteps, f, one);
      str, ssteps, f := str + [tr[i].ses], ssteps + [one], f + [|ssteps| + 1];
  }

  lemma ServerAt(tr: seq<State>, steps: seq<Step>, k: nat)
    requires Run(tr, steps) && k < |steps|
    ensures match SesStep(tr[k], steps[k])
            case None => tr[k + 1].ses == if Builds(tr[k], steps[k]) then S.NEW_SERVER else tr[k].ses
            case Some(one) => S.Enabled(tr[k].ses, one) && tr[k + 1].ses == S.Do(tr[k].ses, one)
  {
    RunKeepsInv(tr, steps, k);
    assert Stepped(tr, steps, k);
    StepsServer(tr[k], steps[k]);
  }

  lemma ServerStays(tr: seq<State>, steps: seq<Step>, b: nat, i: nat,
                    str: seq<S.State>, ssteps: seq<S.Step>, f: seq<nat>)
    requires b < i < |tr| == |steps| + 1 && ShowsServer(tr, steps, b, i - 1, str, ssteps, f)
    requires SesStep(tr[i - 1], steps[i - 1]).None? && !Builds(tr[i - 1], steps[i - 1]) && tr[i].ses == tr[i - 1].ses
    ensures ShowsServer(tr, steps, b, i, str, ssteps, f + [|ssteps|])
  {
    var g := f + [|ssteps|];
    forall k | b <= k < i ensures SesLink(tr, steps, ssteps, g, k) {
      if k < i - 1 { assert SesLink(tr, steps, ssteps, f, k); }
    }
  }

  lemma ServerGrows(tr: seq<State>, steps: seq<Step>, b: nat, i: nat,
                    str: seq<S.State>, ssteps: seq<S.Step>, f: seq<nat>, one: S.Step)
    requires b < i < |tr| == |steps| + 1 && ShowsServer(tr, steps, b, i - 1, str, ssteps, f)
    requires SesStep(tr[i - 1], steps[i - 1]) == Some(one)
    requires S.Enabled(tr[i - 1].ses, one) && tr[i].ses == S.Do(tr[i - 1].ses, one)
    ensures ShowsServer(tr, steps, b, i, str + [tr[i].ses], ssteps + [one], f + [|ssteps| + 1])
  {
    var g, more := f + [|ssteps| + 1], ssteps + [one];
    ExtendServer(str, ssteps, one, tr[i].ses);
    forall k | b <= k < i ensures SesLink(tr, steps, more, g, k) {
      if k < i - 1 { assert SesLink(tr, steps, ssteps, f, k); }
    }
  }

  lemma ExtendServer(str: seq<S.State>, ssteps: seq<S.Step>, one: S.Step, next: S.State)
    requires S.Run(str, ssteps) && S.Enabled(str[|ssteps|], one) && next == S.Do(str[|ssteps|], one)
    ensures S.Run(str + [next], ssteps + [one])
  {
    var tr, steps := str + [next], ssteps + [one];
    forall i | 0 <= i < |steps| ensures S.Stepped(tr, steps, i) {
      if i < |ssteps| { assert S.Stepped(str, ssteps, i); }
    }
  }

  // ---------- memory over all servers ----------

  /** No step of the application touches a released session or looks past the end of the list. */
  lemma NoFault(tr: seq<State>, steps: seq<Step>, i: nat)
    requires Run(tr, steps) && i < |tr|
    ensures !tr[i].ses.fault && ST.InBounds(tr[i].ses)
  {
    RunKeepsInv(tr, steps, i);
  }

  /** Whenever there is no server, in particular before the next one is built and when the process has
      stopped, every session the last one ever accepted has been released exactly once, and none is
      listed. */
  lemma NoSessionOutlivesItsServer(tr: seq<State>, steps: seq<Step>, i: nat)
    requires Run(tr, steps) && i < |tr| && !tr[i].app.c.server
    ensures tr[i].ses.list == [] && forall s :: s in tr[i].ses.sess ==> tr[i].ses.sess[s].frees == 1
  {
    RunKeepsInv(tr, steps, i);
    var b, str, ssteps, f := ServerRun(tr, steps, i);
    if tr[i].ses.stopper == S.MDone {
      ST.StopReleasesAll(str, ssteps, |ssteps|);
    } else {
      ST.SkippedStopHasNone(str, ssteps, |ssteps|);
    }
  }

  // ---------- between two moments ----------

  /** The record of a finished stream never changes, and as long as a stream is the current one its record
      only grows. */
  lemma HistoryIsFinal(tr: seq<State>, steps: seq<Step>, i: nat, j: nat)
    requires Run(tr, steps) && i <= j < |tr|
    ensures var before, after := tr[i].app.q, tr[j].app.q;
      && before.past <= after.past
      && (|after.past| == |before.past| ==> before.now.wrote <= after.now.wrote && before.now.cast <= after.now.cast)
  {
    var atr, asteps, f := StreamingRun(tr, steps, j);
    assert f[i] <= f[j];
    AT.HistoryIsFinal(atr, asteps, f[i], f[j]);
  }

  /** No server is built from the i-th to the j-th moment. */
  ghost predicate SameServer(tr: seq<State>, steps: seq<Step>, i: nat, j: nat)
    requires j < |tr| == |steps| + 1
  {
    forall k {:trigger Builds(tr[k], steps[k])} :: i <= k < j ==> !Builds(tr[k], steps[k])
  }

  /** How many steps `a` of the session protocol takes from the i-th to before the j-th. */
  function Acting(tr: seq<State>, steps: seq<Step>, i: nat, j: nat, a: S.Actor): nat
    requires i <= j < |tr| == |steps| + 1
    decreases j
  {
    if i == j then 0
    else
      var one := SesStep(tr[j - 1], steps[j - 1]);
      Acting(tr, steps, i, j - 1, a) + if one.Some? && P.ActorOf(one.value) == a then 1 else 0
  }

  lemma {:induction false} SameCount(tr: seq<State>, steps: seq<Step>, b: nat, n: nat, str: seq<S.State>,
                                     ssteps: seq<S.Step>, f: seq<nat>, i: nat, j: nat, a: S.Actor)
    requires b <= i <= j <= n < |tr| == |steps| + 1 && ShowsServer(tr, steps, b, n, str, ssteps, f)
    ensures f[i] <= f[j] <= |ssteps| && P.Taken(ssteps, f[i], f[j], a) == Acting(tr, steps, i, j, a)
    decreases j
  {
    assert f[i] <= f[j] <= f[n];
    if i < j {
      SameCount(tr, steps, b, n, str, ssteps, f, i, j - 1, a);
      assert SesLink(tr, steps, ssteps, f, j - 1);
    }
  }

  /** The stretch of the protocol's run that a stretch of the whole shows while one server is there. */
  lemma Stretch(tr: seq<State>, steps: seq<Step>, i: nat, j: nat, a: S.Actor)
    returns (str: seq<S.State>, ssteps: seq<S.Step>, p: nat, q: nat)
    requires Run(tr, steps) && i <= j < |tr| && SameServer(tr, steps, i, j)
    ensures S.Run(str, ssteps) && p <= q < |str| && str[p] == tr[i].ses && str[q] == tr[j].ses
    ensures P.Taken(ssteps, p, q, a) == Acting(tr, steps, i, j, a)
  {
    var b, f;
    b, str, ssteps, f := ServerRun(tr, steps, j);
    assert b == 0 || Builds(tr[b - 1], steps[b - 1]);
    assert b <= i;
    p, q := f[i], f[j];
    SameCount(tr, steps, b, j, str, ssteps, f, i, j, a);
  }

  /** A released session is never touched again, and no accepted one forgotten. */
  lemma ReleasedForGood(tr: seq<State>, steps: seq<Step>, i: nat, j: nat, s: S.Sid)
    requires Run(tr, steps) && i <= j < |tr| && SameServer(tr, steps, i, j) && s in tr[i].ses.sess
    ensures s in tr[j].ses.sess
    ensures tr[i].ses.sess[s].frees > 0 ==> tr[j].ses.sess[s] == tr[i].ses.sess[s]
  {
    var str, ssteps, p, q := Stretch(tr, steps, i, j, S.Server);
    ST.ReleasedForGood(str, ssteps, p, q, s);
  }

  /** Once a close has begun the session never opens again. */
  lemma ClosingIsForGood(tr: seq<State>, steps: seq<Step>, i: nat, j: nat, s: S.Sid)
    requires Run(tr, steps) && i <= j < |tr| && SameServer(tr, steps, i, j)
    requires s in tr[i].ses.sess && SI.Closish(tr[i].ses.sess[s])
    ensures s in tr[j].ses.sess && SI.Closish(tr[j].ses.sess[s])
  {
    var str, ssteps, p, q := Stretch(tr, steps, i, j, S.Server);
    ST.ClosingIsForGood(str, ssteps, p, q, s);
  }

  /** A session's thread that was told to stop takes at most ThreadLeft steps, whatever the threads of the
      application do meanwhile. */
  lemma JoinIsBounded(tr: seq<State>, steps: seq<Step>, i: nat, j: nat, s: S.Sid)
    requires Run(tr, steps) && i <= j < |tr| && SameServer(tr, steps, i, j) && P.Down(tr[i].ses, s)
    ensures P.Down(tr[j].ses, s)
    ensures Acting(tr, steps, i, j, S.Own(s)) + P.ThreadLeft(S.Get(tr[j].ses, s)) <= P.ThreadLeft(S.Get(tr[i].ses, s))
  {
    var str, ssteps, p, q := Stretch(tr, steps, i, j, S.Own(s));
    P.JoinIsBounded(str, ssteps, p, q, s);
  }

  /** And so does the control thread, once it has joined the server's. */
  lemma StopIsBounded(tr: seq<State>, steps: seq<Step>, i: nat, j: nat)
    requires Run(tr, steps) && i <= j < |tr| && SameServer(tr, steps, i, j) && SI.StopJoined(tr[i].ses.stopper)
    ensures SI.StopJoined(tr[j].ses.stopper)
    ensures Acting(tr, steps, i, j, S.Stopper) + P.StopLeft(tr[j].ses.stopper, |tr[j].ses.list|)
         <= P.StopLeft(tr[i].ses.stopper, |tr[i].ses.list|)
  {
    var str, ssteps, p, q := Stretch(tr, steps, i, j, S.Stopper);
    P.StopIsBounded(str, ssteps, p, q);
  }

  // ---------- how long a stop can wait for the broadcaster ----------

  /** How often the broadcaster takes sessionsMtx from the i-th to the j-th moment. */
  function Casts(tr: seq<State>, i: nat, j: nat): nat
    requires i <= j < |tr|
    decreases j
  {
    if i == j then 0 else Casts(tr, i, j - 1) + if AT.TakesMutex(tr[j - 1].app, tr[j].app) then 1 else 0
  }

  /** While the control thread is in the server's part of stopWs nothing is written any more, so the
      broadcaster takes sessionsMtx at most once for each buffer queued or in its hand, and once more if it
      already waits for it. */
  lemma {:induction false} CastsAreBounded(tr: seq<State>, steps: seq<Step>, i: nat, j: nat)
    requires Run(tr, steps) && i <= j < |tr|
    requires forall k :: i <= k < j ==> tr[k].app.c.pc.StopServer?
    ensures Casts(tr, i, j) + AT.Backlog(tr[j].app) <= AT.Backlog(tr[i].app)
    decreases j
  {
    if i < j {
      CastsAreBounded(tr, steps, i, j - 1);
      CastStep(tr, steps, j - 1);
    }
  }

  lemma CastStep(tr: seq<State>, steps: seq<Step>, k: nat)
    requires Run(tr, steps) && k < |steps| && tr[k].app.c.pc.StopServer?
    ensures AT.Backlog(tr[k + 1].app) + (if AT.TakesMutex(tr[k].app, tr[k + 1].app) then 1 else 0)
         <= AT.Backlog(tr[k].app)
  {
    StreamingAt(tr, steps, k);
    RunKeepsInv(tr, steps, k);
    var one := AppStep(tr[k], steps[k]);
    if one.Some? {
      AT.BacklogShrinks(tr[k].app, one.value);
    }
  }
}
