/** What the session protocol delivers: whom a broadcast serves, and what becomes of a failed write. */
module SessionServing {
  import opened Wrappers
  import opened SessionProtocol
  import opened SessionInvariant
  import opened SessionSteps
  import opened SessionProgress

  // ---------- one broadcast ----------

  /** From the moment behind `start` to the i-th the broadcaster has had the mutex. */
  ghost predicate Casts(tr: seq<State>, start: nat, i: nat)
    requires i < |tr|
  {
    start < i && tr[start].bcast == BLock && forall m :: start < m <= i ==> BcastHolds(tr[m].bcast)
  }

  /** How many of the `n` sessions of the list it is done with asking whether they are OPEN. */
  function Asked(p: BcastPc, n: nat): nat {
    match p
    case BUnlock => n
    case BLoop(i) => i
    case BSend(i) => i
    case BWrite(i) => i + 1
    case BNotify(i) => i + 1
    case BClose(i, _) => i + 1
    case _ => 0
  }

  /** At the m-th moment the broadcaster enters the write to the k-th session of the list. */
  predicate Writes(tr: seq<State>, m: nat, k: nat)
    requires m + 1 < |tr|
  {
    tr[m].bcast == BSend(k) && tr[m + 1].bcast == BWrite(k)
  }

  /** It stands before the session it is going to ask. */
  predicate Asks(tr: seq<State>, steps: seq<Step>, m: nat, k: nat)
    requires m < |tr| && m < |steps|
  {
    tr[m].bcast == BSend(k) && steps[m].BcastStep?
  }

  /** Behind `start`, `times` are the moments at which it read the readyState of each session it has passed,
      in order and once each; it went on to write to the k-th if and only if that read said OPEN; and it
      entered no write but these. */
  ghost predicate Served(tr: seq<State>, steps: seq<Step>, start: nat, i: nat, times: seq<nat>)
    requires i < |tr| == |steps| + 1
  {
    var l := tr[i].list;
    && Casts(tr, start, i) && tr[start].list == l && |times| <= |l|
    && (forall k {:trigger times[k]} :: 0 <= k < |times| ==>
          start < times[k] < i && ServedAt(tr, steps, l, times[k], k))
    && (forall j, k {:trigger times[j], times[k]} :: 0 <= j < k < |times| ==> times[j] < times[k])
    && (forall m: nat, k: nat {:trigger Writes(tr, m, k)} ::
          start <= m < i && Writes(tr, m, k) ==> k < |times| && m == times[k])
  }

  /** The k-th session of `l` was asked at `m`, and written to exactly if it was OPEN. */
  predicate ServedAt(tr: seq<State>, steps: seq<Step>, l: seq<Sid>, m: nat, k: nat)
    requires m < |steps| < |tr| && k < |l|
  {
    Asks(tr, steps, m, k) && (Writes(tr, m, k) <==> Get(tr[m], l[k]).ready == Open)
  }

  /** How a step changes what the broadcaster is at, while it has the mutex. */
  ghost predicate CastFrom(st: State, step: Step, st2: State) {
    && st2.list == st.list
    && (if step.BcastStep?
        then if st.bcast.BSend?
             then Asked(st2.bcast, |st.list|) == st.bcast.i + 1 && Asked(st.bcast, |st.list|) == st.bcast.i < |st.list|
                  && (st2.bcast == BWrite(st.bcast.i) <==> Get(st, At(st.list, st.bcast.i)).ready == Open)
             else !st2.bcast.BWrite? && Asked(st2.bcast, |st.list|) == Asked(st.bcast, |st.list|)
        else st2.bcast == st.bcast)
  }

  lemma CastStep(st: State, step: Step)
    requires Inv(st) && Enabled(st, step) && BcastHolds(st.bcast) && BcastHolds(Do(st, step).bcast)
    ensures CastFrom(st, step, Do(st, step))
  {
    if step.BcastStep? {
      BcastCasts(st, step.wrote);
    }
  }

  lemma BcastCasts(st: State, wrote: WriteResult)
    requires BcastInv(st) && BcastHolds(st.bcast) && st.bcast != BUnlock
    ensures CastFrom(st, BcastStep(wrote), BcastDo(st, wrote))
  {
  }

  lemma CastAt(tr: seq<State>, steps: seq<Step>, k: nat)
    requires Run(tr, steps) && k < |steps| && BcastHolds(tr[k + 1].bcast)
    ensures if BcastHolds(tr[k].bcast) then CastFrom(tr[k], steps[k], tr[k + 1])
            else tr[k].bcast == BLock && tr[k + 1].bcast == BLoop(0) && tr[k + 1].list == tr[k].list
  {
    RunKeepsInv(tr, steps, k);
    assert Stepped(tr, steps, k);
    if BcastHolds(tr[k].bcast) { CastStep(tr[k], steps[k]); }
  }

  lemma ServedNext(tr: seq<State>, steps: seq<Step>, start: nat, i: nat, times: seq<nat>)
    requires i + 1 < |tr| == |steps| + 1 && Served(tr, steps, start, i, times)
    requires |times| == Asked(tr[i].bcast, |tr[i].list|)
    requires BcastHolds(tr[i + 1].bcast) && CastFrom(tr[i], steps[i], tr[i + 1])
    requires !(steps[i].BcastStep? && tr[i].bcast.BSend?)
    ensures Served(tr, steps, start, i + 1, times) && |times| == Asked(tr[i + 1].bcast, |tr[i + 1].list|)
  {
  }

  lemma ServedMore(tr: seq<State>, steps: seq<Step>, start: nat, i: nat, times: seq<nat>)
    requires i + 1 < |tr| == |steps| + 1 && Served(tr, steps, start, i, times)
    requires |times| == Asked(tr[i].bcast, |tr[i].list|)
    requires BcastHolds(tr[i + 1].bcast) && CastFrom(tr[i], steps[i], tr[i + 1])
    requires steps[i].BcastStep? && tr[i].bcast.BSend?
    ensures Served(tr, steps, start, i + 1, times + [i])
    ensures |times + [i]| == Asked(tr[i + 1].bcast, |tr[i + 1].list|)
  {
    assert ServedAt(tr, steps, tr[i].list, i, |times|);
  }

  /** While the broadcaster has the mutex. */
  lemma {:induction false} BroadcastServes(tr: seq<State>, steps: seq<Step>, i: nat)
    returns (start: nat, times: seq<nat>)
    requires Run(tr, steps) && i < |tr| && BcastHolds(tr[i].bcast)
    ensures Served(tr, steps, start, i, times) && |times| == Asked(tr[i].bcast, |tr[i].list|)
    decreases i
  {
    HoldsLate(tr, steps, i);
    CastAt(tr, steps, i - 1);
    if !BcastHolds(tr[i - 1].bcast) {
      return i - 1, [];
    }
    start, times := BroadcastServes(tr, steps, i - 1);
    if steps[i - 1].BcastStep? && tr[i - 1].bcast.BSend? {
      ServedMore(tr, steps, start, i - 1, times);
      times := times + [i - 1];
    } else {
      ServedNext(tr, steps, start, i - 1, times);
    }
  }

  lemma HoldsLate(tr: seq<State>, steps: seq<Step>, i: nat)
    requires Run(tr, steps) && i < |tr| && BcastHolds(tr[i].bcast)
    ensures i > 0
  {
  }

  /** A whole broadcast, from taking the mutex to giving it back: it asked every session of the list, in order
      and once each, whether it is OPEN, and wrote to exactly those that were. */
  lemma BroadcastServesAll(tr: seq<State>, steps: seq<Step>, j: nat) returns (start: nat, times: seq<nat>)
    requires Run(tr, steps) && j < |steps| && BcastHolds(tr[j].bcast) && !BcastHolds(tr[j + 1].bcast)
    ensures Served(tr, steps, start, j, times) && |times| == |tr[j].list|
  {
    start, times := BroadcastServes(tr, steps, j);
    GivesBack(tr, steps, j);
  }

  lemma GivesBack(tr: seq<State>, steps: seq<Step>, j: nat)
    requires Run(tr, steps) && j < |steps| && BcastHolds(tr[j].bcast) && !BcastHolds(tr[j + 1].bcast)
    ensures tr[j].bcast == BUnlock
  {
    assert Stepped(tr, steps, j);
    if steps[j].BcastStep? && BcastTouches(tr[j].bcast) {
      StaysIn(tr[j].bcast, Get(tr[j], At(tr[j].list, tr[j].bcast.i)), steps[j].wrote);
    }
  }

  lemma StaysIn(p: BcastPc, x: Session, wrote: WriteResult)
    requires BcastTouches(p)
    ensures BcastHolds(BcastMove(p, x, wrote).1)
  {
  }

  // ---------- onClose only adds up ----------

  /** Nothing takes back a call of onClose. */
  lemma ClosesGrow(st: State, step: Step, s: Sid)
    requires Inv(st) && Enabled(st, step) && s in st.sess
    ensures s in Do(st, step).sess && st.sess[s].closes <= Do(st, step).sess[s].closes
  {
    match step
    case RunStep =>
    case ServerStep(accepted) => ServerClosesGrow(st, accepted, s);
    case BcastStep(wrote) => BcastClosesGrow(st, wrote, s);
    case StopStep => StopClosesGrow(st, s);
    case SessionStep(r, read) => assert ThreadStep(st.sess[s], read).closes >= st.sess[s].closes;
  }

  lemma ServerClosesGrow(st: State, accepted: Option<Sid>, s: Sid)
    requires s in st.sess && ServerEnabled(st, accepted)
    ensures s in ServerDo(st, accepted).sess && st.sess[s].closes <= ServerDo(st, accepted).sess[s].closes
  {
  }

  lemma BcastClosesGrow(st: State, wrote: WriteResult, s: Sid)
    requires s in st.sess
    ensures s in BcastDo(st, wrote).sess && st.sess[s].closes <= BcastDo(st, wrote).sess[s].closes
  {
  }

  lemma StopClosesGrow(st: State, s: Sid)
    requires s in st.sess
    ensures s in StopDo(st).sess && st.sess[s].closes <= StopDo(st).sess[s].closes
  {
  }

  // ---------- what becomes of a write ----------

  /** Where the broadcaster is with a session `x`, the k-th, whose write failed for good: it calls onClose,
      then is inside close(code), up to its socket.close or past it, and turns to the next session when that
      one is closing or closed. */
  predicate FailingAs(p: BcastPc, x: Session, k: nat, closes: nat, past: bool) {
    || (p == BNotify(k) && x.closes >= closes && !past)
    || (p.BClose? && p.i == k && x.closes > closes && past == Plain(p.c))
    || (p == BLoop(k + 1) && x.closes > closes && Closish(x) && past)
  }

  predicate Failing(st: State, k: nat, s: Sid, closes: nat, past: bool) {
    s in st.sess && At(st.list, k) == s && FailingAs(st.bcast, st.sess[s], k, closes, past)
  }

  /** The broadcaster calls socket.close(code), or finds in the guard of close(code) that the session is
      CLOSED. */
  predicate HangsAs(p: BcastPc, x: Session, k: nat) {
    p == BClose(k, CodeSocket) || (p == BClose(k, CodeCheck) && x.ready == Closed)
  }

  predicate Hangs(st: State, step: Step, k: nat, s: Sid) {
    step.BcastStep? && At(st.list, k) == s && HangsAs(st.bcast, Get(st, s), k)
  }

  lemma FailsOn(p: BcastPc, x: Session, wrote: WriteResult, k: nat, closes: nat, past: bool)
    requires FailingAs(p, x, k, closes, past) && p != BLoop(k + 1) && (p.BClose? ==> CloserOk(x, p.c))
    ensures var (y, q) := BcastMove(p, x, wrote); FailingAs(q, y, k, closes, past || HangsAs(p, x, k))
  {
  }

  lemma FailingByOthers(st: State, step: Step, k: nat, s: Sid, closes: nat, past: bool)
    requires Inv(st) && Enabled(st, step) && Failing(st, k, s, closes, past) && st.bcast != BLoop(k + 1)
    requires !step.BcastStep?
    ensures Failing(Do(st, step), k, s, closes, past)
  {
    ClosesGrow(st, step, s);
    ListStays(st, step);
  }

  /** Nobody changes the list while the broadcaster has the mutex, and nobody else moves the broadcaster. */
  lemma ListStays(st: State, step: Step)
    requires Inv(st) && Enabled(st, step) && BcastHolds(st.bcast)
    ensures Do(st, step).list == st.list && (step.BcastStep? || Do(st, step).bcast == st.bcast)
  {
  }

  lemma FailingGoesOn(st: State, step: Step, k: nat, s: Sid, closes: nat, past: bool)
    requires Inv(st) && Enabled(st, step) && Failing(st, k, s, closes, past) && st.bcast != BLoop(k + 1)
    ensures Failing(Do(st, step), k, s, closes, past || Hangs(st, step, k, s))
  {
    if step.BcastStep? {
      FailsOn(st.bcast, st.sess[s], step.wrote, k, closes, past);
    } else {
      FailingByOthers(st, step, k, s, closes, past);
    }
  }

  /** From a write that failed for good at `i` on: when the broadcaster turns to the next session it has
      called onClose and close(code) for this one, socket.close(code) at `m` unless it was CLOSED by then. */
  lemma {:induction false} WriteFails(tr: seq<State>, steps: seq<Step>, i: nat, j: nat, k: nat)
    returns (past: bool, m: nat)
    requires Run(tr, steps) && i < j < |tr| && tr[i].bcast == BWrite(k) && steps[i] == BcastStep(WriteFatal)
    requires forall n :: i < n < j ==> tr[n].bcast != BLoop(k + 1)
    ensures At(tr[i].list, k) in tr[i].sess
    ensures Failing(tr[j], k, At(tr[i].list, k), tr[i].sess[At(tr[i].list, k)].closes, past)
    ensures past ==> i < m < j && Hangs(tr[m], steps[m], k, At(tr[i].list, k))
    decreases j
  {
    var s := At(tr[i].list, k);
    WriteLive(tr, steps, i, k);
    if j == i + 1 {
      past, m := false, 0;
      FailingBegins(tr, steps, i, k);
    } else {
      past, m := WriteFails(tr, steps, i, j - 1, k);
      FailingAt(tr, steps, j - 1, k, s, tr[i].sess[s].closes, past);
      if Hangs(tr[j - 1], steps[j - 1], k, s) {
        past, m := true, j - 1;
      }
    }
  }

  lemma WriteLive(tr: seq<State>, steps: seq<Step>, i: nat, k: nat)
    requires Run(tr, steps) && i < |tr| && tr[i].bcast == BWrite(k)
    ensures At(tr[i].list, k) in tr[i].sess
  {
    RunKeepsInv(tr, steps, i);
    BcastAt(tr[i]);
  }

  lemma FailingBegins(tr: seq<State>, steps: seq<Step>, i: nat, k: nat)
    requires Run(tr, steps) && i < |steps| && tr[i].bcast == BWrite(k) && steps[i] == BcastStep(WriteFatal)
    requires At(tr[i].list, k) in tr[i].sess
    ensures Failing(tr[i + 1], k, At(tr[i].list, k), tr[i].sess[At(tr[i].list, k)].closes, false)
  {
    assert Stepped(tr, steps, i);
  }

  lemma FailingAt(tr: seq<State>, steps: seq<Step>, n: nat, k: nat, s: Sid, closes: nat, past: bool)
    requires Run(tr, steps) && n < |steps| && Failing(tr[n], k, s, closes, past) && tr[n].bcast != BLoop(k + 1)
    ensures Failing(tr[n + 1], k, s, closes, past || Hangs(tr[n], steps[n], k, s))
  {
    RunKeepsInv(tr, steps, n);
    assert Stepped(tr, steps, n);
    FailingGoesOn(tr[n], steps[n], k, s, closes, past);
  }

  /** After any other write it turns to the next session at once, and does nothing to this one. */
  lemma WriteGoesOn(tr: seq<State>, steps: seq<Step>, i: nat, k: nat)
    requires Run(tr, steps) && i < |steps| && tr[i].bcast == BWrite(k)
    requires steps[i].BcastStep? && steps[i] != BcastStep(WriteFatal)
    ensures tr[i + 1].bcast == BLoop(k + 1) && tr[i + 1].sess == tr[i].sess
  {
    WriteLive(tr, steps, i, k);
    assert Stepped(tr, steps, i);
  }
}
