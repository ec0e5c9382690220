/** What the clean-up of the session list takes out, with the sessions' states changing meanwhile. */
module SessionClearup {
  import opened Wrappers
  import opened SessionProtocol
  import opened SessionInvariant
  import opened SessionSteps
  import Clearup

  /** What the read at time `times[k]` said about the k-th session of the list. */
  ghost function Reads(tr: seq<State>, times: seq<nat>, l: seq<Sid>): seq<bool>
    requires |times| <= |l| && forall k :: 0 <= k < |times| ==> times[k] < |tr|
  {
    seq(|times|, k requires 0 <= k < |times| => Get(tr[times[k]], l[k]).ready == Closed)
  }

  /** Behind the moment `start` at which the clean-up took the mutex, `times` are the moments at which it
      read the state of each session it has passed, in order and once each; what it kept and took out so
      far is the stable partition by these reads of the list it found. */
  ghost predicate Partitioned(tr: seq<State>, i: nat, start: nat, times: seq<nat>)
    requires i < |tr| && Scanning(tr[i].server)
  {
    var p, l := tr[i].server, tr[i].list;
    && Scans(tr, start, i) && tr[start].list == l
    && |times| == p.i <= |l|
    && ReadsAt(tr, i, start, times)
    && p.kept == Clearup.Select(l, Reads(tr, times, l), false, p.i)
    && p.doomed == Clearup.Select(l, Reads(tr, times, l), true, p.i)
  }

  /** One clean-up, from taking the mutex on. */
  ghost predicate Scans(tr: seq<State>, start: nat, i: nat)
    requires i < |tr|
  {
    start < i && tr[start].server == SCleanLock && forall m :: start < m <= i ==> Scanning(tr[m].server)
  }

  ghost predicate ReadsAt(tr: seq<State>, i: nat, start: nat, times: seq<nat>)
    requires i < |tr|
  {
    && (forall k :: 0 <= k < |times| ==>
          start < times[k] < i && tr[times[k]].server.SJudge? && tr[times[k]].server.i == k)
    && (forall j, k :: 0 <= j < k < |times| ==> times[j] < times[k])
  }

  lemma {:induction false} SelectPrefix(l: seq<Sid>, closed: seq<bool>, more: seq<bool>, want: bool, n: nat)
    requires n <= |closed| <= |l| && closed <= more
    ensures Clearup.Select(l, more, want, n) == Clearup.Select(l, closed, want, n)
  {
    if n > 0 {
      SelectPrefix(l, closed, more, want, n - 1);
    }
  }

  predicate Scanning(p: ServerPc) {
    p.SScan? || p.SJudge?
  }

  /** How a state in which a clean-up scans the list comes out of `st`. */
  ghost predicate ScanFrom(st: State, st2: State) {
    var p, q := st.server, st2.server;
    && Scanning(q)
    && (|| (p == SCleanLock && q == SScan(0, [], []) && st2.list == st.list)
        || (Scanning(p) && st2.list == st.list && q.i == p.i && q.kept == p.kept && q.doomed == p.doomed)
        || (&& p.SJudge? && p.i < |st.list| && st2.list == st.list
            && (var s := st.list[p.i];
                q == if Get(st, s).ready == Closed then SScan(p.i + 1, p.kept, p.doomed + [s])
                     else SScan(p.i + 1, p.kept + [s], p.doomed))))
  }

  lemma ServerScans(st: State, accepted: Option<Sid>)
    requires ServerInv(st) && Scanning(ServerDo(st, accepted).server)
    ensures ScanFrom(st, ServerDo(st, accepted))
  {
  }

  lemma ScanStep(st: State, step: Step)
    requires Inv(st) && Enabled(st, step) && Scanning(Do(st, step).server)
    ensures ScanFrom(st, Do(st, step))
  {
    match step
    case ServerStep(accepted) => ServerScans(st, accepted);
    case _ =>
  }

  lemma ReadsNext(tr: seq<State>, i: nat, start: nat, times: seq<nat>)
    requires i + 1 < |tr| && tr[i].server.SJudge? && tr[i].server.i == |times| && start < i
    requires ReadsAt(tr, i, start, times)
    ensures ReadsAt(tr, i + 1, start, times + [i])
  {
  }

  lemma PartitionNext(tr: seq<State>, i: nat, start: nat, times: seq<nat>)
    requires i + 1 < |tr| && tr[i].server.SJudge? && Scanning(tr[i + 1].server) && Partitioned(tr, i, start, times)
    requires tr[i].server.i < |tr[i].list| && tr[i + 1].list == tr[i].list
    requires var s, p := tr[i].list[tr[i].server.i], tr[i].server;
      tr[i + 1].server == if Get(tr[i], s).ready == Closed then SScan(p.i + 1, p.kept, p.doomed + [s])
                          else SScan(p.i + 1, p.kept + [s], p.doomed)
    ensures Partitioned(tr, i + 1, start, times + [i])
  {
    var l := tr[i].list;
    ReadsNext(tr, i, start, times);
    var before, after := Reads(tr, times, l), Reads(tr, times + [i], l);
    assert after[..|before|] == before;
    SelectPrefix(l, before, after, false, |before|);
    SelectPrefix(l, before, after, true, |before|);
  }

  lemma PartitionSame(tr: seq<State>, i: nat, start: nat, times: seq<nat>)
    requires i + 1 < |tr| && Scanning(tr[i].server) && Scanning(tr[i + 1].server) && Partitioned(tr, i, start, times)
    requires tr[i + 1].list == tr[i].list && tr[i + 1].server.i == tr[i].server.i
    requires tr[i + 1].server.kept == tr[i].server.kept && tr[i + 1].server.doomed == tr[i].server.doomed
    ensures Partitioned(tr, i + 1, start, times)
  {
  }

  lemma RunScans(tr: seq<State>, steps: seq<Step>, i: nat)
    requires Run(tr, steps) && i < |tr| && Scanning(tr[i].server)
    ensures i > 0 && ScanFrom(tr[i - 1], tr[i])
  {
    RunKeepsInv(tr, steps, i - 1);
    assert Stepped(tr, steps, i - 1);
    ScanStep(tr[i - 1], steps[i - 1]);
  }

  /** While a clean-up scans the list. */
  lemma {:induction false} ClearupPartitions(tr: seq<State>, steps: seq<Step>, i: nat)
    returns (start: nat, times: seq<nat>)
    requires Run(tr, steps) && i < |tr| && Scanning(tr[i].server)
    ensures Partitioned(tr, i, start, times)
    decreases i
  {
    RunScans(tr, steps, i);
    if tr[i - 1].server == SCleanLock {
      return i - 1, [];
    }
    start, times := ClearupPartitions(tr, steps, i - 1);
    if tr[i].server.i == tr[i - 1].server.i {
      PartitionSame(tr, i - 1, start, times);
    } else {
      PartitionNext(tr, i - 1, start, times);
      times := times + [i - 1];
    }
  }

  // ---------- what it leaves behind ----------

  /** The scan that ends in `last` found every session of the list once; the list is what survived these
      reads, `doomed` what did not. */
  ghost predicate Result(tr: seq<State>, last: nat, start: nat, times: seq<nat>, list: seq<Sid>, doomed: seq<Sid>)
    requires start < |tr| && last < |tr|
  {
    var l := tr[start].list;
    && Scans(tr, start, last)
    && |times| == |l| && ReadsAt(tr, last, start, times)
    && list == Clearup.Survivors(l, Reads(tr, times, l))
    && doomed == Clearup.Removed(l, Reads(tr, times, l))
  }

  predicate Cleaning(p: ServerPc) {
    p.SCleanUnlock? || p.SFree?
  }

  /** How a state in which a clean-up has scanned the list, or has let go of the mutex as well, comes out
      of `st`: the list was written back, or nothing happened to it and `toFree`, or `toFree` shrinks. */
  ghost predicate CleanFrom(st: State, st2: State) {
    var p, q := st.server, st2.server;
    && (q.SCleanUnlock? ==>
          || (p.SScan? && p.i == |st.list| && st2.list == p.kept && q.doomed == p.doomed)
          || (p == q && st2.list == st.list))
    && (q.SFree? ==>
          || (p.SCleanUnlock? && st2.list == st.list && q.doomed == p.doomed)
          || (p == q && st2.list == st.list)
          || p.SDel?)
  }

  lemma ServerCleans(st: State, accepted: Option<Sid>)
    requires ServerInv(st)
    ensures CleanFrom(st, ServerDo(st, accepted))
  {
  }

  lemma CleanStep(st: State, step: Step)
    requires Inv(st) && Enabled(st, step)
    ensures CleanFrom(st, Do(st, step))
  {
    match step
    case ServerStep(accepted) => ServerCleans(st, accepted);
    case _ =>
  }

  lemma RunCleans(tr: seq<State>, steps: seq<Step>, i: nat)
    requires Run(tr, steps) && i < |tr| && Cleaning(tr[i].server)
    ensures i > 0 && CleanFrom(tr[i - 1], tr[i])
  {
    RunKeepsInv(tr, steps, i - 1);
    assert Stepped(tr, steps, i - 1);
    CleanStep(tr[i - 1], steps[i - 1]);
  }

  /** No session was deleted yet since the mutex was given back. */
  ghost predicate JustCleaned(tr: seq<State>, i: nat, from: nat)
    requires i < |tr|
  {
    from <= i && tr[from].server.SCleanUnlock? && forall m :: from <= m <= i ==> Cleaning(tr[m].server)
  }

  /** The list a clean-up writes back, and the sessions it is going to delete, until the first delete. */
  lemma {:induction false} ClearupResult(tr: seq<State>, steps: seq<Step>, i: nat, from: nat)
    returns (last: nat, start: nat, times: seq<nat>)
    requires Run(tr, steps) && i < |tr| && JustCleaned(tr, i, from)
    ensures start < |tr| && last < i && Result(tr, last, start, times, tr[i].list, tr[i].server.doomed)
    decreases i
  {
    RunCleans(tr, steps, i);
    if tr[i - 1].server.SScan? {
      last := i - 1;
      start, times := ClearupPartitions(tr, steps, last);
    } else {
      if from == i {
        assert JustCleaned(tr, i - 1, i - 1);
        last, start, times := ClearupResult(tr, steps, i - 1, i - 1);
      } else {
        last, start, times := ClearupResult(tr, steps, i - 1, from);
      }
    }
  }
}
