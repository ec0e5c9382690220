/** A thread that runs a body for as long as a flag is set, and its owner, who starts and stops it. */
module LoopThread {

  datatype Worker =
    | Off         // no joinable thread
    | Test        // while(running)
    | Admitted    // the test has passed
    | Body
    | Ended       // returned, not joined yet

  datatype Owner =
    | Free
    | Spawning    // run has set the flag
    | Joining     // stop(true) has cleared it
    | Aborted     // a thread was assigned over a joinable one

  datatype Event = Raised | Spawned | Cleared | Began | Finished | Stopped

  datatype State = State(running: bool, worker: Worker, owner: Owner, past: seq<Event>)

  datatype Step =
    | Run                 // the owner calls run
    | Spawn
    | Stop(join: bool)    // the owner calls stop
    | Join
    | Clear               // another thread clears the flag
    | Work                // the thread itself

  const INITIAL := State(false, Off, Free, [])

  predicate Enabled(s: State, a: Step) {
    match a
    case Run => s.owner == Free
    case Spawn => s.owner == Spawning
    case Stop(_) => s.owner == Free
    case Join => s.owner == Joining && (s.worker == Off || s.worker == Ended)
    case Clear => s.owner != Aborted
    case Work => s.worker != Off && s.worker != Ended && s.owner != Aborted
  }

  function Do(s: State, a: Step): State
    requires Enabled(s, a)
  {
    match a
    case Run => s.(running := true, owner := Spawning, past := s.past + [Raised])
    case Spawn =>
      if s.worker == Off then s.(worker := Test, owner := Free, past := s.past + [Spawned])
      else s.(owner := Aborted)
    case Stop(join) => s.(running := false, owner := if join then Joining else Free, past := s.past + [Cleared])
    case Join => s.(worker := Off, owner := Free, past := s.past + [Stopped])
    case Clear => s.(running := false, past := s.past + [Cleared])
    case Work =>
      match s.worker
      case Test => s.(worker := if s.running then Admitted else Ended)
      case Admitted => s.(worker := Body, past := s.past + [Began])
      case _ => s.(worker := Test, past := s.past + [Finished])
  }

  /** The i-th step leads from the i-th state to the next. */
  predicate Stepped(run: seq<State>, steps: seq<Step>, i: int)
    requires 0 <= i < |steps| && |run| == |steps| + 1
  {
    Enabled(run[i], steps[i]) && run[i + 1] == Do(run[i], steps[i])
  }

  /** The states of a run from `INITIAL`. */
  predicate IsRun(run: seq<State>, steps: seq<Step>) {
    && |run| == |steps| + 1 && run[0] == INITIAL
    && forall i :: 0 <= i < |steps| ==> Stepped(run, steps, i)
  }

  /** A run up to its last step but one. */
  lemma Shorter(run: seq<State>, steps: seq<Step>)
    requires IsRun(run, steps) && steps != []
    ensures var n := |steps| - 1; IsRun(run[..n + 1], steps[..n]) && Stepped(run, steps, n)
  {
    var n := |steps| - 1;
    var r, before := run[..n + 1], steps[..n];
    forall i | 0 <= i < n ensures Stepped(r, before, i) {
      assert Stepped(run, steps, i);
    }
  }

  predicate Working(e: Event) {
    e == Began || e == Finished
  }

  /** A thread has been spawned, and not joined since. */
  predicate Alive(past: seq<Event>) {
    if past == [] then false
    else
      var before, last := past[..|past| - 1], past[|past| - 1];
      last == Spawned || (last != Stopped && Alive(before))
  }

  /** The flag was cleared and not raised since, or never raised. */
  predicate Down(past: seq<Event>) {
    if past == [] then true
    else
      var before, last := past[..|past| - 1], past[|past| - 1];
      last == Cleared || (last != Raised && Down(before))
  }

  /** How often `e` happened since the flag went down; none if it is up. */
  function Since(past: seq<Event>, e: Event): nat {
    if past == [] then 0
    else
      var before, last := past[..|past| - 1], past[|past| - 1];
      if last == Raised then 0
      else Since(before, e) + if last == e && Down(before) then 1 else 0
  }

  /** Bodies only begin and finish in a live thread. */
  ghost predicate OnlyAlive(past: seq<Event>) {
    forall j {:trigger past[j]} :: 0 <= j < |past| && Working(past[j]) ==> Alive(past[..j])
  }

  /** At no point had more than one body begun, or more than one finished, since the flag went down. */
  ghost predicate Bounded(past: seq<Event>) {
    forall m {:trigger past[..m]} :: 0 <= m <= |past| ==>
      Since(past[..m], Began) <= 1 && Since(past[..m], Finished) <= 1
  }

  ghost predicate Inv(s: State) {
    && s.running == !Down(s.past)
    && (s.owner == Joining ==> !s.running)
    && Alive(s.past) == (s.worker != Off)
    && OnlyAlive(s.past) && Bounded(s.past)
    && Since(s.past, Began) + (if s.worker == Admitted && !s.running then 1 else 0) <= 1
    && Since(s.past, Finished)
       + (if (s.worker == Admitted || s.worker == Body) && !s.running then 1 else 0) <= 1
  }

  lemma Append(past: seq<Event>, e: Event)
    requires OnlyAlive(past) && (Working(e) ==> Alive(past))
    ensures OnlyAlive(past + [e])
    ensures Alive(past + [e]) == (e == Spawned || (e != Stopped && Alive(past)))
    ensures Down(past + [e]) == (e == Cleared || (e != Raised && Down(past)))
    ensures forall f :: Since(past + [e], f) ==
                        (if e == Raised then 0 else Since(past, f) + if e == f && Down(past) then 1 else 0)
  {
    var more := past + [e];
    assert more[..|more| - 1] == past;
    forall j {:trigger more[j]} | 0 <= j < |more| && Working(more[j])
      ensures Alive(more[..j])
    {
      assert more[..j] == past[..j];
      if j < |past| { assert past[j] == more[j]; } else { assert past[..j] == past; }
    }
  }

  lemma AppendBounded(past: seq<Event>, e: Event)
    requires Bounded(past) && Since(past + [e], Began) <= 1 && Since(past + [e], Finished) <= 1
    ensures Bounded(past + [e])
  {
    var more := past + [e];
    forall m {:trigger more[..m]} | 0 <= m <= |more|
      ensures Since(more[..m], Began) <= 1 && Since(more[..m], Finished) <= 1
    {
      if m <= |past| { assert more[..m] == past[..m]; } else { assert more[..m] == more; }
    }
  }

  /** While the flag is up the counts are nought. */
  lemma {:induction false} UpCounts(past: seq<Event>, e: Event)
    requires !Down(past)
    ensures Since(past, e) == 0
  {
    if past[|past| - 1] != Raised { UpCounts(past[..|past| - 1], e); }
  }

  lemma StepKeepsInv(s: State, a: Step)
    requires Inv(s) && Enabled(s, a)
    ensures Inv(Do(s, a))
  {
    match a
    case Run => Append(s.past, Raised); AppendBounded(s.past, Raised);
    case Spawn => if s.worker == Off { Append(s.past, Spawned); AppendBounded(s.past, Spawned); }
    case Stop(_) => ClearKeepsInv(s);
    case Join => Append(s.past, Stopped); AppendBounded(s.past, Stopped);
    case Clear => ClearKeepsInv(s);
    case Work => WorkKeepsInv(s);
  }

  lemma WorkKeepsInv(s: State)
    requires Inv(s) && Enabled(s, Work)
    ensures Inv(Do(s, Work))
  {
    if !Down(s.past) {
      UpCounts(s.past, Began);
      UpCounts(s.past, Finished);
    }
    match s.worker
    case Test =>
    case Admitted => Append(s.past, Began); AppendBounded(s.past, Began);
    case _ => Append(s.past, Finished); AppendBounded(s.past, Finished);
  }

  lemma ClearKeepsInv(s: State)
    requires Inv(s)
    ensures Inv(s.(running := false, past := s.past + [Cleared]))
  {
    Append(s.past, Cleared);
    if !Down(s.past) {
      UpCounts(s.past, Began);
      UpCounts(s.past, Finished);
    }
    AppendBounded(s.past, Cleared);
  }

  lemma {:induction false} RunKeepsInv(run: seq<State>, steps: seq<Step>)
    requires IsRun(run, steps)
    ensures Inv(run[|steps|])
  {
    if steps != [] {
      var n := |steps| - 1;
      Shorter(run, steps);
      RunKeepsInv(run[..n + 1], steps[..n]);
      StepKeepsInv(run[n], steps[n]);
    }
  }

  /** Strictly between `i` and `j` there is no `e`. */
  predicate None(past: seq<Event>, e: Event, i: int, j: int)
    requires 0 <= i && j <= |past|
  {
    forall k :: i < k < j ==> past[k] != e
  }

  lemma {:induction false} StaysJoined(past: seq<Event>, i: nat, j: nat)
    requires i < j <= |past| && past[i] == Stopped && None(past, Spawned, i, j)
    ensures !Alive(past[..j])
  {
    var p := past[..j];
    assert p[..j - 1] == past[..j - 1];
    if i < j - 1 { StaysJoined(past, i, j - 1); }
  }

  /** After stop(true) has returned, no body begins, finishes or is in progress until a thread is
      spawned again. */
  lemma NothingRunsAfterStop(run: seq<State>, steps: seq<Step>, i: nat)
    requires IsRun(run, steps)
    requires var past := run[|steps|].past; i < |past| && past[i] == Stopped
    ensures var past := run[|steps|].past;
            && (None(past, Spawned, i, |past|) ==> run[|steps|].worker == Off)
            && forall j :: i < j < |past| && Working(past[j]) ==> !None(past, Spawned, i, j)
  {
    RunKeepsInv(run, steps);
    var past := run[|steps|].past;
    assert past[..|past|] == past;
    if None(past, Spawned, i, |past|) { StaysJoined(past, i, |past|); }
    forall j | i < j < |past| && Working(past[j])
      ensures !None(past, Spawned, i, j)
    {
      if None(past, Spawned, i, j) { StaysJoined(past, i, j); }
    }
  }

  lemma {:induction false} SinceCounts(past: seq<Event>, i: nat, e: Event, j: nat, k: nat)
    requires i < j < k < |past| && past[i] == Cleared && None(past, Raised, i, |past|)
    requires past[j] == e && past[k] == e && e != Raised
    ensures Since(past, e) >= 2
  {
    var before := past[..|past| - 1];
    if k < |before| { SinceCounts(before, i, e, j, k); }
    else {
      StaysDown(before, i);
      SinceCountsOne(before, i, e, j);
    }
  }

  lemma {:induction false} SinceCountsOne(past: seq<Event>, i: nat, e: Event, j: nat)
    requires i < j < |past| && past[i] == Cleared && None(past, Raised, i, |past|) && past[j] == e && e != Raised
    ensures Since(past, e) >= 1
  {
    var before := past[..|past| - 1];
    if j < |before| { SinceCountsOne(before, i, e, j); } else { StaysDown(before, i); }
  }

  lemma {:induction false} StaysDown(past: seq<Event>, i: nat)
    requires i < |past| && past[i] == Cleared && None(past, Raised, i, |past|)
    ensures Down(past)
  {
    if i < |past| - 1 { StaysDown(past[..|past| - 1], i); }
  }

  /** Once the flag has been cleared, at most one body begins, and at most one finishes, before the flag
      is raised again. */
  lemma OneMoreAtMost(run: seq<State>, steps: seq<Step>, i: nat, j: nat, k: nat)
    requires IsRun(run, steps)
    requires var past := run[|steps|].past;
             i < j < k < |past| && past[i] == Cleared && Working(past[j]) && past[j] == past[k]
    ensures !None(run[|steps|].past, Raised, i, k)
  {
    RunKeepsInv(run, steps);
    OnceOnly(run[|steps|].past, i, j, k);
  }

  lemma OnceOnly(past: seq<Event>, i: nat, j: nat, k: nat)
    requires Bounded(past) && i < j < k < |past| && past[i] == Cleared && Working(past[j]) && past[j] == past[k]
    ensures !None(past, Raised, i, k)
  {
    if None(past, Raised, i, k) {
      var p := past[..k + 1];
      SinceCounts(p, i, past[j], j, k);
    }
  }

  /** `n` calls of stop(true) in a row, from call to return. */
  function Stops(n: nat): seq<Step> {
    if n == 0 then [] else Stops(n - 1) + [Stop(true), Join]
  }

  /** The state after `steps`, if each of them could be taken. */
  predicate Leads(s: State, steps: seq<Step>, t: State)
    decreases |steps|
  {
    if steps == [] then s == t
    else Enabled(s, steps[0]) && Leads(Do(s, steps[0]), steps[1..], t)
  }

  lemma {:induction false} LeadsOn(s: State, steps: seq<Step>, t: State, a: Step)
    requires Leads(s, steps, t) && Enabled(t, a)
    ensures Leads(s, steps + [a], Do(t, a))
    decreases |steps|
  {
    if steps == [] {
      assert (steps + [a])[1..] == [];
    } else {
      assert (steps + [a])[1..] == steps[1..] + [a];
      LeadsOn(Do(s, steps[0]), steps[1..], t, a);
    }
  }

  function Record(n: nat): seq<Event> {
    if n == 0 then [] else Record(n - 1) + [Cleared, Stopped]
  }

  /** However often a stopped thread is stopped again, no call blocks and nothing changes but the record
      of the calls. */
  lemma {:induction false} StopsAreIdempotent(s: State, n: nat)
    requires s.owner == Free && s.worker == Off && !s.running
    ensures Leads(s, Stops(n), s.(past := s.past + Record(n)))
  {
    if n == 0 {
      assert s.past + [] == s.past;
    } else {
      StopsAreIdempotent(s, n - 1);
      var t := s.(past := s.past + Record(n - 1));
      LeadsOn(s, Stops(n - 1), t, Stop(true));
      LeadsOn(s, Stops(n - 1) + [Stop(true)], Do(t, Stop(true)), Join);
      assert Stops(n - 1) + [Stop(true)] + [Join] == Stops(n);
      assert s.past + Record(n - 1) + [Cleared] + [Stopped] == s.past + Record(n);
    }
  }

  /** How many steps of its own the thread can still take with the flag down. */
  function Left(w: Worker): nat {
    match w
    case Admitted => 3
    case Body => 2
    case Test => 1
    case _ => 0
  }

  /** While the owner joins, the thread only comes nearer to its end, and nobody else moves it away;
      when no step is left the join returns. */
  lemma JoinNearsItsEnd(s: State, a: Step)
    requires Inv(s) && s.owner == Joining && Enabled(s, a)
    ensures a == Work ==> Left(Do(s, a).worker) < Left(s.worker)
    ensures a != Work ==> a == Join || Do(s, a).worker == s.worker
    ensures Do(s, a).owner == if a == Join then Free else Joining
    ensures Enabled(s, Join) <==> Left(s.worker) == 0
  {
  }

  // ---------- a started thread runs its body ----------

  /** The flag was cleared after its last raise before the current thread's start. */
  predicate Told(past: seq<Event>) {
    if past == [] then false
    else
      var before, last := past[..|past| - 1], past[|past| - 1];
      match last
      case Cleared => true
      case Stopped => false
      case Raised => Alive(before) && Told(before)
      case Spawned => !Alive(before) && Told(before)
      case _ => Told(before)
  }

  /** A thread nobody told to end, or one about to be started that nobody did, finds the flag up. */
  ghost predicate ToldInv(s: State) {
    && Inv(s)
    && (s.worker == Ended ==> Told(s.past))
    && ((s.worker != Off || s.owner == Spawning) && !Told(s.past) ==> s.running)
  }

  lemma ToldAppend(past: seq<Event>, e: Event)
    ensures Told(past + [e]) == match e
                                case Cleared => true
                                case Stopped => false
                                case Raised => Alive(past) && Told(past)
                                case Spawned => !Alive(past) && Told(past)
                                case _ => Told(past)
  {
    assert (past + [e])[..|past|] == past;
  }

  lemma StepKeepsTold(s: State, a: Step)
    requires ToldInv(s) && Enabled(s, a)
    ensures ToldInv(Do(s, a))
  {
    StepKeepsInv(s, a);
    var t := Do(s, a);
    if t.past != s.past {
      assert t.past == s.past + [t.past[|s.past|]];
      ToldAppend(s.past, t.past[|s.past|]);
    }
  }

  lemma {:induction false} RunKeepsTold(run: seq<State>, steps: seq<Step>)
    requires IsRun(run, steps)
    ensures ToldInv(run[|steps|])
  {
    if steps != [] {
      var n := |steps| - 1;
      Shorter(run, steps);
      RunKeepsTold(run[..n + 1], steps[..n]);
      StepKeepsTold(run[n], steps[n]);
    }
  }

  /** Where the current thread was started, and where it was told to end. */
  lemma {:induction false} ToldWhere(past: seq<Event>) returns (p: nat, c: nat)
    requires Alive(past) && Told(past)
    ensures p < |past| && past[p] == Spawned && None(past, Spawned, p, |past|) && None(past, Stopped, p, |past|)
    ensures c < |past| && past[c] == Cleared && (c < p ==> None(past, Raised, c, p))
  {
    var n := |past| - 1;
    var before, last := past[..n], past[n];
    if last == Cleared {
      p := StartedWhere(before);
      c := n;
    } else if last == Spawned {
      p := n;
      c := ClearedWhere(before);
    } else {
      p, c := ToldWhere(before);
    }
  }

  lemma {:induction false} StartedWhere(past: seq<Event>) returns (p: nat)
    requires Alive(past)
    ensures p < |past| && past[p] == Spawned && None(past, Spawned, p, |past|) && None(past, Stopped, p, |past|)
  {
    var n := |past| - 1;
    if past[n] == Spawned {
      p := n;
    } else {
      p := StartedWhere(past[..n]);
    }
  }

  lemma {:induction false} ClearedWhere(past: seq<Event>) returns (c: nat)
    requires Told(past) && !Alive(past)
    ensures c < |past| && past[c] == Cleared && None(past, Raised, c, |past|)
  {
    var n := |past| - 1;
    if past[n] == Cleared {
      c := n;
    } else {
      c := ClearedWhere(past[..n]);
    }
  }

  /** A thread that has ended was started, and told to end: the flag was cleared, after the start or between
      the last raise before it and the start. */
  lemma EndsOnlyWhenTold(run: seq<State>, steps: seq<Step>) returns (p: nat, c: nat)
    requires IsRun(run, steps) && run[|steps|].worker == Ended
    ensures var past := run[|steps|].past;
      && p < |past| && past[p] == Spawned && None(past, Spawned, p, |past|) && None(past, Stopped, p, |past|)
      && c < |past| && past[c] == Cleared && (c < p ==> None(past, Raised, c, p))
  {
    RunKeepsTold(run, steps);
    p, c := ToldWhere(run[|steps|].past);
  }

  /** How often `e` is in the record. */
  function Count(past: seq<Event>, e: Event): nat {
    if past == [] then 0
    else Count(past[..|past| - 1], e) + if past[|past| - 1] == e then 1 else 0
  }

  /** How many steps the thread takes from the i-th to before the j-th. */
  function Works(steps: seq<Step>, i: nat, j: nat): nat
    requires i <= j <= |steps|
    decreases j
  {
    if i == j then 0 else Works(steps, i, j - 1) + if steps[j - 1] == Work then 1 else 0
  }

  /** How far the thread is in a round of test, begin and finish. */
  function Phase(w: Worker): nat {
    match w
    case Admitted => 1
    case Body => 2
    case _ => 0
  }

  predicate Running(s: State) {
    s.running && (s.worker == Test || s.worker == Admitted || s.worker == Body)
  }

  lemma CountAppend(past: seq<Event>, e: Event, f: Event)
    ensures Count(past + [e], f) == Count(past, f) + if e == f then 1 else 0
  {
    assert (past + [e])[..|past|] == past;
  }

  lemma WorkCounts(s: State, a: Step)
    requires Enabled(s, a) && Running(s) && Do(s, a).running
    ensures Running(Do(s, a))
    ensures 3 * Count(Do(s, a).past, Finished) + Phase(Do(s, a).worker)
         == 3 * Count(s.past, Finished) + Phase(s.worker) + if a == Work then 1 else 0
    ensures 3 * Count(Do(s, a).past, Began) + (Phase(Do(s, a).worker) + 1) % 3
         == 3 * Count(s.past, Began) + (Phase(s.worker) + 1) % 3 + if a == Work then 1 else 0
  {
    var t := Do(s, a);
    if t.past != s.past {
      var e := t.past[|s.past|];
      assert t.past == s.past + [e];
      CountAppend(s.past, e, Finished);
      CountAppend(s.past, e, Began);
    }
  }

  lemma GoesOn(run: seq<State>, steps: seq<Step>, k: nat)
    requires IsRun(run, steps) && k < |steps| && Running(run[k]) && run[k + 1].running
    ensures Running(run[k + 1])
    ensures var w := if steps[k] == Work then 1 else 0;
      && 3 * Count(run[k + 1].past, Finished) + Phase(run[k + 1].worker)
         == 3 * Count(run[k].past, Finished) + Phase(run[k].worker) + w
      && 3 * Count(run[k + 1].past, Began) + (Phase(run[k + 1].worker) + 1) % 3
         == 3 * Count(run[k].past, Began) + (Phase(run[k].worker) + 1) % 3 + w
  {
    assert Stepped(run, steps, k);
    WorkCounts(run[k], steps[k]);
  }

  /** While the flag stays up a live thread stays alive, and its steps go round: test, begin, finish. */
  lemma {:induction false} GoesRound(run: seq<State>, steps: seq<Step>, i: nat, j: nat)
    requires IsRun(run, steps) && i <= j <= |steps| && Running(run[i])
    requires forall k :: i <= k <= j ==> run[k].running
    ensures Running(run[j])
    ensures 3 * Count(run[j].past, Finished) + Phase(run[j].worker)
         == 3 * Count(run[i].past, Finished) + Phase(run[i].worker) + Works(steps, i, j)
    ensures 3 * Count(run[j].past, Began) + (Phase(run[j].worker) + 1) % 3
         == 3 * Count(run[i].past, Began) + (Phase(run[i].worker) + 1) % 3 + Works(steps, i, j)
    decreases j
  {
    if i < j {
      GoesRound(run, steps, i, j - 1);
      GoesOn(run, steps, j - 1);
    }
  }

  /** So any three steps of the thread in a row, whatever the others do between them, begin exactly one body
      and finish exactly one. */
  lemma OneBodyInThree(run: seq<State>, steps: seq<Step>, i: nat, j: nat)
    requires IsRun(run, steps) && i <= j <= |steps| && Running(run[i])
    requires (forall k :: i <= k <= j ==> run[k].running) && Works(steps, i, j) == 3
    ensures Count(run[j].past, Began) == Count(run[i].past, Began) + 1
    ensures Count(run[j].past, Finished) == Count(run[i].past, Finished) + 1
  {
    GoesRound(run, steps, i, j);
  }

  // ---------- every call does its part ----------

  /** How many calls there were of run, of what clears the flag, and of stop(true). */
  datatype Tally = Tally(runs: nat, clears: nat, joins: nat)

  function Calls(steps: seq<Step>): Tally {
    if steps == [] then Tally(0, 0, 0) else Add(Calls(steps[..|steps| - 1]), steps[|steps| - 1])
  }

  function Add(t: Tally, a: Step): Tally {
    match a
    case Run => t.(runs := t.runs + 1)
    case Stop(join) => t.(clears := t.clears + 1, joins := if join then t.joins + 1 else t.joins)
    case Clear => t.(clears := t.clears + 1)
    case _ => t
  }

  ghost predicate Accounted(s: State, t: Tally) {
    && t.runs == Count(s.past, Raised)
    && t.runs == Count(s.past, Spawned) + (if s.owner == Spawning || s.owner == Aborted then 1 else 0)
    && t.clears == Count(s.past, Cleared)
    && t.joins == Count(s.past, Stopped) + (if s.owner == Joining then 1 else 0)
    && (s.owner == Aborted ==> Alive(s.past))
  }

  lemma AccountStep(s: State, a: Step, t: Tally)
    requires Inv(s) && Enabled(s, a) && Accounted(s, t)
    ensures Accounted(Do(s, a), Add(t, a))
  {
    Recorded(s, a);
    AbortsAlive(s, a);
  }

  lemma Recorded(s: State, a: Step)
    requires Inv(s) && Enabled(s, a)
    ensures var t := Do(s, a);
            if t.past == s.past then true
            else forall e {:trigger Count(t.past, e)} ::
                   Count(t.past, e) == Count(s.past, e) + if t.past[|s.past|] == e then 1 else 0
  {
    var t := Do(s, a);
    if t.past != s.past {
      var e := t.past[|s.past|];
      assert t.past == s.past + [e];
      forall f ensures Count(t.past, f) == Count(s.past, f) + if e == f then 1 else 0 {
        CountAppend(s.past, e, f);
      }
    }
  }

  /** Each call of run raises the flag and, once it has returned, has started a thread, but for one over a
      thread not joined; each call of stop, and each other thread's, clears the flag; each call of stop(true)
      that has returned has joined. */
  lemma {:induction false} EachCallCounts(run: seq<State>, steps: seq<Step>)
    requires IsRun(run, steps)
    ensures Accounted(run[|steps|], Calls(steps))
  {
    if steps != [] {
      var n := |steps| - 1;
      Shorter(run, steps);
      EachCallCounts(run[..n + 1], steps[..n]);
      RunKeepsInv(run[..n + 1], steps[..n]);
      AccountStep(run[n], steps[n], Calls(steps[..n]));
    }
  }

  lemma AbortsAlive(s: State, a: Step)
    requires Inv(s) && Enabled(s, a) && (s.owner == Aborted ==> Alive(s.past))
    ensures Do(s, a).owner == Aborted ==> Alive(Do(s, a).past)
  {
    if s.owner == Spawning && a == Clear {
      Append(s.past, Cleared);
    }
  }
}
