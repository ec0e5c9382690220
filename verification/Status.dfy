/** The main loop, which writes the application's state to the status file when it sees it change. */
module Status {
  import Streaming
  import Application

  type StreamState = Streaming.StreamState
  type Event = Application.Event

  /** What one iteration meets: other threads change the state, so its three reads of it may differ;
      `good` tells whether the file can be opened. */
  datatype Round = Round(compared: StreamState, kept: StreamState, written: StreamState, good: bool)

  /** What the loop remembers between iterations. */
  datatype Memo = Memo(s: StreamState, hasUpdate: bool, file: StreamState)

  const START := Memo(Streaming.STOPPED, false, Streaming.STOPPED)

  function Update(m: Memo, written: StreamState, good: bool): Memo {
    if !m.hasUpdate then m else m.(hasUpdate := false, file := if good then written else m.file)
  }

  function Next(m: Memo, r: Round): Memo {
    Update(if m.s != r.compared then m.(s := r.kept, hasUpdate := true) else m, r.written, r.good)
  }

  function After(rs: seq<Round>): Memo {
    if rs == [] then START else Next(After(rs[..|rs| - 1]), rs[|rs| - 1])
  }

  class MainLoop {
    var s: StreamState          // the loop's local copy
    var hasUpdate: bool
    var file: StreamState       // what the status file says

    function Contents(): Memo
      reads this
    {
      Memo(s, hasUpdate, file)
    }

    /** The constructor asks for an update, and main starts with one. */
    constructor (state: StreamState)
      requires state == Streaming.STOPPED
      ensures Contents() == START
    {
      s, hasUpdate, file := state, true, state;
      new;
      UpdateStatusFile(state, true);
    }

    method UpdateStatusFile(state: StreamState, good: bool)
      modifies this
      ensures Contents() == Update(old(Contents()), state, good)
    {
      if !hasUpdate { return; }
      hasUpdate := false;
      if good { file := state; }
    }

    method Iteration(r: Round)
      modifies this
      ensures Contents() == Next(old(Contents()), r)
      ensures old(!hasUpdate) && old(s) == r.compared ==> Contents() == old(Contents())
      ensures old(s) != r.compared ==> s == r.kept && file == (if r.good then r.written else old(file))
      ensures !hasUpdate
    {
      if s != r.compared {
        s := r.kept;
        hasUpdate := true;
      }
      UpdateStatusFile(r.written, r.good);
    }

    /** The end of the process with code 0. */
    method Exit(state: StreamState, good: bool)
      modifies this
      ensures Contents() == Update(old(Contents()).(hasUpdate := true), state, good)
    {
      hasUpdate := true;
      UpdateStatusFile(state, good);
    }
  }

  /** What happens during one iteration of the main loop: before it compares the state, between that and
      its assignment, and between that and the write. */
  datatype Tick = Tick(first: seq<Event>, second: seq<Event>, third: seq<Event>, good: bool)

  /** What has happened when `n` iterations are over. */
  function EventsOf(ts: seq<Tick>, n: nat): seq<Event>
    requires n <= |ts|
  {
    if n == 0 then [] else EventsOf(ts, n - 1) + ts[n - 1].first + ts[n - 1].second + ts[n - 1].third
  }

  /** What the n-th iteration reads. */
  function RoundAt(ts: seq<Tick>, n: nat): Round
    requires n < |ts|
  {
    var compared := EventsOf(ts, n) + ts[n].first;
    var kept := compared + ts[n].second;
    Round(Application.Outcomes(compared), Application.Outcomes(kept),
          Application.Outcomes(kept + ts[n].third), ts[n].good)
  }

  function Rounds(ts: seq<Tick>, n: nat): (rs: seq<Round>)
    requires n <= |ts|
    ensures |rs| == n
  {
    seq(n, k requires 0 <= k < n => RoundAt(ts, k))
  }

  lemma TickNext(ts: seq<Tick>, n: nat)
    requires n < |ts|
    ensures After(Rounds(ts, n + 1)) == Next(After(Rounds(ts, n)), RoundAt(ts, n))
  {
    assert Rounds(ts, n + 1)[..n] == Rounds(ts, n);
  }

  lemma OneMore(seen: seq<Event>, es: seq<Event>, n: nat)
    requires n < |es|
    ensures Application.Outcomes(seen + es[..n + 1]) ==
            Application.Outcome(Application.Outcomes(seen + es[..n]), es[n])
  {
    var more := seen + es[..n + 1];
    assert more[|more| - 1] == es[n];
    assert more[..|more| - 1] == seen + es[..n];
  }

  method Happen(app: Application.Application, es: seq<Event>, ghost seen: seq<Event>)
    requires app.Idle() && app.state == Application.Outcomes(seen)
    modifies app
    ensures app.Idle() && app.state == Application.Outcomes(seen + es)
  {
    assert seen + es[..0] == seen;
    for n := 0 to |es|
      invariant app.Idle() && app.state == Application.Outcomes(seen + es[..n])
    {
      OneMore(seen, es, n);
      app.Handle(es[n]);
    }
    assert es[..|es|] == es;
  }

  /** One iteration, with what happens meanwhile. */
  method Live(app: Application.Application, main: MainLoop, ts: seq<Tick>, n: nat)
    requires n < |ts| && app.Idle() && app.state == Application.Outcomes(EventsOf(ts, n))
    modifies app, main
    ensures app.Idle()
    ensures app.state == Application.Outcomes(EventsOf(ts, n) + ts[n].first + ts[n].second + ts[n].third)
    ensures main.Contents() == Next(old(main.Contents()), RoundAt(ts, n))
  {
    ghost var seen := EventsOf(ts, n);
    Happen(app, ts[n].first, seen);
    var compared := app.state;
    Happen(app, ts[n].second, seen + ts[n].first);
    var kept := app.state;
    Happen(app, ts[n].third, seen + ts[n].first + ts[n].second);
    main.Iteration(Round(compared, kept, app.state, ts[n].good));
  }

  /** The main loop, which runs while `loop` is set, or as long as `ts` goes. */
  method Loop(app: Application.Application, main: MainLoop, ts: seq<Tick>) returns (n: nat)
    requires app.Idle() && app.state == Streaming.WAITTING && main.Contents() == START
    modifies app, main
    ensures n <= |ts| && app.Idle() && (app.loop ==> n == |ts|)
    ensures app.state == Application.Outcomes(EventsOf(ts, n)) && main.Contents() == After(Rounds(ts, n))
  {
    n := 0;
    while n < |ts| && app.loop
      invariant 0 <= n <= |ts| && app.Idle()
      invariant app.state == Application.Outcomes(EventsOf(ts, n)) && main.Contents() == After(Rounds(ts, n))
    {
      TickNext(ts, n);
      Live(app, main, ts, n);
      n := n + 1;
    }
  }

  /** A process, from the begin of the main loop to its end with code 0, or as long as `ts` goes. The last
      write takes the state as it is when the loop has ended. `n` counts the iterations. */
  method Process(ts: seq<Tick>, good: bool) returns (ended: bool, n: nat, file: StreamState)
    ensures n <= |ts| && (!ended ==> n == |ts|)
    ensures ended <==> Application.Exited(EventsOf(ts, |ts|))
    ensures file == if ended && good then Streaming.STOPPED else After(Rounds(ts, n)).file
  {
    var main := new MainLoop(Streaming.STOPPED);
    var app := new Application.Application();
    n := Loop(app, main, ts);
    Application.RunningIff(EventsOf(ts, n));
    ended := !app.loop;
    if ended {
      ExitedStays(ts, n);
      main.Exit(app.state, good);
    }
    return ended, n, main.file;
  }

  lemma {:induction false} ExitedStays(ts: seq<Tick>, n: nat)
    requires n <= |ts| && Application.Exited(EventsOf(ts, n))
    ensures Application.Exited(EventsOf(ts, |ts|))
    decreases |ts| - n
  {
    if n < |ts| {
      ExitedBefore(EventsOf(ts, n), ts[n].first + ts[n].second + ts[n].third);
      assert EventsOf(ts, n) + (ts[n].first + ts[n].second + ts[n].third) == EventsOf(ts, n + 1);
      ExitedStays(ts, n + 1);
    }
  }

  lemma ExitedBefore(a: seq<Event>, b: seq<Event>)
    requires Application.Exited(a)
    ensures Application.Exited(a + b)
  {
    var i :| 0 <= i < |a| && a[i].Exit?;
    assert (a + b)[i] == a[i];
  }

  /** Along four reads in order, the state changed at most once. */
  predicate OneChange(a: StreamState, b: StreamState, c: StreamState, d: StreamState) {
    (a == b && b == c) || (a == b && c == d) || (b == c && c == d)
  }

  /** From the i-th comparison to the next. */
  predicate CalmAt(rs: seq<Round>, i: int)
    requires 0 <= i < |rs| - 1
  {
    OneChange(rs[i].compared, rs[i].kept, rs[i].written, rs[i + 1].compared)
  }

  /** Between consecutive comparisons the state changed at most once. */
  predicate Calm(rs: seq<Round>) {
    forall i :: 0 <= i < |rs| - 1 ==> CalmAt(rs, i)
  }

  predicate AllGood(rs: seq<Round>) {
    forall r :: r in rs ==> r.good
  }

  predicate Quiet(r: Round) {
    r.compared == r.kept == r.written
  }

  /** The iteration that last noticed a change, if any. */
  function LastUpdate(rs: seq<Round>): (u: int)
    ensures -1 <= u < |rs|
  {
    if rs == [] then -1
    else
      var n := |rs| - 1;
      if After(rs[..n]).s != rs[n].compared then n else LastUpdate(rs[..n])
  }

  /** The loop's copy and the file come from two different reads of the last update. */
  lemma {:induction false} FromLastUpdate(rs: seq<Round>)
    requires AllGood(rs)
    ensures var u := LastUpdate(rs);
            After(rs) == if u < 0 then START else Memo(rs[u].kept, false, rs[u].written)
  {
    if rs != [] { FromLastUpdate(rs[..|rs| - 1]); }
  }

  /** A quiet iteration leaves the file wrong exactly when the loop's copy was right and the last update
      had written something else than it remembered. */
  lemma StaleIff(rs: seq<Round>)
    requires rs != [] && AllGood(rs) && Quiet(rs[|rs| - 1])
    ensures var n := |rs| - 1;
            var u := LastUpdate(rs[..n]);
            After(rs).file != rs[n].compared <==>
            u >= 0 && rs[u].kept == rs[n].compared && rs[u].written != rs[n].compared
  {
    FromLastUpdate(rs[..|rs| - 1]);
  }

  lemma {:induction false} CalmInvariant(rs: seq<Round>, r: Round)
    requires Calm(rs + [r]) && AllGood(rs)
    ensures !After(rs).hasUpdate
    ensures After(rs).s == r.compared ==> After(rs).file == r.compared
  {
    if rs != [] {
      var n := |rs| - 1;
      var all := rs + [r];
      assert CalmAt(all, n) && all[n] == rs[n] && all[n + 1] == r;
      forall i | 0 <= i < n ensures CalmAt(rs, i) {
        assert CalmAt(all, i) && all[i] == rs[i] && all[i + 1] == rs[i + 1];
      }
      assert rs[..n] + [rs[n]] == rs;
      CalmInvariant(rs[..n], rs[n]);
    }
  }

  /** If the state changes at most once between comparisons, an iteration that sees no change leaves the
      current state in the file. */
  lemma {:induction false} FileIsCurrent(rs: seq<Round>)
    requires rs != [] && Calm(rs) && AllGood(rs) && Quiet(rs[|rs| - 1])
    ensures After(rs).file == rs[|rs| - 1].compared
  {
    var n := |rs| - 1;
    assert rs[..n] + [rs[n]] == rs;
    CalmInvariant(rs[..n], rs[n]);
  }

  // ---------- the same, said of what happens ----------

  /** How many of `es`, happening after `seen`, change the state. */
  function Changes(seen: seq<Event>, es: seq<Event>): nat {
    if es == [] then 0
    else
      var before := es[..|es| - 1];
      Changes(seen, before) + if Application.Outcomes(seen + before) != Application.Outcomes(seen + es) then 1 else 0
  }

  lemma {:induction false} NoneChanges(seen: seq<Event>, es: seq<Event>)
    requires Changes(seen, es) == 0
    ensures Application.Outcomes(seen + es) == Application.Outcomes(seen)
  {
    if es == [] {
      assert seen + es == seen;
    } else {
      NoneChanges(seen, es[..|es| - 1]);
    }
  }

  lemma {:induction false} ChangesAppend(seen: seq<Event>, a: seq<Event>, b: seq<Event>)
    ensures Changes(seen, a + b) == Changes(seen, a) + Changes(seen + a, b)
  {
    if b == [] {
      assert a + b == a;
    } else {
      var n := |b| - 1;
      assert (a + b)[..|a + b| - 1] == a + b[..n];
      assert seen + (a + b) == seen + a + b && seen + (a + b[..n]) == seen + a + b[..n];
      ChangesAppend(seen, a, b[..n]);
    }
  }

  lemma OneOfThree(seen: seq<Event>, a: seq<Event>, b: seq<Event>, c: seq<Event>)
    requires Changes(seen, a + b + c) <= 1
    ensures OneChange(Application.Outcomes(seen), Application.Outcomes(seen + a),
                      Application.Outcomes(seen + a + b), Application.Outcomes(seen + a + b + c))
  {
    ChangesAppend(seen, a + b, c);
    ChangesAppend(seen, a, b);
    assert seen + (a + b) == seen + a + b;
    if Changes(seen, a) == 0 { NoneChanges(seen, a); }
    if Changes(seen + a, b) == 0 { NoneChanges(seen + a, b); }
    if Changes(seen + a + b, c) == 0 { NoneChanges(seen + a + b, c); }
  }

  /** From one comparison to the next at most one event changes the state. */
  ghost predicate Sparse(ts: seq<Tick>, n: nat)
    requires n <= |ts|
  {
    forall k :: 0 <= k < n - 1 ==> SparseAt(ts, k)
  }

  predicate SparseAt(ts: seq<Tick>, k: int)
    requires 0 <= k < |ts| - 1
  {
    Changes(EventsOf(ts, k) + ts[k].first, ts[k].second + ts[k].third + ts[k + 1].first) <= 1
  }

  lemma RoundsCalmAt(ts: seq<Tick>, n: nat, k: nat)
    requires k + 1 < n <= |ts| && SparseAt(ts, k)
    ensures CalmAt(Rounds(ts, n), k)
  {
    OneOfThree(EventsOf(ts, k) + ts[k].first, ts[k].second, ts[k].third, ts[k + 1].first);
  }

  lemma SparseIsCalm(ts: seq<Tick>, n: nat)
    requires n <= |ts| && Sparse(ts, n)
    ensures Calm(Rounds(ts, n))
  {
    forall k | 0 <= k < n - 1 ensures CalmAt(Rounds(ts, n), k) {
      assert SparseAt(ts, k);
      RoundsCalmAt(ts, n, k);
    }
  }

  /** An iteration during which nothing changes the state. */
  lemma QuietTick(ts: seq<Tick>, n: nat)
    requires n < |ts| && Changes(EventsOf(ts, n) + ts[n].first, ts[n].second + ts[n].third) == 0
    ensures Quiet(RoundAt(ts, n)) && RoundAt(ts, n).written == Application.Outcomes(EventsOf(ts, n + 1))
  {
    var seen := EventsOf(ts, n) + ts[n].first;
    ChangesAppend(seen, ts[n].second, ts[n].third);
    NoneChanges(seen, ts[n].second);
    NoneChanges(seen + ts[n].second, ts[n].third);
  }

  /** If at most one event changes the state from one comparison to the next and the file can be written,
      then behind an iteration during which nothing changed it the file names the application's state. */
  lemma FileNamesState(ts: seq<Tick>, n: nat)
    requires 0 < n <= |ts| && Sparse(ts, n) && forall k :: 0 <= k < n ==> ts[k].good
    requires Changes(EventsOf(ts, n - 1) + ts[n - 1].first, ts[n - 1].second + ts[n - 1].third) == 0
    ensures After(Rounds(ts, n)).file == Application.Outcomes(EventsOf(ts, n))
  {
    SparseIsCalm(ts, n);
    QuietTick(ts, n - 1);
    LastIsCurrent(Rounds(ts, n), RoundAt(ts, n - 1));
  }

  lemma LastIsCurrent(rs: seq<Round>, last: Round)
    requires rs != [] && Calm(rs) && AllGood(rs) && rs[|rs| - 1] == last && Quiet(last)
    ensures After(rs).file == last.written
  {
    FileIsCurrent(rs);
  }

  lemma TwoEvents(p: Application.Plan)
    requires Application.Succeeds(p)
    ensures var start, stop := Application.StartCmd(p), Application.StopCmd;
      && Application.Outcomes([]) == Application.Outcomes([start, stop]) == Streaming.WAITTING
      && Application.Outcomes([start]) == Streaming.RUNNING
  {
    var start, stop := Application.StartCmd(p), Application.StopCmd;
    assert [start][..0] == [] && [start, stop][..1] == [start];
  }

  lemma TwoRounds(start: Event, stop: Event)
    ensures var ts := [Tick([], [], [start], true), Tick([stop], [], [], true)];
      && EventsOf(ts, 2) == [start, stop]
      && RoundAt(ts, 0) == Round(Application.Outcomes([]), Application.Outcomes([]),
                                 Application.Outcomes([start]), true)
      && RoundAt(ts, 1) == Round(Application.Outcomes([start, stop]), Application.Outcomes([start, stop]),
                                 Application.Outcomes([start, stop]), true)
  {
    var none: seq<Event> := [];
    assert none + none == none && none + [start] == [start];
    assert [start] + [stop] == [start, stop] && [start, stop] + none == [start, stop];
    var ts := [Tick([], [], [start], true), Tick([stop], [], [], true)];
    assert EventsOf(ts, 0) == none && EventsOf(ts, 1) == [start];
  }

  lemma AfterTwo(a: Round, b: Round)
    ensures After([a, b]) == Next(Next(START, a), b)
  {
    assert [a, b][..1] == [a] && [a][..0] == [];
    assert After([]) == START;
  }

  /** The same in events: a start between the loop's assignment and its write, and the stop that follows,
      leave RUNNING in the file of an application that waits. */
  lemma StaleInProcess(p: Application.Plan)
    requires Application.Succeeds(p)
    ensures var ts := [Tick([], [], [Application.StartCmd(p)], true), Tick([Application.StopCmd], [], [], true)];
      After(Rounds(ts, 2)).file == Streaming.RUNNING && Application.Outcomes(EventsOf(ts, 2)) == Streaming.WAITTING
  {
    TwoEvents(p);
    TwoRounds(Application.StartCmd(p), Application.StopCmd);
    var ts := [Tick([], [], [Application.StartCmd(p)], true), Tick([Application.StopCmd], [], [], true)];
    assert Rounds(ts, 2) == [RoundAt(ts, 0), RoundAt(ts, 1)];
    AfterTwo(RoundAt(ts, 0), RoundAt(ts, 1));
  }

  /** Two changes in one iteration, a start noticed only by the write and the stop right after it, leave
      the file wrong for as long as nothing changes. */
  lemma {:induction false} StaleForGood(k: nat)
    ensures var first := Round(Streaming.WAITTING, Streaming.WAITTING, Streaming.RUNNING, true);
            var quiet := Round(Streaming.WAITTING, Streaming.WAITTING, Streaming.WAITTING, true);
            After([first] + seq(k, i => quiet)) == Memo(Streaming.WAITTING, false, Streaming.RUNNING)
  {
    var first := Round(Streaming.WAITTING, Streaming.WAITTING, Streaming.RUNNING, true);
    var quiet := Round(Streaming.WAITTING, Streaming.WAITTING, Streaming.WAITTING, true);
    var rs := [first] + seq(k, i => quiet);
    if k == 0 {
      assert rs == [first] && rs[..0] == [];
      assert After([]) == START;
    } else {
      StaleForGood(k - 1);
      assert rs[..k] == [first] + seq(k - 1, i => quiet);
      assert rs[k] == quiet;
    }
  }
}
