/** Exceptions that own a chain of the exceptions behind them. */
module Exceptions {

  const SIZES: nat := 0x1_0000_0000_0000_0000

  type Size = n: nat | n < SIZES

  /** Subtraction of two `size_t`. */
  function Minus(a: Size, b: Size): Size {
    if b <= a then a - b else a - b + SIZES
  }

  /** One exception's own data. */
  datatype Record = Record(message: string, frames: seq<string>, ignoreBottom: Size, ignoreTop: Size)

  datatype Line = Banner | Entry(n: nat, message: string) | Label | Frame(n: nat, frame: string)

  /** The frames shown of a stack: not the innermost `top`, and not the outermost `bottom`, unless the
      stack has fewer than `bottom` frames; then the subtraction wraps and none is cut there. */
  function Shown(frames: seq<string>, bottom: nat, top: nat): seq<string> {
    var end := if bottom <= |frames| then |frames| - bottom else |frames|;
    if top <= end then frames[top..end] else []
  }

  function FrameLines(frames: seq<string>): seq<Line> {
    seq(|frames|, i requires 0 <= i < |frames| => Frame(i, frames[i]))
  }

  /** The text about one exception, the i-th of its chain. */
  function Item(r: Record, i: nat): seq<Line> {
    [Entry(i, r.message), Label] + FrameLines(Shown(r.frames, r.ignoreBottom, r.ignoreTop))
  }

  /** The text about a chain whose first exception has number `i`. */
  function Report(rs: seq<Record>, i: nat): seq<Line> {
    if rs == [] then [] else Item(rs[0], i) + Report(rs[1..], i + 1)
  }

  function Entries(out: seq<Line>): seq<Line> {
    if out == [] then []
    else if out[0].Entry? then [out[0]] + Entries(out[1..])
    else Entries(out[1..])
  }

  lemma {:induction false} EntriesAppend(a: seq<Line>, b: seq<Line>)
    ensures Entries(a + b) == Entries(a) + Entries(b)
  {
    if a == [] {
      assert a + b == b;
    } else {
      assert (a + b)[1..] == a[1..] + b;
      EntriesAppend(a[1..], b);
    }
  }

  lemma {:induction false} NoEntries(out: seq<Line>)
    requires forall k :: 0 <= k < |out| ==> !out[k].Entry?
    ensures Entries(out) == []
  {
    if out != [] { NoEntries(out[1..]); }
  }

  /** The report names every message of the chain, in chain order, numbered from `i` on. */
  lemma {:induction false} ReportNamesAll(rs: seq<Record>, i: nat)
    ensures |Entries(Report(rs, i))| == |rs|
    ensures forall k :: 0 <= k < |rs| ==> Entries(Report(rs, i))[k] == Entry(i + k, rs[k].message)
  {
    if rs != [] {
      var head := [Entry(i, rs[0].message), Label];
      var mid := FrameLines(Shown(rs[0].frames, rs[0].ignoreBottom, rs[0].ignoreTop));
      var tail := Report(rs[1..], i + 1);
      EntriesAppend(head + mid, tail);
      EntriesAppend(head, mid);
      NoEntries(mid);
      assert head[1..] == [Label];
      assert Entries(head) == [Entry(i, rs[0].message)];
      ReportNamesAll(rs[1..], i + 1);
    }
  }

  function ShownOf(r: Record): seq<string> {
    Shown(r.frames, r.ignoreBottom, r.ignoreTop)
  }

  /** Which frames are shown: those from `top` on that are not among the last `bottom`. */
  lemma ShownAre(frames: seq<string>, bottom: Size, top: Size)
    requires |frames| < SIZES
    ensures var end := Minus(|frames|, bottom);
            var last := if end <= |frames| then end else |frames|;
      && |Shown(frames, bottom, top)| == (if top <= last then last - top else 0)
      && forall k :: 0 <= k < |Shown(frames, bottom, top)| ==> Shown(frames, bottom, top)[k] == frames[top + k]
  {
  }

  lemma LinesAre(out: seq<Line>, frames: seq<string>, bottom: Size, top: Size)
    requires |frames| < SIZES
    requires var last := if bottom <= |frames| then |frames| - bottom else |frames|;
      && |out| == (if top <= last then last - top else 0)
      && forall k :: 0 <= k < |out| ==> out[k] == Frame(k, frames[top + k])
    ensures out == FrameLines(Shown(frames, bottom, top))
  {
  }

  /** Where the text about the k-th exception begins. */
  function Start(rs: seq<Record>, k: nat): nat
    requires k <= |rs|
  {
    if k == 0 then 0 else 2 + |ShownOf(rs[0])| + Start(rs[1..], k - 1)
  }

  lemma ItemIs(r: Record, i: nat)
    ensures |Item(r, i)| == 2 + |ShownOf(r)| && Item(r, i)[0] == Entry(i, r.message) && Item(r, i)[1] == Label
    ensures forall m :: 0 <= m < |ShownOf(r)| ==> Item(r, i)[2 + m] == Frame(m, ShownOf(r)[m])
  {
  }

  lemma {:induction false} ReportLength(rs: seq<Record>, i: nat)
    ensures |Report(rs, i)| == Start(rs, |rs|)
  {
    if rs != [] {
      ItemIs(rs[0], i);
      ReportLength(rs[1..], i + 1);
    }
  }

  lemma {:induction false} StartsGrow(rs: seq<Record>, k: nat)
    requires k < |rs|
    ensures Start(rs, k + 1) == Start(rs, k) + 2 + |ShownOf(rs[k])| <= Start(rs, |rs|)
  {
    if k > 0 {
      StartsGrow(rs[1..], k - 1);
    } else if |rs| > 1 {
      StartsGrow(rs[1..], 0);
    }
  }

  /** `text` has `item` from line `from` on. */
  predicate HasAt(text: seq<Line>, from: nat, item: seq<Line>) {
    from + |item| <= |text| && text[from..from + |item|] == item
  }

  lemma HasBehind(a: seq<Line>, b: seq<Line>, from: nat, item: seq<Line>)
    requires HasAt(b, from, item)
    ensures HasAt(a + b, |a| + from, item)
  {
    assert (a + b)[|a| + from..|a| + from + |item|] == b[from..from + |item|];
  }

  lemma HasFirst(a: seq<Line>, b: seq<Line>)
    ensures HasAt(a + b, 0, a)
  {
    assert (a + b)[0..|a|] == a;
  }

  lemma ReportUnfolds(rs: seq<Record>, i: nat, k: nat)
    requires rs != [] && k < |rs|
    ensures Report(rs, i) == Item(rs[0], i) + Report(rs[1..], i + 1) && |Item(rs[0], i)| == 2 + |ShownOf(rs[0])|
    ensures k > 0 ==> Start(rs, k) == |Item(rs[0], i)| + Start(rs[1..], k - 1) && rs[1..][k - 1] == rs[k]
  {
  }

  /** The text about the k-th exception stands, in chain order, behind those before it, and nothing else
      does: its number and message, a label, and its frames numbered from 0. */
  lemma {:induction false} ReportAt(rs: seq<Record>, i: nat, k: nat)
    requires k < |rs|
    ensures HasAt(Report(rs, i), Start(rs, k), Item(rs[k], i + k))
  {
    ReportUnfolds(rs, i, k);
    if k == 0 {
      HasFirst(Item(rs[0], i), Report(rs[1..], i + 1));
    } else {
      ReportAt(rs[1..], i + 1, k - 1);
      HasBehind(Item(rs[0], i), Report(rs[1..], i + 1), Start(rs[1..], k - 1), Item(rs[k], i + k));
    }
  }

  /** The wrap-around shows exactly when the stack is shorter than what is cut at its bottom, and not
      already empty for what is cut at its top. */
  lemma WrapShowsIff(frames: seq<string>, bottom: Size, top: Size)
    requires |frames| < SIZES
    ensures |Shown(frames, bottom, top)| > (if |frames| >= bottom + top then |frames| - bottom - top else 0)
      <==> |frames| < bottom && top < |frames|
    ensures bottom == 2 && top == 1 ==> |Shown(frames, bottom, top)| == if |frames| >= 3 then |frames| - 3 else 0
  {
  }

  /** The storage of exceptions that was given back, in order. */
  class Storage {
    var freed: seq<Exception>

    constructor ()
      ensures freed == []
    {
      freed := [];
    }
  }

  /** The nodes of `c`, in order, are what `e` and the `prev` pointers from there on reach; none is
      reached twice. */
  ghost predicate Chain(c: seq<Exception>, e: Exception?)
    reads c
  {
    if c == [] then e == null
    else e == c[0] && |c[0].frames| < SIZES && e !in c[1..] && Chain(c[1..], c[0].prev)
  }

  ghost function Records(c: seq<Exception>): (rs: seq<Record>)
    reads c
    ensures |rs| == |c|
  {
    if c == [] then [] else [c[0].Own()] + Records(c[1..])
  }

  class Exception {
    var message: string
    var prev: Exception?
    var frames: seq<string>
    var stIgnoreBottom: Size
    var stIgnoreTop: Size
    ghost var made: seq<Exception>    // the chain a constructor made

    function Own(): Record
      reads this
    {
      Record(message, frames, stIgnoreBottom, stIgnoreTop)
    }

    constructor (message: string, frames: seq<string>)
      requires |frames| < SIZES
      ensures made == [this] && Chain(made, this) && Records(made) == [Record(message, frames, 2, 1)]
    {
      this.message, this.prev, this.frames := message, null, frames;
      stIgnoreBottom, stIgnoreTop := 2, 1;
      made := [this];
    }

    /** A copy owns copies of the whole chain. */
    constructor Copy(e: Exception, ghost c: seq<Exception>)
      requires Chain(c, e)
      ensures Chain(made, this) && fresh(made) && Records(made) == Records(c)
      decreases |c|
    {
      var p: Exception? := null;
      if e.prev != null { p := new Exception.Copy(e.prev, c[1..]); }
      message, prev, frames := e.message, p, e.frames;
      stIgnoreBottom, stIgnoreTop := e.stIgnoreBottom, e.stIgnoreTop;
      made := [this] + if p == null then [] else p.made;
    }

    /** A new exception in front of a copy of `before`. */
    constructor Chained(message: string, before: Exception, frames: seq<string>, ghost c: seq<Exception>)
      requires Chain(c, before) && |frames| < SIZES
      ensures Chain(made, this) && fresh(made)
      ensures Records(made) == [Record(message, frames, 2, 1)] + Records(c)
    {
      var p := new Exception.Copy(before, c);
      this.message, this.prev, this.frames := message, p, frames;
      stIgnoreBottom, stIgnoreTop := 2, 1;
      made := [this] + p.made;
    }

    /** `delete`: the destructor deletes the rest of the chain, then this one's storage goes. */
    method Delete(storage: Storage, ghost c: seq<Exception>)
      requires Chain(c, this)
      requires forall e :: e in c ==> e !in storage.freed
      modifies storage, c
      ensures storage.freed == old(storage.freed) + Reversed(c)
      decreases |c|
    {
      if prev != null { prev.Delete(storage, c[1..]); }
      message, prev, frames := "", null, [];
      storage.freed := storage.freed + [this];
    }

    method DecodeST() returns (out: seq<Line>)
      requires |frames| < SIZES
      ensures out == FrameLines(Shown(frames, stIgnoreBottom, stIgnoreTop))
      ensures var last := if stIgnoreBottom <= |frames| then |frames| - stIgnoreBottom else |frames|;
        && |out| == (if stIgnoreTop <= last then last - stIgnoreTop else 0)
        && forall k :: 0 <= k < |out| ==> out[k] == Frame(k, frames[stIgnoreTop + k])
    {
      out := [];
      var count, i := 0, 0;
      var total: Size := |frames|;
      while count < |frames|
        invariant 0 <= count <= |frames|
        invariant count <= Minus(total, stIgnoreBottom)
        invariant i == |out| == if stIgnoreTop <= count then count - stIgnoreTop else 0
        invariant forall k :: 0 <= k < i ==> out[k] == Frame(k, frames[stIgnoreTop + k])
      {
        if count >= Minus(total, stIgnoreBottom) { break; }
        count := count + 1;
        if count - 1 < stIgnoreTop { continue; }
        out := out + [Frame(i, frames[count - 1])];
        i := i + 1;
      }
      LinesAre(out, frames, stIgnoreBottom, stIgnoreTop);
    }

    method What(ghost c: seq<Exception>) returns (out: seq<Line>)
      requires Chain(c, this)
      ensures out == [Banner] + Report(Records(c), 0)
    {
      ReportStep([Banner], Records(c), 0);
      var item := Describe(0);
      out := [Banner] + item;
      var i := 1;
      var e := prev;
      ghost var rest := c[1..];
      while e != null
        invariant Chain(rest, e)
        invariant out + Report(Records(rest), i) == [Banner] + Report(Records(c), 0)
        decreases |rest|
      {
        ReportStep(out, Records(rest), i);
        item := e.Describe(i);
        out := out + item;
        i := i + 1;
        e, rest := e.prev, rest[1..];
      }
    }

    /** What both halves of `what` write about one exception. */
    method Describe(i: nat) returns (out: seq<Line>)
      requires |frames| < SIZES
      ensures out == Item(Own(), i)
    {
      var st := DecodeST();
      out := [Entry(i, message), Label] + st;
    }
  }

  /** Deleting a copy frees the copy's nodes and leaves the original as it was. */
  method DeleteCopy(e: Exception, ghost c: seq<Exception>, storage: Storage) returns (ghost copied: seq<Exception>)
    requires Chain(c, e) && storage.freed == []
    modifies storage
    ensures Chain(c, e) && Records(c) == old(Records(c))
    ensures |copied| == |c| && fresh(copied) && storage.freed == Reversed(copied)
    ensures forall i, j :: 0 <= i < j < |copied| ==> copied[i] != copied[j]
  {
    var d := new Exception.Copy(e, c);
    copied := d.made;
    Distinct(copied, d);
    d.Delete(storage, copied);
  }

  /** Deleting the original frees its nodes and leaves the copy as it was made. */
  method DeleteOriginal(e: Exception, ghost c: seq<Exception>, storage: Storage)
    returns (d: Exception, ghost copied: seq<Exception>)
    requires Chain(c, e) && storage.freed == []
    modifies storage, c
    ensures Chain(copied, d) && fresh(copied) && Records(copied) == old(Records(c))
    ensures storage.freed == Reversed(c)
    ensures forall i, j :: 0 <= i < j < |c| ==> c[i] != c[j]
  {
    Distinct(c, e);
    d := new Exception.Copy(e, c);
    copied := d.made;
    e.Delete(storage, c);
  }

  lemma ReportStep(out: seq<Line>, rs: seq<Record>, i: nat)
    requires rs != []
    ensures out + Report(rs, i) == out + Item(rs[0], i) + Report(rs[1..], i + 1)
  {
  }

  function Reversed<T>(s: seq<T>): (r: seq<T>)
    ensures |r| == |s|
    ensures forall k {:trigger r[k]} :: 0 <= k < |r| ==> r[k] == s[|s| - 1 - k]
  {
    if s == [] then [] else Reversed(s[1..]) + [s[0]]
  }

  /** A chain has no node twice, so freeing it frees each node once. */
  lemma {:induction false} Distinct(c: seq<Exception>, e: Exception?)
    requires Chain(c, e)
    ensures forall i, j :: 0 <= i < j < |c| ==> c[i] != c[j]
  {
    if c != [] { Distinct(c[1..], c[0].prev); }
  }
}
