/** The decoder task of the transcoder, VideoInput::decode inside it, and the filter graph. */
module Transcoder {
  import opened Transducer
  import opened VideoIO
  import opened Decimator

  /** As long as the quotient fits 16 bits it is not changed by the narrowing. */
  lemma Narrowed(decoderFR: int, encoderFR: int)
    requires encoderFR != 0
    ensures decoderFR >= 0 && encoderFR > 0 && decoderFR < U16 * encoderFR ==>
              var k := SkipCount(decoderFR, encoderFR); k * encoderFR <= decoderFR < (k + 1) * encoderFR
  {
    if decoderFR >= 0 && encoderFR > 0 && decoderFR < U16 * encoderFR {
      var q := decoderFR / encoderFR;
      Quotient(decoderFR, encoderFR);
      Fits(decoderFR, encoderFR, q);
      assert SkipCount(decoderFR, encoderFR) == q % U16;
      DivUnique(q, U16, 0, q);
    }
  }

  lemma Quotient(d: int, e: int)
    requires d >= 0 && e > 0
    ensures d / e >= 0 && (d / e) * e <= d < (d / e + 1) * e
  {
    var q := d / e;
    assert d == q * e + d % e;
    Multiples(q, e);
    assert (q + 1) * e == q * e + e;
  }

  lemma Fits(d: int, e: int, q: int)
    requires e > 0 && q * e <= d < U16 * e
    ensures q < U16
  {
    Multiples(q - U16 + 1, e);
    assert (q - U16 + 1) * e == q * e - U16 * e + e;
  }

  // What a filter graph is fed: a frame, or NULL.
  datatype Feed = One(f: Frame) | EndOfStream

  function Feeds(s: seq<Frame>): seq<Feed> {
    if s == [] then [] else Feeds(s[..|s| - 1]) + [One(s[|s| - 1])]
  }

  /** The frames themselves, one by one and in order. */
  lemma {:induction false} FeedsAre(s: seq<Frame>)
    ensures |Feeds(s)| == |s| && forall k :: 0 <= k < |s| ==> Feeds(s)[k] == One(s[k])
  {
    if s != [] { FeedsAre(s[..|s| - 1]); }
  }

  lemma {:induction false} FeedsAppend(a: seq<Frame>, b: seq<Frame>)
    ensures Feeds(a + b) == Feeds(a) + Feeds(b)
  {
    if b == [] {
      assert a + b == a;
    } else {
      var n := |b| - 1;
      assert (a + b)[..|a| + n] == a + b[..n];
      FeedsAppend(a, b[..n]);
    }
  }

  class FilterGraph {
    const graph: Codec<Feed, Frame>

    constructor (graph: Codec<Feed, Frame>)
      ensures this.graph == graph
    {
      this.graph := graph;
    }

    method Push(feed: Feed, accepts: bool) returns (ok: bool)
      requires graph.Valid()
      modifies graph
      ensures graph.Valid() && ok == accepts && graph.taken == old(graph.taken)
      ensures graph.given == old(graph.given) + if ok then [feed] else []
      ensures graph.pending == old(graph.pending) + if ok then graph.respond(old(graph.given), feed) else []
    {
      var r := graph.Send(feed, if accepts then Ok else Bad(-1));
      return r == Ok;
    }

    method Pop() returns (ok: bool, frame: seq<Frame>)
      requires graph.Valid()
      modifies graph`pending, graph`taken
      ensures graph.Valid() && ok == (old(graph.pending) != [])
      ensures ok ==> |frame| == 1
      ensures old(graph.pending) == frame + graph.pending && graph.taken == old(graph.taken) + frame
    {
      var r;
      r, frame := graph.Receive(false, 0, Again);
      return r == Ok, frame;
    }

    /** flush without an output: whatever the graph still holds is dropped. */
    method Flush(accepts: bool)
      requires graph.Valid()
      modifies graph
      ensures graph.Valid()
      ensures accepts ==> graph.pending == [] && graph.given == old(graph.given) + [EndOfStream]
      ensures !accepts ==> graph.pending == old(graph.pending) && graph.given == old(graph.given)
    {
      var more := Push(EndOfStream, accepts);
      while more
        invariant graph.Valid()
        invariant graph.given == old(graph.given) + if accepts then [EndOfStream] else []
        invariant accepts && !more ==> graph.pending == []
        invariant !accepts ==> !more && graph.pending == old(graph.pending)
        decreases if more then 1 + |graph.pending| else 0
      {
        var frame;
        more, frame := Pop();
      }
    }
  }

  /** The first of what is left of `all` has been taken, to be fed behind `fed`. */
  lemma FeedNext(fed: seq<Feed>, all: seq<Frame>, i: nat, o: seq<Frame>, rest: seq<Frame>)
    requires i <= |all| && |o| == 1 && all[i..] == o + rest
    ensures i < |all| && rest == all[i + 1..]
    ensures fed + Feeds(all[..i + 1]) == fed + Feeds(all[..i]) + [One(o[0])]
  {
    assert o[0] == all[i..][0] && rest == all[i..][1..];
    assert all[..i + 1][..i] == all[..i];
  }

  class Transcoder {
    const decoder: Codec<Packet, Frame>
    const filterGraph: FilterGraph
    var skipFrames: nat
    var skippedFrames: nat
    var readError: bool

    ghost function View(): Gate
      reads this
    {
      Gate(skipFrames, skippedFrames, readError)
    }

    /** The count behind a body that did not throw. */
    function Following(): nat
      reads this
    {
      if skippedFrames + 1 >= skipFrames then 0 else skippedFrames + 1
    }

    ghost predicate Valid()
      reads this, decoder, filterGraph, filterGraph.graph
    {
      decoder.Valid() && filterGraph.graph.Valid() && GateOk(View())
    }

    constructor (decoder: Codec<Packet, Frame>, filterGraph: FilterGraph)
      requires decoder.Valid() && filterGraph.graph.Valid()
      ensures Valid() && this.decoder == decoder && this.filterGraph == filterGraph
      ensures View() == Gate(0, 0, true)
    {
      this.decoder, this.filterGraph := decoder, filterGraph;
      skipFrames, skippedFrames, readError := 0, 0, true;
    }

    /** The part of init that decides how many packets to skip; nothing was counted yet. */
    method InitSkip(decoderFR: int, encoderFR: int)
      requires Valid() && encoderFR != 0 && skippedFrames == 0
      modifies this
      ensures Valid() && View() == old(View()).(skipFrames := SkipCount(decoderFR, encoderFR))
      ensures decoderFR >= 0 && encoderFR > 0 && decoderFR < U16 * encoderFR ==>
                skipFrames * encoderFR <= decoderFR < (skipFrames + 1) * encoderFR
    {
      Narrowed(decoderFR, encoderFR);
      skipFrames := SkipCount(decoderFR, encoderFR);
    }

    method Run()
      requires Valid()
      modifies this`readError
      ensures Valid() && View() == old(View()).(readError := false)
    {
      readError := false;
    }

    method OnDecoded(frame: Frame)
      requires filterGraph.graph.Valid()
      modifies filterGraph.graph
      ensures filterGraph.graph.Valid() && filterGraph.graph.taken == old(filterGraph.graph.taken)
      ensures filterGraph.graph.given == old(filterGraph.graph.given) + [One(frame)]
    {
      var _ := filterGraph.Push(One(frame), true);
    }

    /** VideoInput::decode with this transcoder as listener: every frame the codec holds is handed on,
        once and in order, up to the round that fails; its own frame object is freed on both exits. */
    method Decode(fault: Fault, empty: Code) returns (r: Ret, allocs: nat, frees: nat)
      requires decoder.Valid() && filterGraph.graph.Valid() && (empty == Again || empty == Eof)
      modifies decoder`pending, decoder`taken, filterGraph.graph
      ensures decoder.Valid() && filterGraph.graph.Valid() && allocs == frees == 1
      ensures var all := old(decoder.pending);
        var bad := fault.ReceiveBad? && fault.at <= |all|;
        var n := if bad then fault.at else |all|;
        && r == (if bad then Thrown(fault.n) else Returned(true))
        && decoder.pending == all[n..]
        && filterGraph.graph.given == old(filterGraph.graph.given) + Feeds(all[..n])
    {
      allocs, frees := 1, 0;
      ghost var all, fed := decoder.pending, filterGraph.graph.given;
      var i: nat := 0;
      while true
        invariant decoder.Valid() && filterGraph.graph.Valid()
        invariant i <= |all| && decoder.pending == all[i..]
        invariant fault.ReceiveBad? ==> i <= fault.at
        invariant filterGraph.graph.given == fed + Feeds(all[..i])
        decreases |all| - i
      {
        var c, f := decoder.Receive(fault.ReceiveBad? && fault.at == i,
                                    if fault.ReceiveBad? then fault.n else 0, empty);
        if c == Ok {
          FeedNext(fed, all, i, f, decoder.pending);
          OnDecoded(f[0]);
          i := i + 1;
          continue;
        }
        frees := frees + 1;
        if c == Again || c == Eof { break; }
        return Thrown(c.n), allocs, frees;
      }
      return Returned(true), allocs, frees;
    }

    /** The packet's way through push, whose refusal is ignored, and decode. */
    method PushAndDecode(p: Packet, fault: Fault, empty: Code) returns (r: Ret)
      requires decoder.Valid() && filterGraph.graph.Valid()
      requires (fault == SendRefused ==> decoder.pending != []) && (empty == Again || empty == Eof)
      modifies decoder, filterGraph.graph
      ensures decoder.Valid() && filterGraph.graph.Valid()
      ensures fault.SendBad? ==>
        && r == Thrown(fault.n)
        && decoder.given == old(decoder.given) && decoder.pending == old(decoder.pending)
        && filterGraph.graph.given == old(filterGraph.graph.given)
      ensures !fault.SendBad? ==>
        var sent := if fault == SendRefused then [] else [p];
        var all := old(decoder.pending) + if sent == [] then [] else decoder.respond(old(decoder.given), p);
        var bad := fault.ReceiveBad? && fault.at <= |all|;
        var n := if bad then fault.at else |all|;
        && r == (if bad then Thrown(fault.n) else Returned(true))
        && decoder.given == old(decoder.given) + sent
        && decoder.pending == all[n..]
        && filterGraph.graph.given == old(filterGraph.graph.given) + Feeds(all[..n])
    {
      var c := decoder.Send(p, SendAnswer(fault));
      if c.Bad? { return Thrown(c.n); }
      var allocs, frees;
      r, allocs, frees := Decode(fault, empty);
    }

    /** One body of the decoder task. */
    method DecoderBody(read: ReadResult, fault: Fault, empty: Code) returns (polled: bool, allocs: nat, frees: nat)
      requires Valid() && (fault == SendRefused ==> decoder.pending != []) && (empty == Again || empty == Eof)
      modifies this, decoder, filterGraph.graph
      ensures Valid()
      ensures polled == !old(readError) && allocs == frees == if polled then 1 else 0
      ensures skipFrames == old(skipFrames) && (old(readError) ==> readError && skippedFrames == old(skippedFrames))
      ensures !old(readError) && (read.AtEof? || read.NotYet?) ==> readError && skippedFrames == old(Following())
      ensures !old(readError) && read.Broken? ==> readError && skippedFrames == old(skippedFrames)
      ensures !old(readError) && read.Got? && old(skippedFrames) != 0 ==>
                !readError && skippedFrames == old(Following())
      ensures !old(readError) && read.Got? && old(skippedFrames) == 0 ==>
                skippedFrames == if readError then 0 else old(Following())
      ensures !Keeps(old(View()), read) ==>
        && View() == Body(old(View()), read, false)
        && decoder.given == old(decoder.given) && decoder.pending == old(decoder.pending)
        && filterGraph.graph.given == old(filterGraph.graph.given)
      ensures Keeps(old(View()), read) && fault.SendBad? ==>
        && View() == Body(old(View()), read, true)
        && decoder.given == old(decoder.given) && decoder.pending == old(decoder.pending)
        && filterGraph.graph.given == old(filterGraph.graph.given)
      ensures Keeps(old(View()), read) && !fault.SendBad? ==>
        var sent := if fault == SendRefused then [] else [read.p];
        var all := old(decoder.pending) + if sent == [] then [] else decoder.respond(old(decoder.given), read.p);
        var bad := fault.ReceiveBad? && fault.at <= |all|;
        var n := if bad then fault.at else |all|;
        && View() == Body(old(View()), read, bad)
        && decoder.given == old(decoder.given) + sent
        && decoder.pending == all[n..]
        && filterGraph.graph.given == old(filterGraph.graph.given) + Feeds(all[..n])
    {
      polled, allocs, frees := false, 0, 0;
      if readError { return; }
      polled, allocs := true, 1;
      var thrown := read.Broken?;
      if !thrown {
        if read.Got? {
          if skippedFrames == 0 {
            var r := PushAndDecode(read.p, fault, empty);
            thrown := r.Thrown?;
          }
        } else {
          readError := true;
        }
      }
      Settle(thrown);
      frees := frees + 1;
    }

    /** The end of the try block, or the catch block. */
    method Settle(thrown: bool)
      requires GateOk(View())
      modifies this`skippedFrames, this`readError
      ensures View() == if thrown then old(View()).(readError := true) else Bump(old(View()))
      ensures skippedFrames == if thrown then old(skippedFrames) else old(Following())
      ensures readError == (thrown || old(readError)) && GateOk(View())
    {
      if thrown {
        readError := true;
      } else {
        skippedFrames := (skippedFrames + 1) % U16;
        if skippedFrames >= skipFrames {
          skippedFrames := 0;
        }
      }
    }

    /** What the graph was fed is, in order, all the decoder makes of what it was given. */
    ghost predicate Drained()
      reads decoder, filterGraph, filterGraph.graph
    {
      decoder.pending == [] && filterGraph.graph.given == Feeds(Out(decoder.respond, decoder.given))
    }

    /** One body without codec errors. */
    method CalmBody(read: ReadResult, empty: Code) returns (allocs: nat, frees: nat)
      requires Valid() && Drained() && (empty == Again || empty == Eof)
      modifies this, decoder, filterGraph.graph
      ensures Valid() && Drained() && allocs == frees && View() == Body(old(View()), read, false)
      ensures decoder.given == old(decoder.given) + if Keeps(old(View()), read) then [read.p] else []
    {
      if read.Got? {
        Fed(decoder.respond, decoder.given, read);
      }
      var polled;
      polled, allocs, frees := DecoderBody(read, NoFault, empty);
    }

    /** A series of bodies without codec errors: the decoder is empty at every send, so none is refused. */
    method DecoderTask(results: seq<ReadResult>, empty: Code) returns (allocs: nat, frees: nat)
      requires Valid() && Drained() && (empty == Again || empty == Eof)
      modifies this, decoder, filterGraph.graph
      ensures Valid() && Drained() && allocs == frees
      ensures View() == After(old(View()), Calm(results))
      ensures decoder.given == old(decoder.given) + Kept(old(View()), Calm(results))
    {
      allocs, frees := 0, 0;
      for n := 0 to |results|
        invariant Valid() && Drained() && allocs == frees
        invariant View() == After(old(View()), Calm(results[..n]))
        invariant decoder.given == old(decoder.given) + Kept(old(View()), Calm(results[..n]))
      {
        CalmNext(old(View()), results, n);
        var a, f := CalmBody(results[n], empty);
        allocs, frees := allocs + a, frees + f;
      }
      assert results[..|results|] == results;
    }
  }

  function Calm(results: seq<ReadResult>): seq<Event> {
    seq(|results|, i requires 0 <= i < |results| => Event(results[i], false))
  }

  lemma CalmNext(g: Gate, results: seq<ReadResult>, n: nat)
    requires n < |results|
    ensures After(g, Calm(results[..n + 1])) == Body(After(g, Calm(results[..n])), results[n], false)
    ensures Kept(g, Calm(results[..n + 1])) ==
            Kept(g, Calm(results[..n])) + if Keeps(After(g, Calm(results[..n])), results[n]) then [results[n].p] else []
  {
    assert Calm(results[..n + 1])[..n] == Calm(results[..n]);
  }

  lemma Fed(f: Response<Packet, Frame>, given: seq<Packet>, read: ReadResult)
    requires read.Got?
    ensures var all := [] + f(given, read.p);
      Feeds(Out(f, given + [read.p])) == Feeds(Out(f, given)) + Feeds(all[..|all|]) && all[|all|..] == []
  {
    var all := [] + f(given, read.p);
    assert all == f(given, read.p) == all[..|all|];
    OutNext(f, given, read.p);
    FeedsAppend(Out(f, given), f(given, read.p));
  }
}
