/** libav's codecs and filter graphs as transducers: each input may make some outputs available, and
    which ones depends only on the inputs so far. */
module Transducer {

  /** What the input `x` makes available after the inputs `h`. */
  type Response<!I, !O> = (seq<I>, I) -> seq<O>

  function Out<I, O>(f: Response<I, O>, h: seq<I>): seq<O> {
    if h == [] then []
    else
      var n := |h| - 1;
      Out(f, h[..n]) + f(h[..n], h[n])
  }

  lemma OutNext<I, O>(f: Response<I, O>, h: seq<I>, x: I)
    ensures Out(f, h + [x]) == Out(f, h) + f(h, x)
  {
    assert (h + [x])[..|h|] == h;
  }

  /** More input only adds output at the end. */
  lemma {:induction false} OutPrefix<I, O>(f: Response<I, O>, h: seq<I>, k: seq<I>)
    requires h <= k
    ensures Out(f, h) <= Out(f, k)
    decreases |k|
  {
    if |h| < |k| {
      var n := |k| - 1;
      assert h <= k[..n];
      OutPrefix(f, h, k[..n]);
    } else {
      assert h == k;
    }
  }

  // libav's return values: zero, AVERROR(EAGAIN), AVERROR_EOF, any other negative value.
  datatype Code = Ok | Again | Eof | Bad(n: int)

  /** A codec context between send and receive. `given` is all it was sent, `taken` all it gave. */
  class Codec<!I, !O> {
    const respond: Response<I, O>
    var given: seq<I>
    var pending: seq<O>
    ghost var taken: seq<O>

    ghost predicate Valid()
      reads this
    {
      taken + pending == Out(respond, given)
    }

    constructor (f: Response<I, O>)
      ensures Valid() && respond == f && given == [] && pending == [] && taken == []
    {
      respond := f;
      given, pending, taken := [], [], [];
    }

    /** `answer` is what the library says; it may ask to be drained first only if it holds something. */
    method Send(x: I, answer: Code) returns (r: Code)
      requires Valid() && answer != Eof && (answer == Again ==> pending != [])
      modifies this
      ensures Valid() && r == answer && taken == old(taken)
      ensures given == old(given) + if r == Ok then [x] else []
      ensures pending == old(pending) + if r == Ok then respond(old(given), x) else []
    {
      r := answer;
      if r == Ok {
        OutNext(respond, given, x);
        assert taken + (pending + respond(given, x)) == taken + pending + respond(given, x);
        pending := pending + respond(given, x);
        given := given + [x];
      }
    }

    /** `bad` injects an error; `empty` is what the library says when it holds nothing. */
    method Receive(bad: bool, n: int, empty: Code) returns (r: Code, o: seq<O>)
      requires Valid() && (empty == Again || empty == Eof)
      modifies this`pending, this`taken
      ensures Valid()
      ensures r == if bad then Bad(n) else if old(pending) == [] then empty else Ok
      ensures r == Ok ==> |o| == 1 && old(pending) == o + pending && taken == old(taken) + o
      ensures r != Ok ==> o == [] && pending == old(pending) && taken == old(taken)
    {
      o := [];
      if bad {
        r := Bad(n);
      } else if pending == [] {
        r := empty;
      } else {
        r, o := Ok, pending[..1];
        assert taken + pending == (taken + o) + pending[1..];
        pending, taken := pending[1..], taken + o;
      }
    }
  }
}
