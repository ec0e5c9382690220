/** VideoOutput::encode, VideoInput::decode and FilterGraph: the loops that drain a codec. */
module VideoIO {
  import opened Transducer

  type Packet = nat
  type Frame = nat

  datatype Ret = Returned(b: bool) | Thrown(n: int)

  /** What goes wrong inside the library during one call, and at which round of the loop. */
  datatype Fault =
    | NoFault
    | SendRefused
    | SendBad(n: int)
    | ReceiveBad(at: nat, n: int)
    | WriteAgain(at: nat)
    | WriteBad(at: nat, n: int)

  function SendAnswer(f: Fault): Code {
    match f
    case SendRefused => Again
    case SendBad(n) => Bad(n)
    case _ => Ok
  }

  /** The first of what is left of `all` has been taken. */
  lemma TakeNext(all: seq<Packet>, i: nat, o: seq<Packet>, rest: seq<Packet>)
    requires i <= |all| && |o| == 1 && all[i..] == o + rest
    ensures i < |all| && rest == all[i + 1..] && o[0] == all[i]
  {
    assert o[0] == all[i..][0] && rest == all[i..][1..];
  }

  class VideoOutput {
    const codec: Codec<Frame, Packet>
    const rescale: Packet -> Packet
    var written: seq<Packet>

    constructor (codec: Codec<Frame, Packet>, rescale: Packet -> Packet)
      ensures this.codec == codec && this.rescale == rescale && written == []
    {
      this.codec, this.rescale, written := codec, rescale, [];
    }

    /** Every exit. `calm` is the way out without a fault, or with one the loop does not get to. On each:
        the result, exactly which packets were written, once, in order and rescaled exactly if `rescaleTs`,
        what the codec still holds, and one packet object allocated and freed unless the send failed. */
    method Encode(frame: Frame, rescaleTs: bool, fault: Fault, empty: Code) returns (r: Ret, allocs: nat, frees: nat)
      requires codec.Valid() && (fault == SendRefused ==> codec.pending != [])
      requires empty == Again || empty == Eof
      modifies this, codec
      ensures codec.Valid()
      ensures frees == allocs == if fault.SendRefused? || fault.SendBad? then 0 else 1
      ensures codec.given == old(codec.given) + if fault.SendRefused? || fault.SendBad? then [] else [frame]
      ensures fault.SendRefused? || fault.SendBad? ==>
        && codec.pending == old(codec.pending) && written == old(written)
        && r == if fault.SendRefused? then Returned(false) else Thrown(fault.n)
      ensures |old(written)| <= |written| && forall j :: 0 <= j < |old(written)| ==> written[j] == old(written)[j]
      ensures !(fault.SendRefused? || fault.SendBad?) ==>
        var all, from := old(codec.pending) + codec.respond(old(codec.given), frame), |old(written)|;
        && |written| - from <= |all|
        && (forall j :: 0 <= j < |written| - from ==>
              written[from + j] == if rescaleTs then rescale(all[j]) else all[j])
        && (fault == NoFault ==> |written| - from == |all| && codec.pending == [] && r == Returned(empty == Eof))
        && (fault.ReceiveBad? ==>
              if fault.at <= |all|
              then |written| - from == fault.at && codec.pending == all[fault.at..] && r == Thrown(fault.n)
              else |written| - from == |all| && codec.pending == [] && r == Returned(empty == Eof))
        && (fault.WriteAgain? || fault.WriteBad? ==>
              if fault.at < |all|
              then && |written| - from == fault.at && codec.pending == all[fault.at + 1..]
                   && r == if fault.WriteAgain? then Returned(false) else Thrown(fault.n)
              else |written| - from == |all| && codec.pending == [] && r == Returned(empty == Eof))
    {
      allocs, frees := 0, 0;
      var c := codec.Send(frame, SendAnswer(fault));
      if c == Again { return Returned(false), allocs, frees; }
      if c.Bad? { return Thrown(c.n), allocs, frees; }
      allocs := allocs + 1;
      r, frees := Drain(rescaleTs, fault, empty);
    }

    /** The receive loop of encode, with its ways out. */
    method Drain(rescaleTs: bool, fault: Fault, empty: Code) returns (r: Ret, frees: nat)
      requires codec.Valid() && !(fault.SendRefused? || fault.SendBad?) && (empty == Again || empty == Eof)
      modifies this, codec`pending, codec`taken
      ensures codec.Valid() && frees == 1
      ensures |old(written)| <= |written| && forall j :: 0 <= j < |old(written)| ==> written[j] == old(written)[j]
      ensures var all, from := old(codec.pending), |old(written)|;
        && |written| - from <= |all|
        && (forall j :: 0 <= j < |written| - from ==>
              written[from + j] == if rescaleTs then rescale(all[j]) else all[j])
        && (fault == NoFault ==> |written| - from == |all| && codec.pending == [] && r == Returned(empty == Eof))
        && (fault.ReceiveBad? ==>
              if fault.at <= |all|
              then |written| - from == fault.at && codec.pending == all[fault.at..] && r == Thrown(fault.n)
              else |written| - from == |all| && codec.pending == [] && r == Returned(empty == Eof))
        && (fault.WriteAgain? || fault.WriteBad? ==>
              if fault.at < |all|
              then && |written| - from == fault.at && codec.pending == all[fault.at + 1..]
                   && r == if fault.WriteAgain? then Returned(false) else Thrown(fault.n)
              else |written| - from == |all| && codec.pending == [] && r == Returned(empty == Eof))
    {
      ghost var all := codec.pending;
      var i: nat := 0;
      frees := 0;
      while true
        invariant codec.Valid()
        invariant i <= |all| && codec.pending == all[i..]
        invariant fault.ReceiveBad? || fault.WriteAgain? || fault.WriteBad? ==> i <= fault.at
        invariant |written| == |old(written)| + i
        invariant forall j :: 0 <= j < |old(written)| ==> written[j] == old(written)[j]
        invariant forall j :: 0 <= j < i ==>
                    written[|old(written)| + j] == if rescaleTs then rescale(all[j]) else all[j]
        decreases |all| - i
      {
        var c, p := codec.Receive(fault.ReceiveBad? && fault.at == i, if fault.ReceiveBad? then fault.n else 0, empty);
        if c == Eof { break; }
        if c != Ok {
          frees := frees + 1;
          if c == Again { return Returned(false), frees; }
          return Thrown(c.n), frees;
        }
        TakeNext(all, i, p, codec.pending);
        if (fault.WriteAgain? || fault.WriteBad?) && fault.at == i {
          frees := frees + 1;
          if fault.WriteAgain? { return Returned(false), frees; }
          return Thrown(fault.n), frees;
        }
        written := written + [if rescaleTs then rescale(p[0]) else p[0]];
        i := i + 1;
      }
      frees := frees + 1;
      return Returned(true), frees;
    }
  }
}
