/** The decoder and encoder tasks as two interleaved threads around the mutex-guarded filter graph, and
    the sequential transcoder they refine. */
module Pipeline {
  import opened Wrappers
  import opened Transducer
  import opened VideoIO
  import opened Decimator

  /** The three libraries: decoder, filter graph, encoder with multiplexer. */
  datatype Lib = Lib(dec: Response<Packet, Frame>, graph: Response<Frame, Frame>, enc: Response<Frame, Packet>)

  datatype Who = Decoder | Encoder

  datatype DecPc =
    | DRead
    | DDrain              // avcodec_receive_frame
    | DLock(f: Frame)
    | DPush(f: Frame)
    | DUnlock

  datatype EncPc =
    | ELock
    | EPop
    | EUnlock(got: Option<Frame>)
    | ESend(f: Frame)
    | EDrain              // avcodec_receive_packet and write

  datatype State = State(
    arrived: seq<Packet>, // every packet read so far
    gate: Gate,
    sent: seq<Packet>,    // packets sent to the decoder
    decoded: seq<Frame>,  // frames the decoder still holds
    pushed: seq<Frame>,   // frames pushed into the graph
    filtered: seq<Frame>, // frames the graph still holds
    handed: seq<Frame>,   // frames handed to the encoder
    encoded: seq<Packet>, // packets the encoder still holds
    written: seq<Packet>,
    lock: Option<Who>,
    dec: DecPc,
    enc: EncPc)

  datatype Step = DecStep(p: Packet) | EncStep

  predicate Init(st: State, g: Gate) {
    && g.skipFrames < U16 && g.skippedFrames == 0 && !g.readError
    && st == State([], g, [], [], [], [], [], [], [], None, DRead, ELock)
  }

  predicate Enabled(st: State, step: Step) {
    match step
    case DecStep(_) => st.dec.DLock? ==> st.lock == None
    case EncStep => st.enc.ELock? ==> st.lock == None
  }

  function DecDo(lib: Lib, st: State, p: Packet): State {
    match st.dec
    case DRead =>
      var st1 := st.(arrived := st.arrived + [p], gate := Body(st.gate, Got(p), false));
      if Keeps(st.gate, Got(p)) then
        st1.(sent := st.sent + [p], decoded := st.decoded + lib.dec(st.sent, p), dec := DDrain)
      else st1
    case DDrain =>
      if st.decoded == [] then st.(dec := DRead)
      else st.(decoded := st.decoded[1..], dec := DLock(st.decoded[0]))
    case DLock(f) => st.(lock := Some(Decoder), dec := DPush(f))
    case DPush(f) => st.(pushed := st.pushed + [f], filtered := st.filtered + lib.graph(st.pushed, f), dec := DUnlock)
    case DUnlock => st.(lock := None, dec := DDrain)
  }

  function EncDo(lib: Lib, st: State): State {
    match st.enc
    case ELock => st.(lock := Some(Encoder), enc := EPop)
    case EPop =>
      if st.filtered == [] then st.(enc := EUnlock(None))
      else st.(filtered := st.filtered[1..], enc := EUnlock(Some(st.filtered[0])))
    case EUnlock(got) => st.(lock := None, enc := if got.Some? then ESend(got.value) else ELock)
    case ESend(f) => st.(handed := st.handed + [f], encoded := st.encoded + lib.enc(st.handed, f), enc := EDrain)
    case EDrain =>
      if st.encoded == [] then st.(enc := ELock)
      else st.(encoded := st.encoded[1..], written := st.written + [st.encoded[0]])
  }

  function Do(lib: Lib, st: State, step: Step): State {
    match step
    case DecStep(p) => DecDo(lib, st, p)
    case EncStep => EncDo(lib, st)
  }

  /** The i-th step leads from the i-th state to the next. */
  predicate Stepped(lib: Lib, tr: seq<State>, steps: seq<Step>, i: int)
    requires 0 <= i < |steps| && |tr| == |steps| + 1
  {
    Enabled(tr[i], steps[i]) && tr[i + 1] == Do(lib, tr[i], steps[i])
  }

  ghost predicate Run(lib: Lib, g: Gate, tr: seq<State>, steps: seq<Step>) {
    && |tr| == |steps| + 1
    && Init(tr[0], g)
    && forall i :: 0 <= i < |steps| ==> Stepped(lib, tr, steps, i)
  }

  // ---------- the invariant ----------

  function DecHand(p: DecPc): seq<Frame> {
    if p.DLock? || p.DPush? then [p.f] else []
  }

  function EncHand(p: EncPc): seq<Frame> {
    if p.EUnlock? && p.got.Some? then [p.got.value]
    else if p.ESend? then [p.f]
    else []
  }

  function Reads(s: seq<Packet>): seq<Event> {
    seq(|s|, i requires 0 <= i < |s| => Event(Got(s[i]), false))
  }

  /** All a transducer made of what it was given: passed on, in somebody's hand, or still held. */
  predicate Flow<I, O(==)>(f: Response<I, O>, given: seq<I>, done: seq<O>, hand: seq<O>, held: seq<O>) {
    done + hand + held == Out(f, given)
  }

  predicate DecInv(lib: Lib, st: State) {
    && Flow(lib.dec, st.sent, st.pushed, DecHand(st.dec), st.decoded)
    && (st.dec == DRead ==> st.decoded == [])
  }

  predicate GraphInv(lib: Lib, st: State) {
    Flow(lib.graph, st.pushed, st.handed, EncHand(st.enc), st.filtered)
  }

  predicate EncInv(lib: Lib, st: State) {
    && Flow(lib.enc, st.handed, st.written, [], st.encoded)
    && (st.enc != EDrain ==> st.encoded == [])
  }

  predicate GateInv(g: Gate, st: State) {
    st.gate == After(g, Reads(st.arrived)) && st.sent == Kept(g, Reads(st.arrived))
  }

  predicate LockInv(st: State) {
    && (st.lock == Some(Decoder) <==> st.dec.DPush? || st.dec.DUnlock?)
    && (st.lock == Some(Encoder) <==> st.enc.EPop? || st.enc.EUnlock?)
  }

  predicate Inv(lib: Lib, g: Gate, st: State) {
    DecInv(lib, st) && GraphInv(lib, st) && EncInv(lib, st) && GateInv(g, st) && LockInv(st)
  }

  lemma ReadsNext(g: Gate, s: seq<Packet>, p: Packet)
    ensures After(g, Reads(s + [p])) == Body(After(g, Reads(s)), Got(p), false)
    ensures Kept(g, Reads(s + [p])) == Kept(g, Reads(s)) + if Keeps(After(g, Reads(s)), Got(p)) then [p] else []
  {
    assert Reads(s + [p])[..|s|] == Reads(s);
  }

  lemma FlowGive<I, O>(f: Response<I, O>, given: seq<I>, x: I, done: seq<O>, hand: seq<O>, held: seq<O>)
    requires Flow(f, given, done, hand, held)
    ensures Flow(f, given + [x], done, hand, held + f(given, x))
  {
    OutNext(f, given, x);
    assert done + hand + (held + f(given, x)) == (done + hand + held) + f(given, x);
  }

  lemma FlowTake<I, O>(f: Response<I, O>, given: seq<I>, done: seq<O>, held: seq<O>)
    requires held != [] && Flow(f, given, done, [], held)
    ensures Flow(f, given, done, [held[0]], held[1..])
  {
    assert done + [held[0]] + held[1..] == done + [] + held;
  }

  lemma FlowPass<I, O>(f: Response<I, O>, given: seq<I>, done: seq<O>, o: O, held: seq<O>)
    requires Flow(f, given, done, [o], held)
    ensures Flow(f, given, done + [o], [], held)
  {
    assert (done + [o]) + [] + held == done + [o] + held;
  }

  lemma DecKeepsDec(lib: Lib, st: State, p: Packet)
    requires DecInv(lib, st)
    ensures DecInv(lib, DecDo(lib, st, p))
  {
    match st.dec
    case DRead => FlowGive(lib.dec, st.sent, p, st.pushed, [], st.decoded);
    case DDrain => if st.decoded != [] { FlowTake(lib.dec, st.sent, st.pushed, st.decoded); }
    case DLock(_) =>
    case DPush(f) => FlowPass(lib.dec, st.sent, st.pushed, f, st.decoded);
    case DUnlock =>
  }

  lemma DecKeepsGraph(lib: Lib, st: State, p: Packet)
    requires GraphInv(lib, st)
    ensures GraphInv(lib, DecDo(lib, st, p))
  {
    if st.dec.DPush? {
      FlowGive(lib.graph, st.pushed, st.dec.f, st.handed, EncHand(st.enc), st.filtered);
    }
  }

  lemma EncKeepsGraph(lib: Lib, st: State)
    requires GraphInv(lib, st)
    ensures GraphInv(lib, EncDo(lib, st))
  {
    if st.enc.EPop? && st.filtered != [] {
      FlowTake(lib.graph, st.pushed, st.handed, st.filtered);
    } else if st.enc.ESend? {
      FlowPass(lib.graph, st.pushed, st.handed, st.enc.f, st.filtered);
    }
  }

  lemma EncKeepsEnc(lib: Lib, st: State)
    requires EncInv(lib, st)
    ensures EncInv(lib, EncDo(lib, st))
  {
    match st.enc
    case ESend(f) => FlowGive(lib.enc, st.handed, f, st.written, [], st.encoded);
    case EDrain =>
      if st.encoded != [] {
        FlowTake(lib.enc, st.handed, st.written, st.encoded);
        FlowPass(lib.enc, st.handed, st.written, st.encoded[0], st.encoded[1..]);
      }
    case _ =>
  }

  lemma DecKeepsGate(lib: Lib, g: Gate, st: State, p: Packet)
    requires GateInv(g, st)
    ensures GateInv(g, DecDo(lib, st, p))
  {
    if st.dec.DRead? {
      ReadsNext(g, st.arrived, p);
    }
  }

  lemma DecKeepsRest(lib: Lib, st: State, p: Packet)
    requires LockInv(st) && EncInv(lib, st) && Enabled(st, DecStep(p))
    ensures LockInv(DecDo(lib, st, p)) && EncInv(lib, DecDo(lib, st, p))
  {
  }

  lemma StepKeepsInv(lib: Lib, g: Gate, st: State, step: Step)
    requires Inv(lib, g, st) && Enabled(st, step)
    ensures Inv(lib, g, Do(lib, st, step))
  {
    match step
    case DecStep(p) =>
      DecKeepsDec(lib, st, p);
      DecKeepsGraph(lib, st, p);
      DecKeepsGate(lib, g, st, p);
      DecKeepsRest(lib, st, p);
    case EncStep =>
      EncKeepsGraph(lib, st);
      EncKeepsEnc(lib, st);
  }

  lemma {:induction false} RunKeepsInv(lib: Lib, g: Gate, tr: seq<State>, steps: seq<Step>, i: nat)
    requires Run(lib, g, tr, steps) && i < |tr|
    ensures Inv(lib, g, tr[i])
  {
    if i > 0 {
      RunKeepsInv(lib, g, tr, steps, i - 1);
      assert Stepped(lib, tr, steps, i - 1);
      StepKeepsInv(lib, g, tr[i - 1], steps[i - 1]);
    }
  }

  // ---------- refinement ----------

  /** What transcoding these packets one after the other, draining everything each time, writes. */
  function Sequential(lib: Lib, packets: seq<Packet>): seq<Packet> {
    Out(lib.enc, Out(lib.graph, Out(lib.dec, packets)))
  }

  /** Whatever the scheduling, the frames handed to the encoder are, in order, a prefix of the filter
      graph's output on the frames pushed so far. */
  lemma HandedIsPrefix(lib: Lib, g: Gate, tr: seq<State>, steps: seq<Step>, i: nat)
    requires Run(lib, g, tr, steps) && i < |tr|
    ensures tr[i].handed + EncHand(tr[i].enc) <= Out(lib.graph, tr[i].pushed)
  {
    RunKeepsInv(lib, g, tr, steps, i);
  }

  /** The two-thread pipeline refines the sequential transcoder: at every moment of every schedule what it
      has written is a prefix of what the sequential one writes for every period-th packet read so far,
      and it is all of it whenever neither thread holds anything. */
  lemma RefinesSequential(lib: Lib, g: Gate, tr: seq<State>, steps: seq<Step>, i: nat)
    requires Run(lib, g, tr, steps) && i < |tr|
    ensures EveryNth(tr[i].sent, Reads(tr[i].arrived), Period(g))
    ensures tr[i].written <= Sequential(lib, tr[i].sent)
    ensures (tr[i].dec == DRead && EncHand(tr[i].enc) == [] && tr[i].filtered == [] && tr[i].enc != EDrain) ==>
              tr[i].written == Sequential(lib, tr[i].sent)
  {
    var st := tr[i];
    RunKeepsInv(lib, g, tr, steps, i);
    Decimates(g, Reads(st.arrived));
    OutPrefix(lib.graph, st.pushed, Out(lib.dec, st.sent));
    Chain(st.handed, Out(lib.graph, st.pushed), Out(lib.graph, Out(lib.dec, st.sent)));
    OutPrefix(lib.enc, st.handed, Out(lib.graph, Out(lib.dec, st.sent)));
    Chain(st.written, Out(lib.enc, st.handed), Sequential(lib, st.sent));
    if st.dec == DRead && EncHand(st.enc) == [] && st.filtered == [] && st.enc != EDrain {
      assert st.pushed + [] + [] == st.pushed && st.handed + [] + [] == st.handed && st.written + [] == st.written;
    }
  }

  lemma Chain<T>(a: seq<T>, b: seq<T>, c: seq<T>)
    requires a <= b <= c
    ensures a <= c
  {
  }

  /** When a packet or a frame is sent to a codec, that codec holds nothing: no send is ever refused. */
  lemma SendsNeverRefused(lib: Lib, g: Gate, tr: seq<State>, steps: seq<Step>, i: nat)
    requires Run(lib, g, tr, steps) && i < |tr|
    ensures tr[i].dec == DRead ==> tr[i].decoded == []
    ensures tr[i].enc.ESend? ==> tr[i].encoded == []
  {
    RunKeepsInv(lib, g, tr, steps, i);
  }

  /** The sequential transcoder: each packet is decoded, each frame filtered and each filtered frame
      encoded before the next is looked at. */
  method TranscodeSequentially(lib: Lib, packets: seq<Packet>) returns (written: seq<Packet>)
    ensures written == Sequential(lib, packets)
  {
    written := [];
    var pushed: seq<Frame>, handed: seq<Frame> := [], [];
    for i := 0 to |packets|
      invariant pushed == Out(lib.dec, packets[..i])
      invariant handed == Out(lib.graph, pushed) && written == Out(lib.enc, handed)
    {
      OutNext(lib.dec, packets[..i], packets[i]);
      assert packets[..i + 1] == packets[..i] + [packets[i]];
      pushed, handed, written := DecodeAll(lib, lib.dec(packets[..i], packets[i]), pushed, handed, written);
    }
    assert packets[..|packets|] == packets;
  }

  /** The decode loop: onDecoded for each frame the packet made available. */
  method DecodeAll(lib: Lib, decoded: seq<Frame>, pushed: seq<Frame>, handed: seq<Frame>, written: seq<Packet>)
    returns (pushed': seq<Frame>, handed': seq<Frame>, written': seq<Packet>)
    requires handed == Out(lib.graph, pushed) && written == Out(lib.enc, handed)
    ensures pushed' == pushed + decoded && handed' == Out(lib.graph, pushed') && written' == Out(lib.enc, handed')
  {
    pushed', handed', written' := pushed, handed, written;
    for j := 0 to |decoded|
      invariant pushed' == pushed + decoded[..j]
      invariant handed' == Out(lib.graph, pushed') && written' == Out(lib.enc, handed')
    {
      pushed', handed', written' := OnDecoded(lib, pushed', decoded[j], handed', written');
    }
  }

  /** onDecoded: push the frame, then pop and encode until nothing is left. */
  method OnDecoded(lib: Lib, pushed: seq<Frame>, f: Frame, handed: seq<Frame>, written: seq<Packet>)
    returns (pushed': seq<Frame>, handed': seq<Frame>, written': seq<Packet>)
    requires handed == Out(lib.graph, pushed) && written == Out(lib.enc, handed)
    ensures pushed' == pushed + [f] && handed' == Out(lib.graph, pushed') && written' == Out(lib.enc, handed')
  {
    var filtered := lib.graph(pushed, f);
    OutNext(lib.graph, pushed, f);
    pushed', handed', written' := pushed + [f], handed, written;
    for k := 0 to |filtered|
      invariant handed' == handed + filtered[..k] && written' == Out(lib.enc, handed')
    {
      NextOf(handed, filtered, k);
      OutNext(lib.enc, handed', filtered[k]);
      written' := written' + lib.enc(handed', filtered[k]);
      handed' := handed' + [filtered[k]];
    }
    assert filtered[..|filtered|] == filtered;
  }

  lemma NextOf<T>(a: seq<T>, b: seq<T>, k: nat)
    requires k < |b|
    ensures a + b[..k + 1] == a + b[..k] + [b[k]]
  {
  }
}
