/** What the two threads of the pipeline deliver: how many steps each has left until it has passed on all
    there is. */
module PipelineProgress {
  import opened Wrappers
  import opened Transducer
  import opened VideoIO
  import opened Decimator
  import opened Pipeline

  // ---------- the decoder ----------

  /** How many steps the decoder takes until it reads the next packet. */
  function DecLeft(st: State): nat {
    match st.dec
    case DRead => 0
    case DDrain => 1 + 4 * |st.decoded|
    case DLock(_) => 4 + 4 * |st.decoded|
    case DPush(_) => 3 + 4 * |st.decoded|
    case DUnlock => 2 + 4 * |st.decoded|
  }

  lemma DecNears(lib: Lib, st: State, p: Packet)
    requires DecLeft(st) > 0
    ensures DecLeft(DecDo(lib, st, p)) == DecLeft(st) - 1
    ensures DecDo(lib, st, p).sent == st.sent && DecDo(lib, st, p).arrived == st.arrived
  {
  }

  /** With none left every frame of every packet sent has been pushed into the graph, once and in order. */
  lemma DecDone(lib: Lib, g: Gate, st: State)
    requires Inv(lib, g, st) && DecLeft(st) == 0
    ensures st.pushed == Out(lib.dec, st.sent)
  {
    assert st.pushed + [] + [] == st.pushed;
  }

  // ---------- the encoder ----------

  /** How many steps it takes to pop, encode and write these frames. */
  function Cost(lib: Lib, handed: seq<Frame>, fs: seq<Frame>): nat
    decreases |fs|
  {
    if fs == [] then 0 else 5 + |lib.enc(handed, fs[0])| + Cost(lib, handed + [fs[0]], fs[1..])
  }

  /** How many steps the encoder takes until the graph is empty and it is back at the mutex. */
  function EncLeft(lib: Lib, st: State): nat {
    match st.enc
    case ELock => Cost(lib, st.handed, st.filtered)
    case EPop => if st.filtered == [] then 2 else Cost(lib, st.handed, st.filtered) - 1
    case EUnlock(None) => 1 + Cost(lib, st.handed, st.filtered)
    case EUnlock(Some(f)) => 3 + |lib.enc(st.handed, f)| + Cost(lib, st.handed + [f], st.filtered)
    case ESend(f) => 2 + |lib.enc(st.handed, f)| + Cost(lib, st.handed + [f], st.filtered)
    case EDrain => 1 + |st.encoded| + Cost(lib, st.handed, st.filtered)
  }

  lemma PopNears(lib: Lib, st: State)
    requires GraphInv(lib, st) && (st.enc == EPop || st.enc == ELock) && EncLeft(lib, st) > 0
    ensures EncLeft(lib, EncDo(lib, st)) == EncLeft(lib, st) - 1
  {
  }

  lemma UnlockNears(lib: Lib, st: State)
    requires st.enc.EUnlock?
    ensures EncLeft(lib, EncDo(lib, st)) == EncLeft(lib, st) - 1
  {
  }

  lemma SendNears(lib: Lib, st: State)
    requires EncInv(lib, st) && st.enc.ESend?
    ensures EncLeft(lib, EncDo(lib, st)) == EncLeft(lib, st) - 1
  {
  }

  lemma DrainNears(lib: Lib, st: State)
    requires st.enc == EDrain
    ensures EncLeft(lib, EncDo(lib, st)) == EncLeft(lib, st) - 1
  {
  }

  lemma EncNears(lib: Lib, g: Gate, st: State)
    requires Inv(lib, g, st) && EncLeft(lib, st) > 0
    ensures EncLeft(lib, EncDo(lib, st)) == EncLeft(lib, st) - 1
    ensures EncDo(lib, st).pushed == st.pushed && EncDo(lib, st).sent == st.sent
  {
    match st.enc
    case EUnlock(_) => UnlockNears(lib, st);
    case ESend(_) => SendNears(lib, st);
    case EDrain => DrainNears(lib, st);
    case _ => PopNears(lib, st);
  }

  lemma FreeLock(st: State)
    requires LockInv(st) && !(st.dec.DPush? || st.dec.DUnlock?) && !(st.enc.EPop? || st.enc.EUnlock?)
    ensures st.lock == None
  {
    match st.lock
    case None =>
    case Some(Decoder) =>
    case Some(Encoder) =>
  }

  /** With none left every frame that came out of the graph was handed to the encoder, and every packet that
      came out of that was written, each once and in order. */
  lemma EncDone(lib: Lib, g: Gate, st: State)
    requires Inv(lib, g, st) && EncLeft(lib, st) == 0
    ensures st.handed == Out(lib.graph, st.pushed) && st.written == Out(lib.enc, st.handed)
  {
    assert st.filtered == [];
    assert st.handed + [] + [] == st.handed && st.written + [] + [] == st.written;
  }

  // ---------- over a run ----------

  /** From the i-th to the j-th moment only `who` takes steps. */
  ghost predicate Alone(steps: seq<Step>, i: nat, j: nat, who: Who)
    requires j <= |steps|
  {
    forall k :: i <= k < j ==> steps[k].DecStep? == (who == Decoder)
  }

  lemma StepAt(lib: Lib, g: Gate, tr: seq<State>, steps: seq<Step>, k: nat)
    requires Run(lib, g, tr, steps) && k < |steps|
    ensures Inv(lib, g, tr[k]) && Enabled(tr[k], steps[k]) && tr[k + 1] == Do(lib, tr[k], steps[k])
  {
    RunKeepsInv(lib, g, tr, steps, k);
    assert Stepped(lib, tr, steps, k);
  }

  lemma EncStepAt(lib: Lib, g: Gate, tr: seq<State>, steps: seq<Step>, k: nat)
    requires Run(lib, g, tr, steps) && k < |steps| && steps[k].EncStep? && EncLeft(lib, tr[k]) > 0
    ensures EncLeft(lib, tr[k + 1]) == EncLeft(lib, tr[k]) - 1 && tr[k + 1].pushed == tr[k].pushed
  {
    StepAt(lib, g, tr, steps, k);
    EncNears(lib, g, tr[k]);
  }

  lemma {:induction false} EncoderGoes(lib: Lib, g: Gate, tr: seq<State>, steps: seq<Step>, i: nat, j: nat)
    requires Run(lib, g, tr, steps) && i <= j < |tr| && Alone(steps, i, j, Encoder)
    requires j - i <= EncLeft(lib, tr[i])
    ensures EncLeft(lib, tr[j]) == EncLeft(lib, tr[i]) - (j - i) && tr[j].pushed == tr[i].pushed
    decreases j
  {
    if i < j {
      EncoderGoes(lib, g, tr, steps, i, j - 1);
      EncStepAt(lib, g, tr, steps, j - 1);
    }
  }

  /** EncLeft steps of the encoder, the decoder taking none, leave all frames handed on and all packets
      written. */
  lemma EncoderDelivers(lib: Lib, g: Gate, tr: seq<State>, steps: seq<Step>, i: nat, j: nat)
    requires Run(lib, g, tr, steps) && i <= j < |tr| && Alone(steps, i, j, Encoder)
    requires j - i == EncLeft(lib, tr[i])
    ensures tr[j].pushed == tr[i].pushed
    ensures tr[j].handed == Out(lib.graph, tr[j].pushed) && tr[j].written == Out(lib.enc, tr[j].handed)
  {
    EncoderGoes(lib, g, tr, steps, i, j);
    RunKeepsInv(lib, g, tr, steps, j);
    EncDone(lib, g, tr[j]);
  }

  lemma DecStepAt(lib: Lib, g: Gate, tr: seq<State>, steps: seq<Step>, k: nat)
    requires Run(lib, g, tr, steps) && k < |steps| && steps[k].DecStep? && DecLeft(tr[k]) > 0
    ensures DecLeft(tr[k + 1]) == DecLeft(tr[k]) - 1 && tr[k + 1].sent == tr[k].sent
  {
    StepAt(lib, g, tr, steps, k);
    DecNears(lib, tr[k], steps[k].p);
  }

  lemma {:induction false} DecoderGoes(lib: Lib, g: Gate, tr: seq<State>, steps: seq<Step>, i: nat, j: nat)
    requires Run(lib, g, tr, steps) && i <= j < |tr| && Alone(steps, i, j, Decoder)
    requires j - i <= DecLeft(tr[i])
    ensures DecLeft(tr[j]) == DecLeft(tr[i]) - (j - i) && tr[j].sent == tr[i].sent
    decreases j
  {
    if i < j {
      DecoderGoes(lib, g, tr, steps, i, j - 1);
      DecStepAt(lib, g, tr, steps, j - 1);
    }
  }

  /** DecLeft steps of the decoder leave every frame of every packet sent pushed. */
  lemma DecoderDelivers(lib: Lib, g: Gate, tr: seq<State>, steps: seq<Step>, i: nat, j: nat)
    requires Run(lib, g, tr, steps) && i <= j < |tr| && Alone(steps, i, j, Decoder)
    requires j - i == DecLeft(tr[i])
    ensures tr[j].sent == tr[i].sent && tr[j].pushed == Out(lib.dec, tr[j].sent)
  {
    DecoderGoes(lib, g, tr, steps, i, j);
    RunKeepsInv(lib, g, tr, steps, j);
    DecDone(lib, g, tr[j]);
  }

  /** The packets read before the i-th moment. */
  function ReadBy(tr: seq<State>, steps: seq<Step>, i: nat): seq<Packet>
    requires i <= |steps| < |tr|
  {
    if i == 0 then []
    else ReadBy(tr, steps, i - 1)
         + if steps[i - 1].DecStep? && tr[i - 1].dec == DRead then [steps[i - 1].p] else []
  }

  lemma ReadAt(lib: Lib, g: Gate, tr: seq<State>, steps: seq<Step>, k: nat)
    requires Run(lib, g, tr, steps) && k < |steps|
    ensures tr[k + 1].arrived ==
            tr[k].arrived + if steps[k].DecStep? && tr[k].dec == DRead then [steps[k].p] else []
  {
    StepAt(lib, g, tr, steps, k);
  }

  /** `arrived` is what was read. */
  lemma {:induction false} AllRead(lib: Lib, g: Gate, tr: seq<State>, steps: seq<Step>, i: nat)
    requires Run(lib, g, tr, steps) && i < |tr|
    ensures tr[i].arrived == ReadBy(tr, steps, i)
  {
    if i > 0 {
      AllRead(lib, g, tr, steps, i - 1);
      ReadAt(lib, g, tr, steps, i - 1);
    }
  }

  // ---------- every run can be finished ----------

  /** A continuation from `a` to `b` in which no packet is read. */
  ghost predicate Finishes(lib: Lib, a: State, b: State, tr: seq<State>, steps: seq<Step>) {
    && |tr| == |steps| + 1 && tr[0] == a && tr[|steps|] == b
    && forall k :: 0 <= k < |steps| ==> Finishing(lib, tr, steps, k)
  }

  predicate Finishing(lib: Lib, tr: seq<State>, steps: seq<Step>, k: int)
    requires 0 <= k < |steps| && |tr| == |steps| + 1
  {
    && Enabled(tr[k], steps[k]) && tr[k + 1] == Do(lib, tr[k], steps[k])
    && (steps[k].DecStep? ==> tr[k].dec != DRead)
  }

  lemma Then(lib: Lib, a: State, step: Step, b: State, tr: seq<State>, steps: seq<Step>)
    requires Enabled(a, step) && (step.DecStep? ==> a.dec != DRead)
    requires Finishes(lib, Do(lib, a, step), b, tr, steps)
    ensures Finishes(lib, a, b, [a] + tr, [step] + steps)
  {
    var more, all := [a] + tr, [step] + steps;
    forall k | 0 <= k < |all| ensures Finishing(lib, more, all, k) {
      if k > 0 { assert Finishing(lib, tr, steps, k - 1); }
    }
  }

  /** The decoder finishes the packet it has, with the encoder letting go of the mutex first. */
  lemma {:induction false} FinishDecoder(lib: Lib, g: Gate, a: State)
    returns (b: State, tr: seq<State>, steps: seq<Step>)
    requires Inv(lib, g, a)
    ensures Finishes(lib, a, b, tr, steps) && Inv(lib, g, b) && b.dec == DRead && b.sent == a.sent
    decreases DecLeft(a), if a.enc.EPop? then 2 else if a.enc.EUnlock? then 1 else 0
  {
    if a.dec == DRead {
      return a, [a], [];
    }
    var step := if a.enc.EPop? || a.enc.EUnlock? then EncStep else DecStep(0);
    if a.dec.DLock? && step.DecStep? { FreeLock(a); }
    StepKeepsInv(lib, g, a, step);
    if step.DecStep? { DecNears(lib, a, 0); }
    b, tr, steps := FinishDecoder(lib, g, Do(lib, a, step));
    Then(lib, a, step, b, tr, steps);
    tr, steps := [a] + tr, [step] + steps;
  }

  /** Then the encoder does all there is to do. */
  lemma {:induction false} FinishEncoder(lib: Lib, g: Gate, a: State)
    returns (b: State, tr: seq<State>, steps: seq<Step>)
    requires Inv(lib, g, a) && a.dec == DRead
    ensures Finishes(lib, a, b, tr, steps) && Inv(lib, g, b) && b.dec == DRead && EncLeft(lib, b) == 0
    ensures b.pushed == a.pushed && b.sent == a.sent
    decreases EncLeft(lib, a)
  {
    if EncLeft(lib, a) == 0 {
      return a, [a], [];
    }
    if a.enc.ELock? { FreeLock(a); }
    StepKeepsInv(lib, g, a, EncStep);
    EncNears(lib, g, a);
    b, tr, steps := FinishEncoder(lib, g, EncDo(lib, a));
    Then(lib, a, EncStep, b, tr, steps);
    tr, steps := [a] + tr, [EncStep] + steps;
  }

  lemma Both(lib: Lib, a: State, b: State, c: State, tr: seq<State>, steps: seq<Step>,
             tr2: seq<State>, steps2: seq<Step>)
    requires Finishes(lib, a, b, tr, steps) && Finishes(lib, b, c, tr2, steps2)
    ensures Finishes(lib, a, c, tr[..|steps|] + tr2, steps + steps2)
  {
    var more, all := tr[..|steps|] + tr2, steps + steps2;
    forall k | 0 <= k < |all| ensures Finishing(lib, more, all, k) {
      if k < |steps| {
        assert Finishing(lib, tr, steps, k);
      } else {
        assert Finishing(lib, tr2, steps2, k - |steps|);
      }
    }
  }

  /** From every reachable state the two threads, reading no further packet, can get to where everything the
      sequential transcoder writes for the packets sent has been written. */
  lemma CanFinish(lib: Lib, g: Gate, tr: seq<State>, steps: seq<Step>, i: nat)
    returns (c: State, more: seq<State>, moreSteps: seq<Step>)
    requires Run(lib, g, tr, steps) && i < |tr|
    ensures Finishes(lib, tr[i], c, more, moreSteps)
    ensures c.sent == tr[i].sent && c.written == Sequential(lib, c.sent)
  {
    RunKeepsInv(lib, g, tr, steps, i);
    var b, tr1, steps1 := FinishDecoder(lib, g, tr[i]);
    var tr2, steps2;
    c, tr2, steps2 := FinishEncoder(lib, g, b);
    Both(lib, tr[i], b, c, tr1, steps1, tr2, steps2);
    DecDone(lib, g, c);
    EncDone(lib, g, c);
    return c, tr1[..|steps1|] + tr2, steps1 + steps2;
  }
}
