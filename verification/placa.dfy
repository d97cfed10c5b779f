/** The board: the pin registry and the register bank the GPIO layer writes.

    Register side effects are modelled as values. An operation maps a machine
    state `Mcu` to an `Effect`: the state afterwards together with the trace
    of bus events it performed, in order (interrupt mask changes and register
    stores). `Run` replays a trace, so a trace is a complete record of what an
    operation did to the hardware.
 */
module Placa {
  import opened Bits

  // ---------------------------------------------------------------- registry

  /** The GPIO ports the registry refers to. Only port A is used. */
  datatype PortId = GPIOA

  /** Bit index of a line within its 16-line port. */
  type PinIndex = n: bv5 | n < 16

  /** One physical line: its port, bit index and the clock-enable bit of the
      port in RCC->IOPENR. */
  datatype Pin = Pin(puerto: PortId, nrPin: PinIndex, mascaraIOPEN: bv32)

  /** Bit 0 of RCC->IOPENR enables the clock of port A. */
  const RCC_IOPENR_GPIOAEN: bv32 := 0x1

  /** Handles are the enumerators of the pin enumeration, in table order. */
  const SP_PA6: nat := 0
  const SP_PA4: nat := 1
  const SP_NUM_PINES: nat := 2

  /** The fixed pin table, indexed by handle. */
  const pines: seq<Pin> := [
    Pin(GPIOA, 6, RCC_IOPENR_GPIOAEN),
    Pin(GPIOA, 4, RCC_IOPENR_GPIOAEN)
  ]

  /** The descriptor of a handle. The table has no bounds check of its own:
      the caller must pass a handle below SP_NUM_PINES. */
  function PinDeHandle(hPin: nat): (p: Pin)
    requires hPin < SP_NUM_PINES
    ensures p.puerto == GPIOA && p.mascaraIOPEN == RCC_IOPENR_GPIOAEN
    ensures p.nrPin < 8
    ensures hPin == SP_PA6 <==> p.nrPin == 6
    ensures hPin == SP_PA4 <==> p.nrPin == 4
  {
    pines[hPin]
  }

  /** Distinct handles name distinct lines. */
  lemma PinDeHandleInjective(h1: nat, h2: nat)
    requires h1 < SP_NUM_PINES && h2 < SP_NUM_PINES && h1 != h2
    ensures PinDeHandle(h1).nrPin != PinDeHandle(h2).nrPin
  {
  }

  // ------------------------------------------------------------ field offsets

  /** Offset of a pin's 2-bit field as the configuration helpers compute
      it: `(nrPin % 8) * 2`. It is a valid field offset, and the line's own
      field for lines 0 to 7. */
  function OffsetAsWritten(n: PinIndex): (off: bv5)
    ensures FieldOffset2(off)
    ensures n < 8 ==> off == n * 2
  {
    (n % 8) * 2
  }

  /** Offset of a pin's 2-bit field in MODER, PUPDR and OSPEEDR, which hold
      all 16 lines of the port at two bits each. */
  function Offset(n: PinIndex): (off: bv5)
    ensures FieldOffset2(off)
  {
    n * 2
  }

  /** With the formula as written, line 9 and line 1 share a field: a write
      meant for line 9 changes line 1's field and leaves line 9's alone. */
  lemma OffsetAsWrittenAliases(reg: bv32, code: bv32)
    requires code & 0x3 != ReadField(reg, Offset(1))
    ensures OffsetAsWritten(9) == Offset(1)
    ensures ReadField(WriteField(reg, OffsetAsWritten(9), code), Offset(9)) == ReadField(reg, Offset(9))
    ensures ReadField(WriteField(reg, OffsetAsWritten(9), code), Offset(1)) != ReadField(reg, Offset(1))
  {
  }

  /** The corrected offset gives every line its own field: the line can be
      recovered from it, and the fields of two lines share no bit. */
  lemma OffsetSeparatesPins(a: PinIndex, b: PinIndex)
    ensures Offset(a) >> 1 == a
    ensures a != b ==> FieldMask(Offset(a)) & FieldMask(Offset(b)) == 0
  {
  }

  /** On every line of the registry both formulas agree. */
  lemma OffsetsAgreeOnRegistry(hPin: nat)
    requires hPin < SP_NUM_PINES
    ensures OffsetAsWritten(PinDeHandle(hPin).nrPin) == Offset(PinDeHandle(hPin).nrPin)
  {
  }

  // ------------------------------------------------------------ register bank

  /** The registers of one GPIO port that this layer touches or reads. */
  datatype GpioPort = GpioPort(
    moder: bv32,
    otyper: bv32,
    ospeedr: bv32,
    pupdr: bv32,
    idr: bv32,
    odr: bv32
  )

  /** The machine: the RCC port clock-enable register, port A, and whether
      interrupts are enabled (PRIMASK clear). */
  datatype Mcu = Mcu(iopenr: bv32, gpioa: GpioPort, irqEnabled: bool)

  /** Registers the layer stores to. BSRR and BRR are write-only: they act on
      the output data register. */
  datatype Reg = IOPENR | MODER | OTYPER | OSPEEDR | PUPDR | BSRR | BRR

  /** One bus event: `__disable_irq`, `__enable_irq`, or a 32-bit store. */
  datatype Event = DisableIrq | EnableIrq | Store(reg: Reg, value: bv32)

  /** ODR after a store of `v` to BSRR: bits 15..0 set lines, bits 31..16
      reset lines, and a set wins over a reset of the same line. */
  function OdrAfterBsrr(odr: bv32, v: bv32): bv32
  {
    (odr & !(v >> 16)) | (v & 0xFFFF)
  }

  /** ODR after a store of `v` to BRR: bits 15..0 reset lines. */
  function OdrAfterBrr(odr: bv32, v: bv32): bv32
  {
    odr & !(v & 0xFFFF)
  }

  /** The effect of a store of `v` to register `reg`. */
  function StoreEffect(m: Mcu, reg: Reg, v: bv32): Mcu {
    match reg
    case IOPENR => m.(iopenr := v)
    case MODER => m.(gpioa := m.gpioa.(moder := v))
    case OTYPER => m.(gpioa := m.gpioa.(otyper := v))
    case OSPEEDR => m.(gpioa := m.gpioa.(ospeedr := v))
    case PUPDR => m.(gpioa := m.gpioa.(pupdr := v))
    case BSRR => m.(gpioa := m.gpioa.(odr := OdrAfterBsrr(m.gpioa.odr, v)))
    case BRR => m.(gpioa := m.gpioa.(odr := OdrAfterBrr(m.gpioa.odr, v)))
  }

  /** The effect of one event on the machine. */
  function Apply(m: Mcu, ev: Event): Mcu {
    match ev
    case DisableIrq => m.(irqEnabled := false)
    case EnableIrq => m.(irqEnabled := true)
    case Store(reg, v) => StoreEffect(m, reg, v)
  }

  /** Replay a trace of events from `m`, first event first. */
  function Run(m: Mcu, trace: seq<Event>): Mcu
    decreases |trace|
  {
    if trace == [] then m else Run(Apply(m, trace[0]), trace[1..])
  }

  /** Replaying `a + b` is replaying `a`, then `b`. */
  lemma {:induction false} RunAppend(m: Mcu, a: seq<Event>, b: seq<Event>)
    ensures Run(m, a + b) == Run(Run(m, a), b)
    decreases |a|
  {
    if a == [] {
      assert a + b == b;
    } else {
      assert (a + b)[1..] == a[1..] + b;
      RunAppend(Apply(m, a[0]), a[1..], b);
    }
  }

  /** Every event of the trace is a register store. */
  predicate OnlyStores(trace: seq<Event>) {
    forall i :: 0 <= i < |trace| ==> trace[i].Store?
  }

  /** Stores never change the interrupt mask. */
  lemma {:induction false} RunStoresKeepsIrq(m: Mcu, trace: seq<Event>)
    requires OnlyStores(trace)
    ensures Run(m, trace).irqEnabled == m.irqEnabled
    decreases |trace|
  {
    if trace != [] {
      assert trace[0].Store?;
      assert Apply(m, trace[0]).irqEnabled == m.irqEnabled;
      assert OnlyStores(trace[1..]) by {
        forall i | 0 <= i < |trace[1..]| ensures trace[1..][i].Store? {
          assert trace[1..][i] == trace[i + 1];
        }
      }
      RunStoresKeepsIrq(Apply(m, trace[0]), trace[1..]);
    }
  }

  // ------------------------------------------------------------------ effects

  /** The machine after an operation, with the events the operation issued. */
  datatype Effect = Effect(mcu: Mcu, trace: seq<Event>)

  /** An effect that starts at `m` has a trace whose replay from `m` is the
      effect's final state. */
  predicate Replays(m: Mcu, e: Effect) {
    e.mcu == Run(m, e.trace)
  }

  /** Replaying a trace that starts with `ev` is applying `ev`, then
      replaying the rest. */
  lemma RunCons(m: Mcu, ev: Event, rest: seq<Event>)
    ensures Run(m, [ev] + rest) == Run(Apply(m, ev), rest)
  {
    assert ([ev] + rest)[1..] == rest;
  }

  /** Replaying a one-event trace is applying the event. */
  lemma RunOne(m: Mcu, ev: Event)
    ensures Run(m, [ev]) == Apply(m, ev)
  {
  }

  /** Replaying a two-event trace is applying both events in order. */
  lemma RunTwo(m: Mcu, a: Event, b: Event)
    ensures Run(m, [a, b]) == Apply(Apply(m, a), b)
  {
    RunCons(m, a, [b]);
    assert [a] + [b] == [a, b];
    RunOne(Apply(m, a), b);
  }

  /** Replaying a three-event trace is applying the events in order. */
  lemma RunThree(m: Mcu, a: Event, b: Event, c: Event)
    ensures Run(m, [a, b, c]) == Apply(Apply(Apply(m, a), b), c)
  {
    RunCons(m, a, [b, c]);
    assert [a] + [b, c] == [a, b, c];
    RunTwo(Apply(m, a), b, c);
  }

  /** Concatenating two store-only traces gives a store-only trace. */
  lemma OnlyStoresAppend(a: seq<Event>, b: seq<Event>)
    requires OnlyStores(a) && OnlyStores(b)
    ensures OnlyStores(a + b)
  {
  }

  // --------------------------------------------------------- critical sections

  /** A critical section: interrupts disabled first, enabled last, and only
      register stores in between. */
  predicate IsCriticalSection(trace: seq<Event>) {
    && 2 <= |trace|
    && trace[0] == DisableIrq
    && trace[|trace| - 1] == EnableIrq
    && OnlyStores(trace[1..|trace| - 1])
  }

  /** Every proper prefix of a critical section that has started leaves
      interrupts disabled, and the whole section leaves them enabled: no
      interrupt can observe a store of the section half done. */
  lemma CriticalSectionAtomic(m: Mcu, trace: seq<Event>, i: nat)
    requires IsCriticalSection(trace) && 1 <= i < |trace|
    ensures !Run(m, trace[..i]).irqEnabled
    ensures Run(m, trace).irqEnabled
  {
    var body := trace[1..i];
    assert trace[..i] == [DisableIrq] + body;
    assert OnlyStores(body) by {
      forall j | 0 <= j < |body| ensures body[j].Store? {
        assert body[j] == trace[1..|trace| - 1][j];
      }
    }
    RunCons(m, DisableIrq, body);
    RunStoresKeepsIrq(Apply(m, DisableIrq), body);
    assert trace == trace[..|trace| - 1] + [EnableIrq];
    RunAppend(m, trace[..|trace| - 1], [EnableIrq]);
  }

  /** The machine once interrupts are disabled and the port clock enable
      OR-ed into IOPENR: the state in which the mode switch runs. */
  function Prepared(m: Mcu, mascara: bv32): Mcu {
    m.(irqEnabled := false, iopenr := m.iopenr | mascara)
  }

  /** The critical section around the effect `c` of the mode
      switch: disable interrupts, set the clock enable bits `mascara`, then
      `c`'s stores, then enable interrupts. */
  function CriticalSection(m: Mcu, mascara: bv32, c: Effect): Effect {
    Effect(c.mcu.(irqEnabled := true),
           [DisableIrq, Store(IOPENR, m.iopenr | mascara)] + c.trace + [EnableIrq])
  }

  /** If the switch issues only stores, the section is a critical section. */
  lemma CriticalSectionShaped(m: Mcu, mascara: bv32, c: Effect)
    requires OnlyStores(c.trace)
    ensures IsCriticalSection(CriticalSection(m, mascara, c).trace)
  {
    var s1 := Store(IOPENR, m.iopenr | mascara);
    var t := CriticalSection(m, mascara, c).trace;
    OnlyStoresAppend([s1], c.trace);
    assert t[1..|t| - 1] == [s1] + c.trace;
  }

  /** Replaying two events, a body and a final event. */
  lemma {:induction false} RunBracket(m: Mcu, a: Event, b: Event, body: seq<Event>, z: Event)
    ensures Run(m, [a, b] + body + [z]) == Apply(Run(Apply(Apply(m, a), b), body), z)
  {
    var rest := body + [z];
    assert [a, b] + body + [z] == [a] + ([b] + rest);
    RunCons(m, a, [b] + rest);
    RunCons(Apply(m, a), b, rest);
    RunAppend(Apply(Apply(m, a), b), body, [z]);
    RunOne(Run(Apply(Apply(m, a), b), body), z);
  }

  /** Disabling interrupts and then setting the clock enable bits reaches the
      prepared state. */
  lemma PreparedReplays(m: Mcu, mascara: bv32)
    ensures Apply(Apply(m, DisableIrq), Store(IOPENR, m.iopenr | mascara)) == Prepared(m, mascara)
  {
  }

  /** If the switch's trace replays from the prepared state, the section's
      trace replays from the initial one. */
  lemma CriticalSectionReplays(m: Mcu, mascara: bv32, c: Effect)
    requires Replays(Prepared(m, mascara), c)
    ensures Replays(m, CriticalSection(m, mascara, c))
  {
    PreparedReplays(m, mascara);
    RunBracket(m, DisableIrq, Store(IOPENR, m.iopenr | mascara), c.trace, EnableIrq);
  }

}
