/** The GPIO half of the board-support layer: configuring a line's mode and
    reading and writing its level, on the register bank of `Placa`.

    The operations are functions from a machine state to an `Effect`; what
    each one guarantees is stated by the lemmas that follow it.
 */
module Gpio {
  import opened Bits
  import opened Placa

  // -------------------------------------------------------------- vocabulary

  /** Output slew-rate classes of the internal output helper. */
  datatype Velocidad = VelBaja | VelMedia | VelAlta | VelMax

  /** Pull resistor choices of the internal input helper. */
  datatype ModoPull = MFlotante | MPullUp | MPullDown

  /** The public mode enumeration. A value of the C enumeration type outside
      the five named modes is `UnknownMode`. */
  datatype Modo =
    | SpPinEntrada
    | SpPinEntradaPullup
    | SpPinEntradaPulldn
    | SpPinSalida
    | SpPinSalidaOpenDrain
    | UnknownMode(value: int)

  /** MODER encodings: input, general-purpose output, alternate function. */
  const MODER_INPUT: bv32 := 0x0
  const MODER_OUTPUT: bv32 := 0x1
  const MODER_ALTERNATE: bv32 := 0x2

  /** OSPEEDR encoding of each speed class. */
  function SpeedCode(vel: Velocidad): bv32 {
    match vel
    case VelBaja => 0x0
    case VelMedia => 0x1
    case VelAlta => 0x2
    case VelMax => 0x3
  }

  /** PUPDR encoding of each pull choice. */
  function PullCode(pull: ModoPull): bv32 {
    match pull
    case MFlotante => 0x0
    case MPullUp => 0x1
    case MPullDown => 0x2
  }

  /** What every configuration step leaves alone: the input and output data
      registers, the clock enables and the interrupt mask. */
  predicate KeepsDataAndControl(before: Mcu, after: Mcu) {
    && after.gpioa.idr == before.gpioa.idr
    && after.gpioa.odr == before.gpioa.odr
    && after.iopenr == before.iopenr
    && after.irqEnabled == before.irqEnabled
  }

  /** Port `after` differs from `before` at most inside the 2-bit field at
      `off` of MODER, PUPDR and OSPEEDR. */
  predicate ChangesOnlyField(after: GpioPort, before: GpioPort, off: bv5)
    requires off <= 30
  {
    && SameOutside(after.moder, before.moder, off)
    && SameOutside(after.pupdr, before.pupdr, off)
    && SameOutside(after.ospeedr, before.ospeedr, off)
  }

  // --------------------------------------------------------- output helper

  /** Configure line `nrPin` of port A as an output: output type, then mode,
      then speed, each one store. The output type register is assigned
      outright, not masked. The 2-bit fields are addressed at
      `OffsetAsWritten(nrPin)`, `(nrPin % 8) * 2`. MODER and OSPEEDR are read
      from `m`: no earlier store of the helper touches them. */
  function ModoSalida(m: Mcu, nrPin: PinIndex, vel: Velocidad, openDrain: bool, funcionAlterna: bool): Effect
  {
    var off := OffsetAsWritten(nrPin);
    var otyper: bv32 := if openDrain then BitMask(nrPin) else 0;
    var moderCode: bv32 := if funcionAlterna then 0x2 else 0x1;
    var speedCode: bv32 :=
      if vel == VelBaja then 0x0
      else if vel == VelMedia then 0x1
      else if vel == VelAlta then 0x2
      else 0x3;
    var s1 := Store(OTYPER, otyper);
    var s2 := Store(MODER, WriteField(m.gpioa.moder, off, moderCode));
    var s3 := Store(OSPEEDR, WriteField(m.gpioa.ospeedr, off, speedCode));
    Effect(m.(gpioa := m.gpioa.(otyper := s1.value, moder := s2.value, ospeedr := s3.value)),
           [s1, s2, s3])
  }

  /** Output type: the whole of OTYPER becomes this line's bit for open drain
      and 0 for push-pull; the bits of every other line are lost. */
  lemma ModoSalidaType(m: Mcu, nrPin: PinIndex, vel: Velocidad, openDrain: bool, funcionAlterna: bool)
    ensures ModoSalida(m, nrPin, vel, openDrain, funcionAlterna).mcu.gpioa.otyper
            == (if openDrain then BitMask(nrPin) else 0)
  {
  }

  /** Mode: the MODER field at `(nrPin % 8) * 2` becomes 10 (alternate
      function) or 01 (general-purpose output); every other MODER bit is
      kept. For lines 8 to 15 that field is line `nrPin % 8`'s. */
  lemma ModoSalidaMode(m: Mcu, nrPin: PinIndex, vel: Velocidad, openDrain: bool, funcionAlterna: bool)
    ensures var g := ModoSalida(m, nrPin, vel, openDrain, funcionAlterna).mcu.gpioa;
            && FieldHolds(g.moder, OffsetAsWritten(nrPin), if funcionAlterna then MODER_ALTERNATE else MODER_OUTPUT)
            && SameOutside(g.moder, m.gpioa.moder, OffsetAsWritten(nrPin))
  {
  }

  /** Speed: the OSPEEDR field at `(nrPin % 8) * 2` becomes the code of
      `vel` (00, 01, 10, 11 for low, medium, high, maximum); every other
      OSPEEDR bit is kept. */
  lemma ModoSalidaSpeed(m: Mcu, nrPin: PinIndex, vel: Velocidad, openDrain: bool, funcionAlterna: bool)
    ensures var g := ModoSalida(m, nrPin, vel, openDrain, funcionAlterna).mcu.gpioa;
            && FieldHolds(g.ospeedr, OffsetAsWritten(nrPin), SpeedCode(vel))
            && SameOutside(g.ospeedr, m.gpioa.ospeedr, OffsetAsWritten(nrPin))
  {
  }

  /** The output helper issues three stores, to OTYPER, MODER and OSPEEDR in
      that order, and leaves PUPDR, the data registers, the clock enables and
      the interrupt mask alone. */
  lemma ModoSalidaRest(m: Mcu, nrPin: PinIndex, vel: Velocidad, openDrain: bool, funcionAlterna: bool)
    ensures var t := ModoSalida(m, nrPin, vel, openDrain, funcionAlterna).trace;
            && |t| == 3 && OnlyStores(t)
            && t[0].reg == OTYPER && t[1].reg == MODER && t[2].reg == OSPEEDR
    ensures var r := ModoSalida(m, nrPin, vel, openDrain, funcionAlterna);
            && r.mcu.gpioa.pupdr == m.gpioa.pupdr
            && KeepsDataAndControl(m, r.mcu)
  {
  }

  /** The output helper's trace replays to its final state. */
  lemma ModoSalidaReplays(m: Mcu, nrPin: PinIndex, vel: Velocidad, openDrain: bool, funcionAlterna: bool)
    ensures Replays(m, ModoSalida(m, nrPin, vel, openDrain, funcionAlterna))
  {
    var t := ModoSalida(m, nrPin, vel, openDrain, funcionAlterna).trace;
    RunThree(m, t[0], t[1], t[2]);
  }

  // ---------------------------------------------------------- input helper

  /** Configure line `nrPin` of port A as an input: mode, then pull
      resistor, each one store, both at the field `OffsetAsWritten(nrPin)`,
      `(nrPin % 8) * 2`. */
  function ModoEntrada(m: Mcu, nrPin: PinIndex, modoPull: ModoPull): Effect
  {
    var off := OffsetAsWritten(nrPin);
    var pullCode: bv32 :=
      if modoPull == MFlotante then 0x0
      else if modoPull == MPullUp then 0x1
      else 0x2;
    var s1 := Store(MODER, WriteField(m.gpioa.moder, off, 0x0));
    var s2 := Store(PUPDR, WriteField(m.gpioa.pupdr, off, pullCode));
    Effect(m.(gpioa := m.gpioa.(moder := s1.value, pupdr := s2.value)), [s1, s2])
  }

  /** Mode and pull: the MODER field at `(nrPin % 8) * 2` becomes 00
      (input) and the PUPDR field there the code of the pull choice (00, 01,
      10 for floating, pull-up, pull-down); every other bit of both registers
      is kept. For lines 8 to 15 that field is line `nrPin % 8`'s. */
  lemma ModoEntradaFields(m: Mcu, nrPin: PinIndex, modoPull: ModoPull)
    ensures var g := ModoEntrada(m, nrPin, modoPull).mcu.gpioa;
            && FieldHolds(g.moder, OffsetAsWritten(nrPin), MODER_INPUT)
            && SameOutside(g.moder, m.gpioa.moder, OffsetAsWritten(nrPin))
            && FieldHolds(g.pupdr, OffsetAsWritten(nrPin), PullCode(modoPull))
            && SameOutside(g.pupdr, m.gpioa.pupdr, OffsetAsWritten(nrPin))
  {
  }

  /** The input helper issues two stores, to MODER and then PUPDR, and
      leaves OTYPER, OSPEEDR, the data registers, the clock enables and the
      interrupt mask alone. */
  lemma ModoEntradaRest(m: Mcu, nrPin: PinIndex, modoPull: ModoPull)
    ensures var t := ModoEntrada(m, nrPin, modoPull).trace;
            && |t| == 2 && OnlyStores(t)
            && t[0].reg == MODER && t[1].reg == PUPDR
    ensures var r := ModoEntrada(m, nrPin, modoPull);
            && r.mcu.gpioa.otyper == m.gpioa.otyper
            && r.mcu.gpioa.ospeedr == m.gpioa.ospeedr
            && KeepsDataAndControl(m, r.mcu)
  {
  }

  /** The input helper's trace replays to its final state. */
  lemma ModoEntradaReplays(m: Mcu, nrPin: PinIndex, modoPull: ModoPull)
    ensures Replays(m, ModoEntrada(m, nrPin, modoPull))
  {
    var t := ModoEntrada(m, nrPin, modoPull).trace;
    RunTwo(m, t[0], t[1]);
  }

  // ----------------------------------------------------------- mode dispatch

  /** The three input modes. */
  predicate IsInputMode(modo: Modo) {
    modo.SpPinEntrada? || modo.SpPinEntradaPullup? || modo.SpPinEntradaPulldn?
  }

  /** The two output modes. */
  predicate IsOutputMode(modo: Modo) {
    modo.SpPinSalida? || modo.SpPinSalidaOpenDrain?
  }

  /** The pull resistor an input mode asks for. */
  function PullOf(modo: Modo): ModoPull
    requires IsInputMode(modo)
  {
    if modo.SpPinEntrada? then MFlotante
    else if modo.SpPinEntradaPullup? then MPullUp
    else MPullDown
  }

  /** The mode switch, its five cases grouped by the helper they call: the
      input modes call the input helper with their pull, the output modes
      call the output helper at low speed, not as alternate function, open
      drain only for the open-drain mode; the default does nothing. */
  function Dispatch(m: Mcu, nrPin: PinIndex, modo: Modo): Effect {
    if IsInputMode(modo) then ModoEntrada(m, nrPin, PullOf(modo))
    else if IsOutputMode(modo) then ModoSalida(m, nrPin, VelBaja, modo.SpPinSalidaOpenDrain?, false)
    else Effect(m, [])
  }

  /** Whatever the mode, the switch issues only stores, touches neither the
      data registers, the clock enables nor the interrupt mask, and its trace
      replays to its final state. */
  lemma DispatchRest(m: Mcu, nrPin: PinIndex, modo: Modo)
    ensures var c := Dispatch(m, nrPin, modo);
            && OnlyStores(c.trace)
            && KeepsDataAndControl(m, c.mcu)
            && Replays(m, c)
  {
    if IsInputMode(modo) {
      ModoEntradaRest(m, nrPin, PullOf(modo));
      ModoEntradaReplays(m, nrPin, PullOf(modo));
    } else if IsOutputMode(modo) {
      ModoSalidaRest(m, nrPin, VelBaja, modo.SpPinSalidaOpenDrain?, false);
      ModoSalidaReplays(m, nrPin, VelBaja, modo.SpPinSalidaOpenDrain?, false);
    }
  }

  /** The input helper changes MODER, PUPDR and OSPEEDR at most inside the
      field at `(nrPin % 8) * 2`. */
  lemma ModoEntradaFrame(m: Mcu, nrPin: PinIndex, modoPull: ModoPull)
    ensures ChangesOnlyField(ModoEntrada(m, nrPin, modoPull).mcu.gpioa, m.gpioa, OffsetAsWritten(nrPin))
  {
    ModoEntradaFields(m, nrPin, modoPull);
    ModoEntradaRest(m, nrPin, modoPull);
  }

  /** The output helper changes MODER, PUPDR and OSPEEDR at most inside the
      field at `(nrPin % 8) * 2`. */
  lemma ModoSalidaFrame(m: Mcu, nrPin: PinIndex, vel: Velocidad, openDrain: bool, funcionAlterna: bool)
    ensures ChangesOnlyField(ModoSalida(m, nrPin, vel, openDrain, funcionAlterna).mcu.gpioa, m.gpioa, OffsetAsWritten(nrPin))
  {
    ModoSalidaMode(m, nrPin, vel, openDrain, funcionAlterna);
    ModoSalidaSpeed(m, nrPin, vel, openDrain, funcionAlterna);
    ModoSalidaRest(m, nrPin, vel, openDrain, funcionAlterna);
  }

  /** Whatever the mode, the switch changes MODER, PUPDR and OSPEEDR at most
      inside the field at `(nrPin % 8) * 2`: the line's own field for lines 0
      to 7, line `nrPin % 8`'s for lines 8 to 15. */
  lemma DispatchFrame(m: Mcu, nrPin: PinIndex, modo: Modo)
    ensures ChangesOnlyField(Dispatch(m, nrPin, modo).mcu.gpioa, m.gpioa, OffsetAsWritten(nrPin))
  {
    if IsInputMode(modo) {
      ModoEntradaFrame(m, nrPin, PullOf(modo));
    } else if IsOutputMode(modo) {
      ModoSalidaFrame(m, nrPin, VelBaja, modo.SpPinSalidaOpenDrain?, false);
    }
  }

  /** Configure the line of `hPin` for `modo`. An out-of-range handle returns
      before anything happens. Otherwise, with interrupts disabled: enable the
      port clock, dispatch on the mode, and enable interrupts again. */
  function SetModo(m: Mcu, hPin: nat, modo: Modo): (r: Effect)
    ensures hPin >= SP_NUM_PINES ==> r == Effect(m, [])
  {
    if hPin >= SP_NUM_PINES then Effect(m, [])
    else
      var pin := PinDeHandle(hPin);
      CriticalSection(m, pin.mascaraIOPEN,
                     Dispatch(Prepared(m, pin.mascaraIOPEN), pin.nrPin, modo))
  }

  /** The port registers after a valid `SetModo` are those the mode switch
      leaves when run on the port as it was: disabling interrupts, setting the
      clock enable and enabling interrupts again do not touch the port. */
  lemma SetModoPort(m: Mcu, hPin: nat, modo: Modo)
    requires hPin < SP_NUM_PINES
    ensures var pin := PinDeHandle(hPin);
            var p := Prepared(m, pin.mascaraIOPEN);
            && p.gpioa == m.gpioa
            && SetModo(m, hPin, modo).mcu.gpioa == Dispatch(p, pin.nrPin, modo).mcu.gpioa
  {
  }

  /** The shape of a valid `SetModo`: a critical section whose first store
      ORs the port clock enable into IOPENR. */
  lemma SetModoSequence(m: Mcu, hPin: nat, modo: Modo)
    requires hPin < SP_NUM_PINES
    ensures var t := SetModo(m, hPin, modo).trace;
            && IsCriticalSection(t)
            && t[1] == Store(IOPENR, m.iopenr | PinDeHandle(hPin).mascaraIOPEN)
  {
    var pin := PinDeHandle(hPin);
    var p := Prepared(m, pin.mascaraIOPEN);
    DispatchRest(p, pin.nrPin, modo);
    CriticalSectionShaped(m, pin.mascaraIOPEN, Dispatch(p, pin.nrPin, modo));
  }

  /** After a valid `SetModo` interrupts are enabled and IOPENR holds its old
      bits plus the port's clock enable. */
  lemma SetModoClock(m: Mcu, hPin: nat, modo: Modo)
    requires hPin < SP_NUM_PINES
    ensures var r := SetModo(m, hPin, modo).mcu;
            && r.irqEnabled
            && r.iopenr == m.iopenr | PinDeHandle(hPin).mascaraIOPEN
  {
    var pin := PinDeHandle(hPin);
    DispatchRest(Prepared(m, pin.mascaraIOPEN), pin.nrPin, modo);
  }

  /** The trace of `SetModo` replays to its final state: it is a complete
      record of its register stores and interrupt mask changes. */
  lemma SetModoReplays(m: Mcu, hPin: nat, modo: Modo)
    ensures Replays(m, SetModo(m, hPin, modo))
  {
    if hPin < SP_NUM_PINES {
      var pin := PinDeHandle(hPin);
      var p := Prepared(m, pin.mascaraIOPEN);
      DispatchRest(p, pin.nrPin, modo);
      CriticalSectionReplays(m, pin.mascaraIOPEN, Dispatch(p, pin.nrPin, modo));
    }
  }

  /** Every store of a valid `SetModo` happens with interrupts disabled: the
      machine replayed to any point strictly between the first and the last
      event of the trace has interrupts masked. */
  lemma SetModoIsAtomic(m: Mcu, hPin: nat, modo: Modo, i: nat)
    requires hPin < SP_NUM_PINES
    requires 1 <= i < |SetModo(m, hPin, modo).trace|
    ensures !Run(m, SetModo(m, hPin, modo).trace[..i]).irqEnabled
  {
    SetModoSequence(m, hPin, modo);
    CriticalSectionAtomic(m, SetModo(m, hPin, modo).trace, i);
  }

  /** The three input modes: MODER field 00 and PUPDR field 00, 01 or 10 for
      plain input, pull-up and pull-down; every other bit of both registers
      kept; output type, speed and output data untouched. */
  lemma SetModoInputModes(m: Mcu, hPin: nat, modo: Modo)
    requires hPin < SP_NUM_PINES
    requires IsInputMode(modo)
    ensures var g := SetModo(m, hPin, modo).mcu.gpioa;
            var off := Offset(PinDeHandle(hPin).nrPin);
            && FieldHolds(g.moder, off, MODER_INPUT)
            && FieldHolds(g.pupdr, off, if modo.SpPinEntrada? then 0x0
                                        else if modo.SpPinEntradaPullup? then 0x1
                                        else 0x2)
            && SameOutside(g.moder, m.gpioa.moder, off)
            && SameOutside(g.pupdr, m.gpioa.pupdr, off)
            && g.otyper == m.gpioa.otyper
            && g.ospeedr == m.gpioa.ospeedr
            && g.odr == m.gpioa.odr
  {
    var pin := PinDeHandle(hPin);
    var m1 := Prepared(m, pin.mascaraIOPEN);
    SetModoPort(m, hPin, modo);
    OffsetsAgreeOnRegistry(hPin);
    var pull := PullOf(modo);
    ModoEntradaFields(m1, pin.nrPin, pull);
    ModoEntradaRest(m1, pin.nrPin, pull);
  }

  /** The two output modes: MODER field 01, OSPEEDR field 00 (low speed),
      every other bit of both registers kept; OTYPER overwritten with exactly
      this line's bit (open drain) or 0 (push-pull); PUPDR and output data
      untouched. */
  lemma SetModoOutputModes(m: Mcu, hPin: nat, modo: Modo)
    requires hPin < SP_NUM_PINES
    requires IsOutputMode(modo)
    ensures var g := SetModo(m, hPin, modo).mcu.gpioa;
            var n := PinDeHandle(hPin).nrPin;
            && FieldHolds(g.moder, Offset(n), MODER_OUTPUT)
            && FieldHolds(g.ospeedr, Offset(n), 0x0)
            && SameOutside(g.moder, m.gpioa.moder, Offset(n))
            && SameOutside(g.ospeedr, m.gpioa.ospeedr, Offset(n))
            && g.otyper == (if modo.SpPinSalidaOpenDrain? then BitMask(n) else 0)
            && g.pupdr == m.gpioa.pupdr
            && g.odr == m.gpioa.odr
  {
    var pin := PinDeHandle(hPin);
    var m1 := Prepared(m, pin.mascaraIOPEN);
    SetModoPort(m, hPin, modo);
    OffsetsAgreeOnRegistry(hPin);
    var od := modo.SpPinSalidaOpenDrain?;
    ModoSalidaType(m1, pin.nrPin, VelBaja, od, false);
    ModoSalidaMode(m1, pin.nrPin, VelBaja, od, false);
    ModoSalidaSpeed(m1, pin.nrPin, VelBaja, od, false);
    ModoSalidaRest(m1, pin.nrPin, VelBaja, od, false);
  }

  /** A mode outside the enumeration reaches the `default` branch: the clock
      enable is still set and interrupts end enabled; nothing else changes. */
  lemma SetModoUnknownMode(m: Mcu, hPin: nat, value: int)
    requires hPin < SP_NUM_PINES
    ensures SetModo(m, hPin, UnknownMode(value)).mcu
            == m.(iopenr := m.iopenr | RCC_IOPENR_GPIOAEN, irqEnabled := true)
    ensures SetModo(m, hPin, UnknownMode(value)).trace
            == [DisableIrq, Store(IOPENR, m.iopenr | RCC_IOPENR_GPIOAEN), EnableIrq]
  {
  }

  /** Whatever the mode, a valid `SetModo` changes MODER, PUPDR and OSPEEDR
      at most inside the line's own field: on the table's lines the helpers'
      `(nrPin % 8) * 2` is `nrPin * 2`. */
  lemma SetModoFrame(m: Mcu, hPin: nat, modo: Modo)
    requires hPin < SP_NUM_PINES
    ensures ChangesOnlyField(SetModo(m, hPin, modo).mcu.gpioa, m.gpioa, Offset(PinDeHandle(hPin).nrPin))
  {
    var pin := PinDeHandle(hPin);
    SetModoPort(m, hPin, modo);
    OffsetsAgreeOnRegistry(hPin);
    DispatchFrame(Prepared(m, pin.mascaraIOPEN), pin.nrPin, modo);
  }

  /** Configuring one line leaves the 2-bit fields of every other line of the
      port as they were, in MODER, PUPDR and OSPEEDR. */
  lemma SetModoKeepsOtherLines(m: Mcu, hPin: nat, modo: Modo, other: PinIndex)
    requires hPin < SP_NUM_PINES
    requires other != PinDeHandle(hPin).nrPin
    ensures var g := SetModo(m, hPin, modo).mcu.gpioa;
            && ReadField(g.moder, Offset(other)) == ReadField(m.gpioa.moder, Offset(other))
            && ReadField(g.pupdr, Offset(other)) == ReadField(m.gpioa.pupdr, Offset(other))
            && ReadField(g.ospeedr, Offset(other)) == ReadField(m.gpioa.ospeedr, Offset(other))
  {
    var n := PinDeHandle(hPin).nrPin;
    var g := SetModo(m, hPin, modo).mcu.gpioa;
    OffsetSeparatesPins(n, other);
    OffsetSeparatesPins(other, n);
    SetModoFrame(m, hPin, modo);
    SameOutsideKeepsOtherFields(g.moder, m.gpioa.moder, Offset(n), Offset(other));
    SameOutsideKeepsOtherFields(g.pupdr, m.gpioa.pupdr, Offset(n), Offset(other));
    SameOutsideKeepsOtherFields(g.ospeedr, m.gpioa.ospeedr, Offset(n), Offset(other));
  }

  /** The port clock enable is OR-ed in: no bit of IOPENR is ever cleared,
      and the port's bit is set afterwards. */
  lemma SetModoClockMonotone(m: Mcu, hPin: nat, modo: Modo)
    requires hPin < SP_NUM_PINES
    ensures var r := SetModo(m, hPin, modo).mcu;
            && r.iopenr & m.iopenr == m.iopenr
            && r.iopenr & RCC_IOPENR_GPIOAEN == RCC_IOPENR_GPIOAEN
  {
    SetModoClock(m, hPin, modo);
    OrSetsMonotone(m.iopenr, RCC_IOPENR_GPIOAEN);
  }

  /** Once the port's clock bit is set, configuring any line of the port
      again leaves IOPENR as it is. */
  lemma SetModoClockIdempotent(m: Mcu, hPin: nat, modo: Modo)
    requires hPin < SP_NUM_PINES
    ensures m.iopenr & RCC_IOPENR_GPIOAEN == RCC_IOPENR_GPIOAEN
            ==> SetModo(m, hPin, modo).mcu.iopenr == m.iopenr
  {
    SetModoClock(m, hPin, modo);
  }

  /** Because OTYPER is assigned rather than masked, configuring PA6 as a
      push-pull output turns PA4 from open drain back to push-pull, although
      PA4's mode field still says output. */
  lemma SetModoOtyperClobbers(m: Mcu)
    ensures var a := SetModo(m, SP_PA4, SpPinSalidaOpenDrain).mcu;
            var b := SetModo(a, SP_PA6, SpPinSalida).mcu;
            && BitSet(a.gpioa.otyper, 4)
            && !BitSet(b.gpioa.otyper, 4)
            && ReadField(b.gpioa.moder, Offset(4)) == MODER_OUTPUT
  {
    var a := SetModo(m, SP_PA4, SpPinSalidaOpenDrain).mcu;
    SetModoOutputModes(m, SP_PA4, SpPinSalidaOpenDrain);
    SetModoOutputModes(a, SP_PA6, SpPinSalida);
    SetModoKeepsOtherLines(a, SP_PA6, SpPinSalida, 4);
    FieldHoldsIffRead(a.gpioa.moder, Offset(4), MODER_OUTPUT);
  }

  // -------------------------------------------------------------- pin I/O

  /** The level of the line: bit `nrPin` of IDR. The handle is not checked. */
  function PinRead(m: Mcu, hPin: nat): (r: bool)
    requires hPin < SP_NUM_PINES
    ensures r <==> BitSet(m.gpioa.idr, PinDeHandle(hPin).nrPin)
  {
    var nrPin := PinDeHandle(hPin).nrPin;
    m.gpioa.idr & BitMask(nrPin) != 0
  }

  /** Drive the line high through BSRR or low through BRR: a single store of
      exactly this line's bit, never a read-modify-write of ODR. The handle is
      not checked. */
  function PinWrite(m: Mcu, hPin: nat, valor: bool): (r: Effect)
    requires hPin < SP_NUM_PINES
    ensures r.trace == [Store(if valor then BSRR else BRR, BitMask(PinDeHandle(hPin).nrPin))]
  {
    var nrPin := PinDeHandle(hPin).nrPin;
    var odr := if valor then OdrAfterBsrr(m.gpioa.odr, BitMask(nrPin))
               else OdrAfterBrr(m.gpioa.odr, BitMask(nrPin));
    var s := if valor then Store(BSRR, BitMask(nrPin)) else Store(BRR, BitMask(nrPin));
    Effect(m.(gpioa := m.gpioa.(odr := odr)), [s])
  }

  /** After a write the line's output bit is the level written. */
  lemma PinWriteLevel(m: Mcu, hPin: nat, valor: bool)
    requires hPin < SP_NUM_PINES
    ensures BitSet(PinWrite(m, hPin, valor).mcu.gpioa.odr, PinDeHandle(hPin).nrPin) == valor
  {
  }

  /** A write leaves every other output bit as it was. */
  lemma PinWriteKeepsOtherBits(m: Mcu, hPin: nat, valor: bool)
    requires hPin < SP_NUM_PINES
    ensures var n := PinDeHandle(hPin).nrPin;
            PinWrite(m, hPin, valor).mcu.gpioa.odr & !BitMask(n) == m.gpioa.odr & !BitMask(n)
  {
    if hPin == SP_PA6 {
      assert PinDeHandle(hPin).nrPin == 6;
    } else {
      assert PinDeHandle(hPin).nrPin == 4;
    }
  }

  /** The write's single store, replayed on the machine, drives ODR as
      BSRR or BRR semantics say: the trace replays to the final state. */
  lemma PinWriteReplays(m: Mcu, hPin: nat, valor: bool)
    requires hPin < SP_NUM_PINES
    ensures Replays(m, PinWrite(m, hPin, valor))
  {
    RunOne(m, PinWrite(m, hPin, valor).trace[0]);
  }

  /** The input stage of a line driven by its own output: IDR samples ODR. */
  function Loopback(m: Mcu): Mcu {
    m.(gpioa := m.gpioa.(idr := m.gpioa.odr))
  }

  /** Loopback: reading a line that echoes its output returns the level last
      written to it. */
  lemma PinWriteThenRead(m: Mcu, hPin: nat, valor: bool)
    requires hPin < SP_NUM_PINES
    ensures PinRead(Loopback(PinWrite(m, hPin, valor).mcu), hPin) == valor
  {
    PinWriteLevel(m, hPin, valor);
  }
}
