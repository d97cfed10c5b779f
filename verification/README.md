# Board-support layer of an STM32L0 board: GPIO and timing

This project models the GPIO and timing core of `soporte_placa`, a small
board-support layer for an STM32L0 microcontroller:

- **Pin registry.** A fixed table maps handles to a port, a line number and
  the port's clock-enable bit in `RCC->IOPENR`.
- **`SP_Pin_setModo`.** Inside a section with interrupts disabled, it enables
  the port clock and programs one line as an input or an output. Depending on
  the mode it writes:
  - an input: the MODER field and the PUPDR pull-up/pull-down field;
  - an output: OTYPER, the MODER field and the OSPEEDR speed field.
- **`SP_Pin_read` and `SP_Pin_write`.** They read a line from IDR and drive it
  through BSRR (set) or BRR (reset).
- **Tick counter.** The SysTick interrupt increments a 32-bit counter once per
  millisecond. `SP_delay` busy-waits on that counter using unsigned,
  wrap-around subtraction. `SP_init` passes `SysTick_Config` the number of
  core clock cycles per millisecond: the clock frequency divided by 1000.

The files:

- `bits.dfy` (module `Bits`): read-modify-write arithmetic on `bv32`
  registers. It covers clearing a 2-bit field and OR-ing in a code, and
  testing one bit.
- `placa.dfy` (module `Placa`): the pin table and the machine state. The
  state is RCC IOPENR, the port A registers and the interrupt-enable flag.
  - Each operation yields an `Effect`: the final state plus the trace of bus
    events it issued (interrupt masking, register stores).
  - `Run` replays a trace. The `...Replays` lemmas prove that every trace is a
    complete record of what its operation did.
  - It also holds the critical-section shape used by `SP_Pin_setModo`.
- `gpio.dfy` (module `Gpio`): the two configuration helpers, the mode
  dispatch, and reading and writing a line. The helpers address a line's
  2-bit field at `(nrPin % 8) * 2`, as the C code does. The properties of a
  whole `SP_Pin_setModo` call are stated at the intended offset `nrPin * 2`,
  which gives the same field on both lines of the table (see Findings).
- `temporizacion.dfy` (module `Temporizacion`): the tick counter, the delay
  loop and the cycles-per-millisecond arithmetic.

Integer widths are explicit:

- Registers are `bv32`.
- Line numbers and field offsets are `bv5`.
- The tick counter is a `u32` newtype whose increment and subtraction are
  written modulo 2^32.

## Model

| member | source | states |
|---|---|---|
| Bits.WriteField | lib/soporte_placa/soporte_placa.c:117-122 | clearing `0x3 << off` and OR-ing in a code leaves the field holding the code's low two bits and every bit outside the field unchanged |
| Bits.FieldHoldsIffRead | lib/soporte_placa/soporte_placa.c:179-180 | a field holds a 2-bit code exactly when reading the field back yields that code |
| Bits.SameOutsideKeepsOtherFields | lib/soporte_placa/soporte_placa.c:186-200 | a register changed only inside one 2-bit field reads the same in every other field |
| Bits.OrSetsMonotone | lib/soporte_placa/soporte_placa.c:221 | OR-ing a mask into a register clears no bit, sets the mask, and doing it twice is doing it once |
| Placa.PinDeHandle | lib/soporte_placa/soporte_placa.c:65-81 | a valid handle names a line of port A below 8 with the port A clock bit; SP_PA6 is line 6 and SP_PA4 is line 4 |
| Placa.PinDeHandleInjective | lib/soporte_placa/soporte_placa.c:65-69 | two distinct handles name two distinct lines |
| Placa.OffsetAsWritten | lib/soporte_placa/soporte_placa.c:98 | `(nrPin % 8) * 2` is an even offset whose 2-bit field fits in the register, and it is `nrPin * 2` for lines 0 to 7 |
| Placa.Offset | lib/soporte_placa/soporte_placa.c:98 | the corrected offset `nrPin * 2` is an even offset whose 2-bit field fits in the 32-bit register for every line 0 to 15 |
| Placa.OffsetAsWrittenAliases | lib/soporte_placa/soporte_placa.c:98 | with `(nrPin % 8) * 2`, a field write meant for line 9 changes line 1's field and leaves line 9's alone |
| Placa.OffsetSeparatesPins | lib/soporte_placa/soporte_placa.c:98-99 | with `nrPin * 2` the line is recoverable from its offset and the 2-bit fields of distinct lines share no bit |
| Placa.OffsetsAgreeOnRegistry | lib/soporte_placa/soporte_placa.c:65-69 | on both lines of the table the source's offset and the corrected offset coincide |
| Placa.CriticalSectionAtomic | lib/soporte_placa/soporte_placa.c:220-242 | in a trace that disables interrupts first, enables them last and only stores in between, every proper prefix leaves interrupts disabled and the whole trace leaves them enabled |
| Gpio.ModoSalidaType | lib/soporte_placa/soporte_placa.c:103-111 | the output helper overwrites all of OTYPER with this line's bit (open drain) or 0 (push-pull) |
| Gpio.ModoSalidaMode | lib/soporte_placa/soporte_placa.c:114-123 | the output helper sets the MODER field at `(nrPin % 8) * 2` to 10 for alternate function and 01 otherwise, keeping every other MODER bit; for lines 8 to 15 that is line `nrPin % 8`'s field |
| Gpio.ModoSalidaSpeed | lib/soporte_placa/soporte_placa.c:126-150 | the output helper sets the OSPEEDR field at `(nrPin % 8) * 2` to 00, 01, 10 or 11 for low, medium, high and maximum speed, keeping every other OSPEEDR bit |
| Gpio.ModoSalidaRest | lib/soporte_placa/soporte_placa.c:95-161 | the output helper issues exactly three stores, to OTYPER, MODER and OSPEEDR in that order, and leaves PUPDR, IDR, ODR, IOPENR and the interrupt flag unchanged |
| Gpio.ModoSalidaReplays | lib/soporte_placa/soporte_placa.c:95-161 | replaying the output helper's three stores from the starting state reaches its final state |
| Gpio.ModoEntradaFields | lib/soporte_placa/soporte_placa.c:173-205 | the input helper sets the MODER field at `(nrPin % 8) * 2` to 00 and the PUPDR field there to 00, 01 or 10 for floating, pull-up and pull-down, keeping every other bit of both registers; for lines 8 to 15 that is line `nrPin % 8`'s field |
| Gpio.ModoEntradaRest | lib/soporte_placa/soporte_placa.c:173-213 | the input helper issues exactly two stores, to MODER and then PUPDR, and leaves OTYPER, OSPEEDR, IDR, ODR, IOPENR and the interrupt flag unchanged |
| Gpio.ModoEntradaReplays | lib/soporte_placa/soporte_placa.c:173-213 | replaying the input helper's two stores from the starting state reaches its final state |
| Gpio.DispatchRest | lib/soporte_placa/soporte_placa.c:223-241 | for every mode, including unknown values, the switch issues only stores, keeps data registers, clock enables and interrupt flag, and its trace replays to its result |
| Gpio.ModoSalidaFrame | lib/soporte_placa/soporte_placa.c:95-161 | the output helper as a whole changes MODER, PUPDR and OSPEEDR at most inside the field at `(nrPin % 8) * 2` |
| Gpio.ModoEntradaFrame | lib/soporte_placa/soporte_placa.c:173-213 | the input helper as a whole changes MODER, PUPDR and OSPEEDR at most inside the field at `(nrPin % 8) * 2` |
| Gpio.DispatchFrame | lib/soporte_placa/soporte_placa.c:223-241 | for every mode the switch changes MODER, PUPDR and OSPEEDR at most inside the field at `(nrPin % 8) * 2`: the line's own field for lines 0 to 7, line `nrPin % 8`'s for lines 8 to 15 |
| Gpio.SetModo | lib/soporte_placa/soporte_placa.c:217-218 | a handle at or beyond SP_NUM_PINES returns with no event issued and the machine unchanged, interrupt flag included |
| Gpio.SetModoSequence | lib/soporte_placa/soporte_placa.c:220-242 | a valid call disables interrupts first, enables them last, only stores in between, and its first store ORs the port clock bit into IOPENR |
| Gpio.SetModoClock | lib/soporte_placa/soporte_placa.c:221-242 | after a valid call IOPENR is its old value OR the port's clock bit and interrupts are enabled |
| Gpio.SetModoReplays | lib/soporte_placa/soporte_placa.c:217-243 | for every handle and mode the trace of the call replays to its final state |
| Gpio.SetModoIsAtomic | lib/soporte_placa/soporte_placa.c:220-242 | at every point strictly inside a valid call's trace interrupts are disabled |
| Gpio.SetModoInputModes | lib/soporte_placa/soporte_placa.c:225-232 | the three input modes set the MODER field to 00 and the PUPDR field to 00, 01, 10 respectively, keep the other bits of both, and leave OTYPER, OSPEEDR and ODR untouched |
| Gpio.SetModoOutputModes | lib/soporte_placa/soporte_placa.c:233-238 | the two output modes set the MODER field to 01 and the OSPEEDR field to 00, keep the other bits of both, overwrite OTYPER with exactly `1 << nrPin` (open drain) or 0, and leave PUPDR and ODR untouched |
| Gpio.SetModoUnknownMode | lib/soporte_placa/soporte_placa.c:239-240 | an unrecognised mode value still sets the clock bit and ends with interrupts enabled; no port register changes and the trace is exactly disable, IOPENR store, enable |
| Gpio.SetModoFrame | lib/soporte_placa/soporte_placa.c:223-241 | a valid call changes MODER, PUPDR and OSPEEDR at most inside the line's own field `nrPin * 2`, which on the table's lines is where the helpers write |
| Gpio.SetModoKeepsOtherLines | lib/soporte_placa/soporte_placa.c:223-241 | configuring one line leaves every other line's MODER, PUPDR and OSPEEDR fields reading as before |
| Gpio.SetModoClockMonotone | lib/soporte_placa/soporte_placa.c:221 | a valid call clears no bit of IOPENR and leaves the port clock bit set |
| Gpio.SetModoClockIdempotent | lib/soporte_placa/soporte_placa.c:221 | when the port clock bit is already set a valid call leaves IOPENR unchanged |
| Gpio.SetModoOtyperClobbers | lib/soporte_placa/soporte_placa.c:105-109 | configuring PA6 as push-pull output after PA4 as open-drain output clears PA4's OTYPER bit while PA4's MODER field still says output |
| Gpio.PinRead | lib/soporte_placa/soporte_placa.c:247-252 | the result is true exactly when bit `nrPin` of IDR is set |
| Gpio.PinWrite | lib/soporte_placa/soporte_placa.c:254-263 | the only event is one store of exactly `1 << nrPin`, to BSRR for true and to BRR for false |
| Gpio.PinWriteLevel | lib/soporte_placa/soporte_placa.c:257-260 | after a write the line's ODR bit is the level written |
| Gpio.PinWriteKeepsOtherBits | lib/soporte_placa/soporte_placa.c:257-260 | a write leaves every other ODR bit unchanged |
| Gpio.PinWriteReplays | lib/soporte_placa/soporte_placa.c:254-263 | replaying the write's single BSRR or BRR store reaches its final state |
| Gpio.PinWriteThenRead | lib/soporte_placa/soporte_placa.c:247-263 | on a line whose input samples its output, reading after a write returns the level written |
| Temporizacion.SysTickHandler | lib/soporte_placa/soporte_placa.c:49-51 | the handler's increment is `ticks + 1` modulo 2^32 |
| Temporizacion.TicksAfterValue | lib/soporte_placa/soporte_placa.c:49-51 | after n interrupts the counter has advanced by n modulo 2^32 |
| Temporizacion.Transcurrido | lib/soporte_placa/soporte_placa.c:39 | unsigned subtraction of two counter readings is their difference modulo 2^32 |
| Temporizacion.TranscurridoCuentaTicks | lib/soporte_placa/soporte_placa.c:38-43 | the elapsed time computed after n interrupts is n modulo 2^32, and exactly n when n < 2^32, wrap-around included |
| Temporizacion.Delay | lib/soporte_placa/soporte_placa.c:37-46 | the loop ends exactly at the first reading whose elapsed time reaches `tiempo`, having slept once per earlier reading; if no reading reaches it, it sleeps through all of them |
| Temporizacion.DelayZeroNoWait | lib/soporte_placa/soporte_placa.c:39-40 | a zero delay exits at the first reading, with no wait |
| Temporizacion.DelayMeetsDeadline | lib/soporte_placa/soporte_placa.c:37-46 | on a running counter with fewer than 2^32 interrupts between the snapshot and each reading, the exit test passes exactly when at least `tiempo` interrupts have happened since the snapshot, and the delay ends at the first such reading |
| Temporizacion.DelayAcrossWrap | lib/soporte_placa/soporte_placa.c:39-43 | a 5-tick delay started at 2^32 - 3 is still waiting at counter value 1 and ends at counter value 2 |
| Temporizacion.CuentasPorMilisegundo | lib/soporte_placa/soporte_placa.c:19-20 | the cycles per millisecond passed to `SysTick_Config` are the clock frequency divided by 1000 rounded down: r * 1000 <= f < (r + 1) * 1000 |

## Left out

- `SystemCoreClockUpdate`, `SysTick_Config` and `__WFI` are CMSIS intrinsics. The clock frequency is a parameter of `CuentasPorMilisegundo`. What `SysTick_Config` does with the count (loading `count - 1` into the reload register, its range check) and the timer itself are not modelled.
- `__disable_irq` and `__enable_irq` become the `DisableIrq` and `EnableIrq` events acting on a boolean interrupt-enable flag. PRIMASK is not modelled beyond that flag.
- Real preemption of the foreground by the SysTick interrupt and `volatile` accesses are not modelled. `Delay` takes the counter values it observes as an input sequence.
- Temporizacion.Delay: the C loop can spin forever. The model runs over a finite sequence of readings and reports whether the deadline arrived within it, because a loop without a termination measure cannot be expressed here.
- Gpio.PinRead, Gpio.PinWrite: the C functions index the pin table without checking the handle, which is undefined behaviour for a bad handle. The model requires a valid handle instead.
- `soporte_placa.h` is not part of this model. The handle values SP_PA6 = 0 and SP_PA4 = 1 follow the table's initialiser order, and SP_NUM_PINES = 2. The SP_LED / SP_PULSADOR aliases and the mode enumerators' numeric values are not modelled: a mode is a datatype with one constructor per enumerator plus `UnknownMode` for any other value.
- Only port A exists in the model, since the table uses no other port. RCC_IOPENR_GPIOAEN is bit 0 of IOPENR, as on the STM32L0.
- Registers of the port that the layer neither reads nor writes (AFR, LCKR) are not modelled. BSRR and BRR are write-only, so they appear only as stores acting on ODR.
- Gpio.PinWriteThenRead: `Loopback` idealises the input stage (IDR samples ODR at once). Electrical behaviour is not modelled.
- `src/main.c` is an application loop with no logic of its own and is not part of this model.
- Two intended behaviours of the layer differ from what the code does. The model follows the code in both cases:
  - An unrecognised mode is meant to be rejected with an InvalidMode error and no register write. The code still ORs in the clock enable and returns nothing (`SetModoUnknownMode`).
  - The interrupt guard is meant to restore the interrupt state found on entry. The code enables interrupts unconditionally at exit (`SetModoClock`).
- OTYPER is assigned outright rather than masked (lines 105 and 109). The model keeps that behaviour, and `SetModoOtyperClobbers` shows its consequence. It is not corrected in the model.

## Findings

| source | as written | input that shows it | evidently intended | confidence | as-written member | corrected member |
|---|---|---|---|---|---|---|
| lib/soporte_placa/soporte_placa.c:98 | the 2-bit field offset in MODER, OSPEEDR and PUPDR is `(nrPin % 8) * 2` (also line 175), which maps lines 8 to 15 onto the fields of lines 0 to 7 | a line number 9: the write lands in line 1's field and line 9's field is unchanged | offset `nrPin * 2`, one field per line of the 16-line port; both agree on lines 6 and 4 of the table, so the properties of `SP_Pin_setModo` are stated at the corrected offset | not executed | Placa.OffsetAsWrittenAliases | Placa.OffsetSeparatesPins |
