/** The timing half of the board-support layer: the millisecond tick counter
    kept by the SysTick interrupt, the busy-wait delay built on it, and the
    cycles-per-millisecond count the timer is started with.

    The counter is a 32-bit unsigned integer; every wrap-around is written
    out as arithmetic modulo 2^32.
 */
module Temporizacion {

  /** A C `uint32_t`. */
  newtype u32 = x: int | 0 <= x < 0x1_0000_0000

  /** The number of values of a `uint32_t`. */
  const MODULO_U32: int := 0x1_0000_0000

  // ------------------------------------------------------------ tick counter

  /** The interrupt handler's `++ticks`, wrapping from 2^32 - 1 to 0. */
  function SysTickHandler(ticks: u32): (r: u32)
    ensures r as int == (ticks as int + 1) % MODULO_U32
  {
    if ticks == 0xFFFF_FFFF then 0 else ticks + 1
  }

  /** The counter after `n` more interrupts. */
  function TicksAfter(ticks: u32, n: nat): u32
  {
    if n == 0 then ticks else SysTickHandler(TicksAfter(ticks, n - 1))
  }

  /** After `n` interrupts the counter has advanced by `n`, modulo 2^32. */
  lemma {:induction false} TicksAfterValue(ticks: u32, n: nat)
    ensures TicksAfter(ticks, n) as int == (ticks as int + n) % MODULO_U32
  {
    if n > 0 {
      var antes := TicksAfter(ticks, n - 1);
      TicksAfterValue(ticks, n - 1);
      assert antes as int == (ticks as int + n - 1) % MODULO_U32;
      SuccessorModulo(ticks as int + n - 1);
      assert TicksAfter(ticks, n) as int == (antes as int + 1) % MODULO_U32;
    }
  }

  /** Incrementing commutes with reduction modulo 2^32. */
  lemma SuccessorModulo(a: int)
    ensures (a % MODULO_U32 + 1) % MODULO_U32 == (a + 1) % MODULO_U32
  {
    var q := a / MODULO_U32;
    assert a == q * MODULO_U32 + a % MODULO_U32;
    if a % MODULO_U32 == MODULO_U32 - 1 {
      assert a + 1 == (q + 1) * MODULO_U32;
    } else {
      assert a + 1 == q * MODULO_U32 + (a % MODULO_U32 + 1);
    }
  }

  /** The unsigned subtraction `ahora - inicial` of two counter readings. */
  function Transcurrido(ahora: u32, inicial: u32): (r: u32)
    ensures r as int == (ahora as int - inicial as int) % MODULO_U32
  {
    if ahora >= inicial then ahora - inicial
    else (ahora as int - inicial as int + MODULO_U32) as u32
  }

  /** The elapsed time the delay computes is the number of interrupts since
      the snapshot, provided fewer than 2^32 of them happened; beyond that it
      forgets whole turns of the counter. */
  lemma TranscurridoCuentaTicks(inicial: u32, n: nat)
    ensures Transcurrido(TicksAfter(inicial, n), inicial) as int == n % MODULO_U32
    ensures n < MODULO_U32 ==> Transcurrido(TicksAfter(inicial, n), inicial) as int == n
  {
    TicksAfterValue(inicial, n);
  }

  // ------------------------------------------------------------------ delay

  /** The delay's exit test: at least `tiempo` ticks since the snapshot. */
  predicate Expired(tiempo: u32, inicial: u32, lectura: u32) {
    Transcurrido(lectura, inicial) >= tiempo
  }

  /** `k` is the first reading of the counter at which the delay's exit test
      passes. */
  predicate ExitsAt(tiempo: u32, inicial: u32, lecturas: seq<u32>, k: nat) {
    && k < |lecturas|
    && Expired(tiempo, inicial, lecturas[k])
    && forall j :: 0 <= j < k ==> !Expired(tiempo, inicial, lecturas[j])
  }

  /** The delay loop. `inicial` is the snapshot of the counter; `lecturas[0]`
      is the reading that computes the first elapsed time and `lecturas[k]`
      the reading after the `k`-th sleep until the next interrupt. The
      readings are what the interrupt left in the counter, so they are an
      input. Returns how many times the loop slept, and whether the delay
      ended within the readings given. */
  method Delay(tiempo: u32, inicial: u32, lecturas: seq<u32>) returns (esperas: nat, vencido: bool)
    ensures vencido <==> exists k: nat :: ExitsAt(tiempo, inicial, lecturas, k)
    ensures vencido ==> ExitsAt(tiempo, inicial, lecturas, esperas)
    ensures !vencido ==> esperas == |lecturas|
                         && forall j :: 0 <= j < |lecturas| ==> !Expired(tiempo, inicial, lecturas[j])
  {
    esperas := 0;
    while esperas < |lecturas| && Transcurrido(lecturas[esperas], inicial) < tiempo
      invariant esperas <= |lecturas|
      invariant forall j :: 0 <= j < esperas ==> !Expired(tiempo, inicial, lecturas[j])
    {
      esperas := esperas + 1;
    }
    vencido := esperas < |lecturas|;
    if vencido {
      assert ExitsAt(tiempo, inicial, lecturas, esperas);
    }
  }

  /** A zero delay ends at the first reading, without sleeping. */
  lemma DelayZeroNoWait(inicial: u32, lecturas: seq<u32>)
    requires |lecturas| > 0
    ensures ExitsAt(0, inicial, lecturas, 0)
  {
  }

  /** The readings of a running counter: reading `k` was taken `cuentas[k]`
      interrupts after the snapshot, with fewer than 2^32 interrupts in all. */
  predicate RunningCounter(inicial: u32, lecturas: seq<u32>, cuentas: seq<nat>) {
    && |cuentas| == |lecturas|
    && forall k :: 0 <= k < |lecturas| ==>
         cuentas[k] < MODULO_U32 && lecturas[k] == TicksAfter(inicial, cuentas[k])
  }

  /** On a running counter (fewer than 2^32 interrupts between the snapshot
      and each reading) the exit test passes exactly when at least
      `tiempo` interrupts have happened since the snapshot, wrap-around of the
      counter included: the delay ends at the first reading taken `tiempo`
      ticks or more after it started. */
  lemma DelayMeetsDeadline(tiempo: u32, inicial: u32, lecturas: seq<u32>, cuentas: seq<nat>, k: nat)
    requires RunningCounter(inicial, lecturas, cuentas) && k < |lecturas|
    ensures Expired(tiempo, inicial, lecturas[k]) <==> cuentas[k] >= tiempo as int
    ensures ExitsAt(tiempo, inicial, lecturas, k)
            <==> cuentas[k] >= tiempo as int
                 && forall j :: 0 <= j < k ==> cuentas[j] < tiempo as int
  {
    forall j | 0 <= j < |lecturas|
      ensures Expired(tiempo, inicial, lecturas[j]) <==> cuentas[j] >= tiempo as int
    {
      TranscurridoCuentaTicks(inicial, cuentas[j]);
    }
  }

  /** A delay of 5 ticks started at 2^32 - 3 is still waiting when the
      counter reads 1 and ends when it reads 2, 5 ticks later. */
  lemma DelayAcrossWrap()
    ensures TicksAfter(0xFFFF_FFFD, 5) == 2
    ensures !Expired(5, 0xFFFF_FFFD, 1)
    ensures Expired(5, 0xFFFF_FFFD, 2)
  {
    TicksAfterValue(0xFFFF_FFFD, 5);
  }

  // ----------------------------------------------------------------- start-up

  /** The count handed to `SysTick_Config` for one interrupt per
      millisecond: core clock cycles per millisecond, the frequency in hertz
      divided by 1000, rounded down. */
  function CuentasPorMilisegundo(frecuenciaHertz: u32): (r: u32)
    ensures r as int * 1000 <= frecuenciaHertz as int < (r as int + 1) * 1000
  {
    frecuenciaHertz / 1000
  }
}
