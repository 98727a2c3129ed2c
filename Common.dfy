/** Architecture constants of the 3D-FPIM compiler (common.h) and the small
 *  arithmetic vocabulary the tiling, allocation and placement code shares. */
module Common {

  /** Rows (and columns) of one MVMU crossbar layer. */
  const MVMU_DIM: nat := 128
  /** Number of stacked crossbar layers of a 3D MVMU. */
  const MVMU_DPT: nat := 64
  const N_CONSTANT_MVMUS_PER_CORE: nat := 1
  const N_CORES_PER_TILE: nat := 24
  const MAX_LOAD_STORE_WIDTH: nat := 8
  const MAX_SEND_RECV_WIDTH: nat := 8
  const N_INPUT_REGISTERS: nat := MVMU_DIM
  const N_OUTPUT_REGISTERS: nat := MVMU_DIM
  const INPUT_REGISTERS_START_ADDRESS: nat := 0
  const OUTPUT_REGISTERS_START_ADDRESS: nat := INPUT_REGISTERS_START_ADDRESS + N_INPUT_REGISTERS
  const REGISTER_FILE_START_ADDRESS: nat := OUTPUT_REGISTERS_START_ADDRESS + N_OUTPUT_REGISTERS
  const REGISTER_FILE_SIZE: nat := 4 * MVMU_DIM
  const REGISTERS_PER_CORE: nat := REGISTER_FILE_START_ADDRESS + REGISTER_FILE_SIZE

  const STACK_SHIFT_LATENCY: nat := 170
  const STACK_REUSE_LATENCY: nat := 105
  const PRECHARGE_LATENCY: nat := 32
  const ADC_LATENCY: nat := 256

  /** Modulus of the compiler's 32-bit `unsigned int`. */
  const UINT_MOD: nat := 0x1_0000_0000

  /** Ceiling of a / b: the fewest b-sized pieces that cover a. This is the
   *  reference the compiler's `(a - 1) / b + 1` idiom is compared with. */
  function CeilDiv(a: nat, b: nat): (r: nat)
    requires b > 0
    ensures r * b >= a
    ensures r == 0 || (r - 1) * b < a
  {
    (a + b - 1) / b
  }

  /** Division is determined by quotient and remainder. */
  lemma DivModUnique(a: nat, b: nat, q: nat, r: nat)
    requires b > 0 && r < b && a == q * b + r
    ensures a / b == q && a % b == r
  {
    var q0, r0 := a / b, a % b;
    assert a == q0 * b + r0;
    if q0 > q {
      MulGap(q0, q, b);
      assert false;
    } else if q0 < q {
      MulGap(q, q0, b);
      assert false;
    }
  }

  lemma MulGap(x: nat, y: nat, b: nat)
    requires x > y
    ensures x * b >= y * b + b
  {
    var d := x - y - 1;
    assert x == d + y + 1;
    assert (d + y + 1) * b == d * b + y * b + b;
  }

  lemma MulAtLeastOne(x: nat, b: nat)
    requires x >= 1
    ensures x * b >= b
  {
    MulGap(x, 0, b);
  }

  /** Integer division is monotonic in the dividend. */
  lemma DivMono(a: nat, b: nat, d: nat)
    requires a <= b && d > 0
    ensures a / d <= b / d
  {
    var qa, qb := a / d, b / d;
    assert a == qa * d + a % d && b == qb * d + b % d;
    if qa > qb {
      MulGap(qa, qb, d);
      assert false;
    }
  }

  /** The compiler's `(a - 1) / b + 1` is the ceiling of a / b for a >= 1. */
  lemma CeilDivIdiom(a: nat, b: nat)
    requires a >= 1 && b > 0
    ensures (a - 1) / b + 1 == CeilDiv(a, b)
  {
    var q, r := (a - 1) / b, (a - 1) % b;
    assert a - 1 == q * b + r;
    DivModUnique(a + b - 1, b, q + 1, r);
  }

  /** Cutting `total` into `unit`-sized pieces, the last taking the remainder
   *  when there is one: the pieces before the last plus the last give back
   *  the total. */
  lemma LastTile(total: nat, unit: nat)
    requires total >= 1 && unit >= 1
    ensures ((total - 1) / unit) * unit + (if total % unit > 0 then total % unit else unit) == total
  {
    var q, r := total / unit, total % unit;
    assert total == q * unit + r;
    if r > 0 {
      DivModUnique(total - 1, unit, q, r - 1);
    } else {
      assert q != 0;
      assert (q - 1) * unit == q * unit - unit;
      DivModUnique(total - 1, unit, q - 1, unit - 1);
    }
  }

  /** Sum of a sequence of sizes, taken from the back so that appending a
   *  tile adds its size. */
  function Sum(s: seq<nat>): nat
  {
    if s == [] then 0 else Sum(s[..|s| - 1]) + s[|s| - 1]
  }

  lemma SumAppend(s: seq<nat>, x: nat)
    ensures Sum(s + [x]) == Sum(s) + x
  {
    assert (s + [x])[..|s|] == s;
  }
}
