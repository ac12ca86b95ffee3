/** The constants of the Andor SDK bindings that the camera logic tests against
    (status codes, the EM-gain capability bit and the camera-type codes). */
module AndorSdk {

  const DRV_SUCCESS: int := 20002
  const DRV_TEMP_STABILIZED: int := 20036
  const DRV_ACQUIRING: int := 20072

  /** Mask of `ulSetFunctions` saying the camera can set its EM-CCD gain ... */
  const AC_SETFUNCTION_EMCCDGAIN: nat := 0x10
  /** ... which is bit 4. */
  const AC_SETFUNCTION_EMCCDGAIN_BIT: nat := 4

  const AC_CAMERATYPE_PDA: nat := 0
  const AC_CAMERATYPE_IXON: nat := 1
  const AC_CAMERATYPE_ICCD: nat := 2
  const AC_CAMERATYPE_EMCCD: nat := 3
  const AC_CAMERATYPE_CCD: nat := 4
  const AC_CAMERATYPE_ISTAR: nat := 5
  const AC_CAMERATYPE_VIDEO: nat := 6
  const AC_CAMERATYPE_IDUS: nat := 7
  const AC_CAMERATYPE_NEWTON: nat := 8
  const AC_CAMERATYPE_SURCAM: nat := 9
  const AC_CAMERATYPE_USBICCD: nat := 10
  const AC_CAMERATYPE_LUCA: nat := 11
  const AC_CAMERATYPE_RESERVED: nat := 12
  const AC_CAMERATYPE_IKON: nat := 13
  const AC_CAMERATYPE_INGAAS: nat := 14
  const AC_CAMERATYPE_IVAC: nat := 15
  const AC_CAMERATYPE_UNPROGRAMMED: nat := 16
  const AC_CAMERATYPE_CLARA: nat := 17
  const AC_CAMERATYPE_USBISTAR: nat := 18
  const AC_CAMERATYPE_SIMCAM: nat := 19
  const AC_CAMERATYPE_NEO: nat := 20
  const AC_CAMERATYPE_IXONULTRA: nat := 21
  const AC_CAMERATYPE_VOLMOS: nat := 22

  function Pow2(k: nat): (p: nat)
    ensures p > 0
  {
    if k == 0 then 1 else 2 * Pow2(k - 1)
  }

  /** Bit `k` of an unsigned value: `flags & (1 << k) != 0`. */
  predicate HasBit(flags: nat, k: nat)
    decreases k
  {
    if k == 0 then flags % 2 == 1 else HasBit(flags / 2, k - 1)
  }

  /** Testing bit `k` is testing the single-bit mask `2^k`: the remainder of `flags / 2^k` is odd. */
  lemma {:induction false} HasBitMask(flags: nat, k: nat)
    ensures HasBit(flags, k) <==> (flags / Pow2(k)) % 2 == 1
    decreases k
  {
    if k > 0 {
      HasBitMask(flags / 2, k - 1);
      DivDiv(flags, 2, Pow2(k - 1));
    }
  }

  /** Division by `b * c` is division by `b`, then by `c`. */
  lemma DivDiv(a: nat, b: nat, c: nat)
    requires b > 0 && c > 0
    ensures a / b / c == a / (b * c)
  {
    var q, r := a / b, a % b;
    var q2, r2 := q / c, q % c;
    assert a == b * q + r;
    assert q == c * q2 + r2;
    assert b * q == (b * c) * q2 + b * r2 by {
      assert b * (c * q2 + r2) == b * (c * q2) + b * r2;
    }
    assert b * r2 <= b * (c - 1) by {
      MulMonotone(b, r2, c - 1);
    }
    DivUnique(a, b * c, q2, b * r2 + r);
  }

  lemma MulMonotone(b: nat, x: nat, y: nat)
    requires x <= y
    ensures b * x <= b * y
  {
  }

  /** The quotient is the only `q` with `a == d * q + r` and `0 <= r < d`. */
  lemma DivUnique(a: int, d: int, q: int, r: int)
    requires d > 0 && 0 <= r < d && a == d * q + r
    ensures a / d == q
  {
    var x := q - a / d;
    assert d * x == a % d - r;
    MulSign(d, x);
  }

  lemma MulSign(d: int, x: int)
    requires d > 0
    ensures x >= 1 ==> d * x >= d
    ensures x <= -1 ==> d * x <= -d
  {
    if x >= 1 {
      MulMonotone(d, 1, x);
    } else if x <= -1 {
      MulMonotone(d, 1, -x);
    }
  }

  /** The EM-gain capability bit is the mask the bindings define. */
  lemma EmGainMask()
    ensures Pow2(AC_SETFUNCTION_EMCCDGAIN_BIT) == AC_SETFUNCTION_EMCCDGAIN
  {
  }
}
