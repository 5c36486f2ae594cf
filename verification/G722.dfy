/** The G.722 sub-band ADPCM encoder. Go's `int` is 32 bits wide on the device,
    so all arithmetic is done in `int32`: every operation below is proved not
    to overflow. An arithmetic right shift is floor division. */
module G722 {

  newtype int32 = x: int | -0x8000_0000 <= x < 0x8000_0000
  type int16 = x: int32 | -32768 <= x <= 32767
  type Octet = x: int32 | 0 <= x < 256

  const Q6: seq<int32> := [
    0, 35, 72, 110, 150, 190, 233, 276,
    323, 370, 422, 473, 530, 587, 650, 714,
    786, 858, 940, 1023, 1121, 1219, 1339, 1458,
    1612, 1765, 1980, 2195, 2557, 2919, 0, 0]
  const ILN: seq<int32> := [
    0, 63, 62, 31, 30, 29, 28, 27,
    26, 25, 24, 23, 22, 21, 20, 19,
    18, 17, 16, 15, 14, 13, 12, 11,
    10, 9, 8, 7, 6, 5, 4, 0]
  const ILP: seq<int32> := [
    0, 61, 60, 59, 58, 57, 56, 55,
    54, 53, 52, 51, 50, 49, 48, 47,
    46, 45, 44, 43, 42, 41, 40, 39,
    38, 37, 36, 35, 34, 33, 32, 0]
  const WL: seq<int32> := [-60, -30, 58, 172, 334, 538, 1198, 3042]
  const RL42: seq<int32> := [0, 7, 6, 5, 4, 3, 2, 1, 7, 6, 5, 4, 3, 2, 1, 0]
  const ILB: seq<int32> := [
    2048, 2093, 2139, 2186, 2233, 2282, 2332, 2383,
    2435, 2489, 2543, 2599, 2656, 2714, 2774, 2834,
    2896, 2960, 3025, 3091, 3158, 3228, 3298, 3371,
    3444, 3520, 3597, 3676, 3756, 3838, 3922, 4008]
  const QM4: seq<int32> := [
    0, -20456, -12896, -8968,
    -6288, -4240, -2584, -1200,
    20456, 12896, 8968, 6288,
    4240, 2584, 1200, 0]
  const QM2: seq<int32> := [-7408, -1616, 7408, 1616]
  const QMF: seq<int32> := [3, -11, 12, 32, -210, 951, 3876, -805, 362, -156, 53, -11]
  const IHN: seq<int32> := [0, 1, 0]
  const IHP: seq<int32> := [0, 3, 2]
  const WH: seq<int32> := [0, -214, 798]
  const RH2: seq<int32> := [2, 1, 2, 1]

  // ---- Fixed-point helpers ----

  function Saturate(v: int32): (r: int32)
    ensures -32768 <= r <= 32767
    ensures -32768 <= v <= 32767 ==> r == v
    ensures v > 32767 ==> r == 32767
    ensures v < -32768 ==> r == -32768
  {
    if v > 32767 then 32767 else if v < -32768 then -32768 else v
  }

  lemma ProductBound(x: int, y: int, m: int, n: int)
    requires -m <= x <= m && -n <= y <= n
    ensures -(m * n) <= x * y <= m * n
  {
    if 0 <= x {
      assert x * -n <= x * y <= x * n;
      assert x * n <= m * n;
    } else {
      assert -x * -n <= -x * y <= -x * n;
      assert -x * n <= m * n;
    }
  }

  /** A product of two 16-bit quantities. */
  function Mul(x: int32, y: int32): (r: int32)
    requires -32768 <= x <= 32768 && -32768 <= y <= 32768
    ensures -0x4000_0000 <= r <= 0x4000_0000
  {
    ProductBound(x as int, y as int, 32768, 32768);
    x * y
  }

  function Halved(x: int32, k: nat): (r: int32)
    requires 0 <= x
    ensures 0 <= r <= x
  {
    if k == 0 then x else Halved(x / 2, k - 1)
  }

  // ---- State ----

  datatype Band = Band(
    s: int32, sp: int32, sz: int32,
    r: seq<int32>, a: seq<int32>, p: seq<int32>,
    d: seq<int32>, b: seq<int32>,
    nb: int32, det: int32)

  predicate All16(q: seq<int32>) {
    forall i :: 0 <= i < |q| ==> -32768 <= q[i] <= 32767
  }

  /** The stability region of section 3.6 of ITU-T G.722. */
  predicate Stable(a1: int32, a2: int32) {
    -12288 <= a2 <= 12288 && -(15360 - a2) <= a1 <= 15360 - a2
  }

  predicate PredictorOk(b: Band) {
    && |b.r| == 3 && |b.a| == 3 && |b.p| == 3 && |b.d| == 7 && |b.b| == 7
    && All16(b.r) && All16(b.a) && All16(b.p) && All16(b.d) && All16(b.b)
    && -32768 <= b.s <= 32767 && -32768 <= b.sp <= 32767 && -32768 <= b.sz <= 32767
    && Stable(b.a[1], b.a[2])
  }

  const LOW_LIMIT: int32 := 18432
  const HIGH_LIMIT: int32 := 22528

  /** The scale factor is always the one its logarithm stands for. */
  predicate LowOk(b: Band) {
    PredictorOk(b) && 0 <= b.nb <= LOW_LIMIT && b.det == Scale(b.nb, 8)
  }

  predicate HighOk(b: Band) {
    PredictorOk(b) && 0 <= b.nb <= HIGH_LIMIT && b.det == Scale(b.nb, 10)
  }

  /** No history, no prediction and no coefficients yet. */
  predicate IsSilent(b: Band) {
    && b.s == 0 && b.sp == 0 && b.sz == 0 && b.nb == 0
    && (forall j :: 0 <= j < |b.r| ==> b.r[j] == 0) && (forall j :: 0 <= j < |b.a| ==> b.a[j] == 0)
    && (forall j :: 0 <= j < |b.p| ==> b.p[j] == 0) && (forall j :: 0 <= j < |b.d| ==> b.d[j] == 0)
    && (forall j :: 0 <= j < |b.b| ==> b.b[j] == 0)
  }

  function Silence(det: int32): (b: Band)
    ensures IsSilent(b) && PredictorOk(b) && b.det == det && b.nb == 0
  {
    var z3: seq<int32> := [0, 0, 0];
    var z7: seq<int32> := [0, 0, 0, 0, 0, 0, 0];
    Band(0, 0, 0, z3, z3, z3, z7, z7, 0, det)
  }

  // ---- Scale factor adaptation ----

  /** `shift` is 8 in the low band and 10 in the high band; the logarithm
      reaches one octave above it only at its limit, where the mantissa is 0. */
  function Scale(nb: int32, shift: int32): (det: int32)
    requires (shift == 8 && 0 <= nb <= LOW_LIMIT) || (shift == 10 && 0 <= nb <= HIGH_LIMIT)
    ensures (if shift == 8 then 32 else 8) <= det <= 16384
  {
    ScaleBound(nb, shift);
    var k := shift - nb / 2048;
    var m := ILB[(nb / 64) % 32];
    (if k < 0 then m * 2 else Halved(m, k as int)) * 4
  }

  lemma MantissaRange(i: int32)
    requires 0 <= i < 32
    ensures 2048 <= ILB[i] <= 4008 && (i == 0 ==> ILB[i] == 2048)
  {
  }

  lemma {:induction false} HalvedAtLeast(x: int32, k: nat)
    requires 2048 <= x <= 4095 && k <= 10
    ensures Halved(x, k) >= [2048, 1024, 512, 256, 128, 64, 32, 16, 8, 4, 2][k]
  {
    HalvedFrom(x, 11, k);
  }

  lemma {:induction false} HalvedFrom(x: int32, e: nat, k: nat)
    requires k < e <= 11 && 0 <= x && Pow2(e) <= x as int
    ensures Halved(x, k) as int >= Pow2(e - k)
    decreases k
  {
    if k > 0 {
      assert Pow2(e) == 2 * Pow2(e - 1);
      HalvedFrom(x / 2, e - 1, k - 1);
    }
  }

  function Pow2(e: nat): int {
    if e == 0 then 1 else 2 * Pow2(e - 1)
  }

  lemma ScaleBound(nb: int32, shift: int32)
    requires (shift == 8 && 0 <= nb <= LOW_LIMIT) || (shift == 10 && 0 <= nb <= HIGH_LIMIT)
    ensures -1 <= shift - nb / 2048 <= 10
    ensures 0 <= (nb / 64) % 32 < 32
    ensures var m := ILB[(nb / 64) % 32];
            && 0 <= m <= 4008
            && (shift - nb / 2048 < 0 ==> m == 2048)
            && (shift - nb / 2048 >= 0 ==> Halved(m, (shift - nb / 2048) as int) >= if shift == 8 then 8 else 2)
  {
    MantissaRange((nb / 64) % 32);
    if shift - nb / 2048 >= 0 {
      HalvedAtLeast(ILB[(nb / 64) % 32], (shift - nb / 2048) as int);
    }
  }

  /** One step of the logarithmic scale factor. */
  function Rescaled(b: Band, w: int32, limit: int32, shift: int32): (b': Band)
    requires (shift == 8 && limit == LOW_LIMIT) || (shift == 10 && limit == HIGH_LIMIT)
    requires 0 <= b.nb <= limit && -214 <= w <= 3042
    ensures 0 <= b'.nb <= limit && b'.det == Scale(b'.nb, shift)
    ensures b' == b.(nb := b'.nb, det := b'.det)
    ensures PredictorOk(b) ==> PredictorOk(b')
  {
    var nb := (b.nb * 127) / 128 + w;
    var nb' := if nb < 0 then 0 else if nb > limit then limit else nb;
    b.(nb := nb', det := Scale(nb', shift))
  }

  // ---- The predictor ----

  /** 0 for a non-negative 16-bit value, -1 for a negative one. */
  function Sign(x: int32): (r: int32)
    ensures -32768 <= x <= 32767 ==> r == if x < 0 then -1 else 0
  {
    x / 32768
  }

  function NextPole2(b: Band, p0: int32): (r: int32)
    requires PredictorOk(b) && -32768 <= p0 <= 32767
    ensures -12288 <= r <= 12288
  {
    var w1 := Saturate(b.a[1] * 4);
    var w2 := if Sign(p0) == Sign(b.p[1]) then -w1 else w1;
    var w2 := if w2 > 32767 then 32767 else w2;
    var w3 := w2 / 128 + (if Sign(p0) == Sign(b.p[2]) then 128 else -128) + b.a[2] * 32512 / 32768;
    if w3 > 12288 then 12288 else if w3 < -12288 then -12288 else w3
  }

  function NextPole1(b: Band, p0: int32, a2: int32): (r: int32)
    requires PredictorOk(b) && -12288 <= a2 <= 12288 && -32768 <= p0 <= 32767
    ensures Stable(r, a2)
  {
    var v := Saturate((if Sign(p0) == Sign(b.p[1]) then 192 else -192) + b.a[1] * 32640 / 32768);
    var bound := Saturate(15360 - a2);
    if v > bound then bound else if v < -bound then -bound else v
  }

  /** The new zero coefficient `i`. */
  function NextZero(b: Band, d: int32, i: int): (r: int32)
    requires PredictorOk(b) && -32768 <= d <= 32767 && 1 <= i <= 6
    ensures -32768 <= r <= 32767
  {
    var step := if d != 0 then 128 else 0;
    Saturate((if Sign(b.d[i]) == Sign(d) then step else -step) + b.b[i] * 32640 / 32768)
  }

  function Tap(c: int32, v: int32): (r: int32)
    requires -32768 <= c <= 32767 && -32768 <= v <= 32767
    ensures -32768 <= r <= 32768
  {
    Mul(c, Saturate(v + v)) / 32768
  }

  /** The sum of taps `i + 1` to 6. */
  function ZeroSum(b: seq<int32>, d: seq<int32>, i: int): (r: int32)
    requires |b| == 7 && |d| == 7 && All16(b) && All16(d) && 0 <= i <= 6
    ensures -32768 * (6 - i) <= r as int <= 32768 * (6 - i)
    decreases 6 - i
  {
    if i == 6 then 0 else ZeroSum(b, d, i + 1) + Tap(b[i + 1], d[i + 1])
  }

  function NextZeros(b: Band, d: int32): (r: seq<int32>)
    requires PredictorOk(b) && -32768 <= d <= 32767
    ensures |r| == 7 && All16(r)
  {
    [b.b[0], NextZero(b, d, 1), NextZero(b, d, 2), NextZero(b, d, 3),
     NextZero(b, d, 4), NextZero(b, d, 5), NextZero(b, d, 6)]
  }

  function NextLine(b: Band, d: int32): (r: seq<int32>)
    requires PredictorOk(b) && -32768 <= d <= 32767
    ensures |r| == 7 && All16(r)
  {
    [d, d, b.d[1], b.d[2], b.d[3], b.d[4], b.d[5]]
  }

  function PolePart(a1: int32, a2: int32, r0: int32, r1: int32): (sp: int32)
    requires -32768 <= a1 <= 32767 && -32768 <= a2 <= 32767 && -32768 <= r0 <= 32767 && -32768 <= r1 <= 32767
    ensures -32768 <= sp <= 32767
  {
    Saturate(Tap(a1, r0) + Tap(a2, r1))
  }

  function ZeroPart(zeros: seq<int32>, line: seq<int32>): (sz: int32)
    requires |zeros| == 7 && |line| == 7 && All16(zeros) && All16(line)
    ensures -32768 <= sz <= 32767
  {
    Saturate(ZeroSum(zeros, line, 0))
  }

  /** A delay line of two samples moves by one. */
  function Moved(now: int32, line: seq<int32>): (r: seq<int32>)
    requires |line| == 3 && All16(line) && -32768 <= now <= 32767
    ensures |r| == 3 && All16(r)
  {
    [now, now, line[1]]
  }

  /** The band after the quantised difference `d`: every delay line moves by
      one, the coefficients adapt, and the next sample is predicted. */
  function Predicted(b: Band, d: int32): (b': Band)
    requires PredictorOk(b) && -32768 <= d <= 32767
    ensures PredictorOk(b') && b'.nb == b.nb && b'.det == b.det
  {
    var r0, p0 := Saturate(b.s + d), Saturate(b.sz + d);
    var a2 := NextPole2(b, p0);
    var a1 := NextPole1(b, p0, a2);
    var zeros, line := NextZeros(b, d), NextLine(b, d);
    var sp, sz := PolePart(a1, a2, r0, b.r[1]), ZeroPart(zeros, line);
    Band(Saturate(sp + sz), sp, sz, Moved(r0, b.r), [b.a[0], a1, a2], Moved(p0, b.p), line, zeros, b.nb, b.det)
  }

  // ---- The quadrature mirror filter ----

  /** The filter runs forwards over the even places and backwards over the odd ones. */
  function Coefficient(odd: bool, i: int): int32
    requires 0 <= i < 12
  {
    if odd then QMF[11 - i] else QMF[i]
  }

  function Abs(v: int32): int {
    if v < 0 then -(v as int) else v as int
  }

  function Mass(odd: bool, i: nat): int
    requires i <= 12
  {
    if i == 0 then 0 else Mass(odd, i - 1) + Abs(Coefficient(odd, i - 1))
  }

  lemma MassBound(odd: bool, i: nat)
    requires i <= 12
    ensures 0 <= Mass(odd, i) <= 6482
  {
    MassTotal();
    MassGrows(odd, i, 12);
    MassGrows(odd, 0, i);
  }

  lemma MassTotal()
    ensures Mass(false, 12) == 6482 && Mass(true, 12) == 6482
  {
    assert Mass(false, 3) == 26 && Mass(true, 3) == 220;
    assert Mass(false, 6) == 1219 && Mass(true, 6) == 5263;
    assert Mass(false, 9) == 6262 && Mass(true, 9) == 6456;
  }

  lemma {:induction false} MassGrows(odd: bool, i: nat, j: nat)
    requires i <= j <= 12
    ensures Mass(odd, i) <= Mass(odd, j)
    decreases j
  {
    if i < j {
      MassGrows(odd, i, j - 1);
    }
  }

  function Product(v: int32, c: int32): (r: int32)
    requires -32768 <= v <= 32767 && -32768 <= c <= 32767
    ensures -32768 * Abs(c) <= r as int <= 32768 * Abs(c)
  {
    ProductBound(v as int, c as int, 32768, Abs(c));
    v * c
  }

  function FilterSum(x: seq<int32>, odd: bool, i: nat): (r: int32)
    requires |x| == 24 && All16(x) && i <= 12
    ensures -32768 * Mass(odd, i) <= r as int <= 32768 * Mass(odd, i)
  {
    if i == 0 then 0
    else
      MassBound(odd, i - 1);
      MassBound(odd, i);
      FilterSum(x, odd, i - 1) + Product(x[2 * (i - 1) + if odd then 1 else 0], Coefficient(odd, i - 1))
  }

  lemma FilterStep(x: seq<int32>, odd: bool, i: nat)
    requires |x| == 24 && All16(x) && i < 12
    ensures -32768 <= Coefficient(odd, i) <= 32767
    ensures var term := Product(x[2 * i + if odd then 1 else 0], Coefficient(odd, i));
            FilterSum(x, odd, i + 1) as int == FilterSum(x, odd, i) as int + term as int
  {
    MassBound(odd, i);
    MassBound(odd, i + 1);
  }

  /** The two half-rate signals of the last 24 samples. */
  function LowSignal(x: seq<int32>): (r: int32)
    requires |x| == 24 && All16(x)
    ensures -32768 <= r <= 32767
  {
    MassBound(false, 12);
    MassBound(true, 12);
    (FilterSum(x, true, 12) + FilterSum(x, false, 12)) / 16384
  }

  function HighSignal(x: seq<int32>): (r: int32)
    requires |x| == 24 && All16(x)
    ensures -32768 <= r <= 32767
  {
    MassBound(false, 12);
    MassBound(true, 12);
    (FilterSum(x, true, 12) - FilterSum(x, false, 12)) / 16384
  }

  // ---- Quantisation ----

  function Threshold(det: int32, i: int): (r: int32)
    requires 0 <= det <= 16384 && 0 <= i < 30
  {
    QuantiserRange(i);
    Mul(Q6[i], det) / 4096
  }

  lemma QuantiserRange(i: int)
    requires 0 <= i < 32
    ensures 0 <= Q6[i] <= 2919
    ensures 1 <= i <= 30 ==> 4 <= ILN[i] <= 63 && 32 <= ILP[i] <= 61
  {
  }

  /** The first decision level from `i` on that lies above `v`, or 30. */
  function Level(v: int32, det: int32, i: int): (r: int)
    requires 0 <= det <= 16384 && 1 <= i <= 30
    ensures i <= r <= 30
    ensures forall j :: i <= j < r ==> Threshold(det, j) <= v
    ensures r < 30 ==> v < Threshold(det, r)
    decreases 30 - i
  {
    if i == 30 || v < Threshold(det, i) then i else Level(v, det, i + 1)
  }

  function Magnitude(e: int32): (r: int32)
    requires -32768 <= e <= 32767
    ensures 0 <= r <= 32767
  {
    if e < 0 then -(e + 1) else e
  }

  lemma StateRange(b: Band)
    requires LowOk(b)
    ensures -32768 <= b.s <= 32767 && 0 <= b.det <= 16384
  {
  }

  function LowCode(b: Band, signal: int32): (code: int32)
    requires LowOk(b) && -32768 <= signal <= 32767
    ensures 4 <= code <= 63
  {
    var e := Saturate(signal - b.s);
    CodeAt(e < 0, Level(Magnitude(e), b.det, 1))
  }

  /** The code of decision level `i` on the negative or the positive side. */
  function CodeAt(negative: bool, i: int): (code: int32)
    requires 1 <= i <= 30
    ensures 4 <= code <= 63
  {
    QuantiserRange(i);
    if negative then ILN[i] else ILP[i]
  }

  function HighCode(b: Band, signal: int32): (code: int32)
    requires HighOk(b) && -32768 <= signal <= 32767
    ensures 0 <= code <= 3
  {
    var e := Saturate(signal - b.s);
    var i := if Magnitude(e) >= 564 * b.det / 4096 then 2 else 1;
    if e < 0 then IHN[i] else IHP[i]
  }

  function Dequantised(det: int32, q: int32): (d: int32)
    requires 0 <= det <= 16384 && -20456 <= q <= 20456
    ensures -10229 <= d <= 10229
  {
    ProductBound(det as int, q as int, 16384, 20456);
    det * q / 32768
  }

  lemma TableRange(i: int32)
    requires 0 <= i < 16
    ensures -20456 <= QM4[i] <= 20456 && 0 <= RL42[i] <= 7 && -60 <= WL[RL42[i]] <= 3042
    ensures i < 4 ==> -20456 <= QM2[i] <= 20456 && 1 <= RH2[i] <= 2 && -214 <= WH[RH2[i]] <= 798
  {
  }

  /** A band moves on by its code alone, never by the signal itself. */
  function LowNext(b: Band, code: int32): (b': Band)
    requires LowOk(b) && 0 <= code < 64
    ensures LowOk(b')
  {
    TableRange(code / 4);
    Predicted(Rescaled(b, WL[RL42[code / 4]], LOW_LIMIT, 8), Dequantised(b.det, QM4[code / 4]))
  }

  function HighNext(b: Band, code: int32): (b': Band)
    requires HighOk(b) && 0 <= code < 4
    ensures HighOk(b')
  {
    TableRange(code);
    Predicted(Rescaled(b, WH[RH2[code]], HIGH_LIMIT, 10), Dequantised(b.det, QM2[code]))
  }

  // ---- Whole streams ----

  datatype Encoder = Encoder(x: seq<int32>, low: Band, high: Band)

  predicate EncoderOk(e: Encoder) {
    |e.x| == 24 && All16(e.x) && LowOk(e.low) && HighOk(e.high)
  }

  function Shifted(x: seq<int32>, first: int16, second: int16): (x': seq<int32>)
    requires |x| == 24 && All16(x)
    ensures |x'| == 24 && All16(x')
  {
    x[2..] + [first, second]
  }

  function CodeOf(e: Encoder, first: int16, second: int16): Octet
    requires EncoderOk(e)
  {
    var x := Shifted(e.x, first, second);
    HighCode(e.high, HighSignal(x)) * 64 + LowCode(e.low, LowSignal(x))
  }

  function Next(e: Encoder, first: int16, second: int16): (e': Encoder)
    requires EncoderOk(e)
    ensures EncoderOk(e')
  {
    var x := Shifted(e.x, first, second);
    Encoder(x, LowNext(e.low, LowCode(e.low, LowSignal(x))), HighNext(e.high, HighCode(e.high, HighSignal(x))))
  }

  function After(e: Encoder, samples: seq<int16>, n: nat): (e': Encoder)
    requires EncoderOk(e) && 2 * n <= |samples|
    ensures EncoderOk(e')
  {
    if n == 0 then e else Next(After(e, samples, n - 1), samples[2 * n - 2], samples[2 * n - 1])
  }

  function Codes(e: Encoder, samples: seq<int16>, n: nat): (codes: seq<Octet>)
    requires EncoderOk(e) && 2 * n <= |samples|
    ensures |codes| == n
  {
    if n == 0 then []
    else Codes(e, samples, n - 1) + [CodeOf(After(e, samples, n - 1), samples[2 * n - 2], samples[2 * n - 1])]
  }

  lemma HalvedTwice(x: int32, k: nat)
    requires 0 <= x && 2 <= k
    ensures Halved(x, k) == Halved(x / 4, k - 2) && Halved(x / 4, 0) == x / 4
  {
  }

  lemma HalvedFully()
    ensures Halved(2048, 8) == 8 && Halved(2048, 10) == 2
  {
    hide Halved;
    HalvedTwice(2048, 8);
    HalvedTwice(512, 6);
    HalvedTwice(128, 4);
    HalvedTwice(32, 2);
    HalvedTwice(2048, 10);
    HalvedTwice(512, 8);
    HalvedTwice(128, 6);
    HalvedTwice(32, 4);
    HalvedTwice(8, 2);
  }

  lemma InitialScale()
    ensures Scale(0, 8) == 32 && Scale(0, 10) == 8
  {
    hide Halved;
    HalvedFully();
    assert ILB[0] == 2048;
  }

  function Fresh(): (e: Encoder)
    ensures EncoderOk(e) && e.low.det == 32 && e.high.det == 8
    ensures forall j :: 0 <= j < 24 ==> e.x[j] == 0
    ensures IsSilent(e.low) && IsSilent(e.high)
  {
    InitialScale();
    Encoder(Zeros24(), Silence(32), Silence(8))
  }

  function Zeros24(): (x: seq<int32>)
    ensures |x| == 24 && All16(x) && forall j :: 0 <= j < 24 ==> x[j] == 0
  {
    seq(24, _ => 0)
  }

  /** Whatever the samples, after any number of pairs both scale factors are in
      range, all predictor state fits 16 bits and both bands are stable. */
  lemma StreamStaysInRange(samples: seq<int16>, n: nat)
    requires 2 * n <= |samples|
    ensures var e := After(Fresh(), samples, n);
            && 32 <= e.low.det <= 16384 && 8 <= e.high.det <= 16384
            && PredictorOk(e.low) && PredictorOk(e.high)
            && Stable(e.low.a[1], e.low.a[2]) && Stable(e.high.a[1], e.high.a[2])
  {
  }

  /** What a receiver that only sees the bytes makes of them. */
  function Track(low: Band, high: Band, codes: seq<Octet>): (r: (Band, Band))
    requires LowOk(low) && HighOk(high)
    ensures LowOk(r.0) && HighOk(r.1)
  {
    if codes == [] then (low, high)
    else
      var (l, h) := Track(low, high, codes[..|codes| - 1]);
      var code := codes[|codes| - 1];
      (LowNext(l, code % 64), HighNext(h, code / 64))
  }

  lemma UnpackedCode(e: Encoder, first: int16, second: int16)
    requires EncoderOk(e)
    ensures var x := Shifted(e.x, first, second);
            && CodeOf(e, first, second) % 64 == LowCode(e.low, LowSignal(x))
            && CodeOf(e, first, second) / 64 == HighCode(e.high, HighSignal(x))
  {
    hide LowCode, HighCode, LowSignal, HighSignal, LowOk, HighOk;
  }

  lemma BandsMoveByCode(e: Encoder, first: int16, second: int16)
    requires EncoderOk(e)
    ensures Next(e, first, second).low == LowNext(e.low, CodeOf(e, first, second) % 64)
    ensures Next(e, first, second).high == HighNext(e.high, CodeOf(e, first, second) / 64)
  {
    UnpackedCode(e, first, second);
  }

  lemma TrackAppend(low: Band, high: Band, codes: seq<Octet>, code: Octet)
    requires LowOk(low) && HighOk(high)
    ensures var t := Track(low, high, codes);
            Track(low, high, codes + [code]) == (LowNext(t.0, code % 64), HighNext(t.1, code / 64))
  {
    assert (codes + [code])[..|codes|] == codes;
  }

  /** The adaptation is backward: a receiver reproduces both bands of the
      encoder, coefficients and scale factors included, from the bytes alone. */
  lemma {:induction false} ReceiverTracks(e: Encoder, samples: seq<int16>, n: nat)
    requires EncoderOk(e) && 2 * n <= |samples|
    ensures var end := After(e, samples, n);
            Track(e.low, e.high, Codes(e, samples, n)) == (end.low, end.high)
  {
    hide Next, CodeOf, LowNext, HighNext;
    if n > 0 {
      ReceiverTracks(e, samples, n - 1);
      var before := After(e, samples, n - 1);
      var first, second := samples[2 * n - 2], samples[2 * n - 1];
      TrackAppend(e.low, e.high, Codes(e, samples, n - 1), CodeOf(before, first, second));
      BandsMoveByCode(before, first, second);
    }
  }

  // ---- The encoder object ----

  class G722Encoder {
    var x: seq<int32>
    var band: seq<Band>

    ghost predicate Valid()
      reads this
    {
      |band| == 2 && EncoderOk(View())
    }

    ghost function View(): Encoder
      requires |band| == 2
      reads this
    {
      Encoder(x, band[0], band[1])
    }

    constructor ()
      ensures Valid() && View() == Fresh()
    {
      x := seq(24, _ => 0);
      band := [Silence(32), Silence(8)];
      new;
      assert View() == Fresh();
    }

    /** Fills `dst` until it is full or the samples run out; a last odd sample
        is ignored. */
    method Encode(dst: array<Octet>, samples: seq<int16>) returns (out: nat)
      requires Valid()
      modifies this, dst
      ensures Valid()
      ensures out == if dst.Length <= |samples| / 2 then dst.Length else |samples| / 2
      ensures View() == After(old(View()), samples, out)
      ensures dst[..out] == Codes(old(View()), samples, out)
      ensures dst[out..] == old(dst[out..])
    {
      hide Next, CodeOf, LowOk, HighOk;
      ghost var start := View();
      out := 0;
      var j := 0;
      while j + 1 < |samples| && out < dst.Length
        invariant j == 2 * out && j <= |samples| && out <= dst.Length
        invariant Valid() && View() == After(start, samples, out)
        invariant dst[..out] == Codes(start, samples, out)
        invariant forall k :: out <= k < dst.Length ==> dst[k] == old(dst[k])
        decreases |samples| - j
      {
        var code := EncodePair(samples[j], samples[j + 1]);
        j := j + 2;
        dst[out] := code;
        out := out + 1;
        assert dst[..out] == dst[..out - 1] + [code];
      }
    }

    method EncodePair(first: int16, second: int16) returns (code: Octet)
      requires Valid()
      modifies this
      ensures Valid()
      ensures View() == Next(old(View()), first, second)
      ensures code == CodeOf(old(View()), first, second)
    {
      hide LowNext, HighNext, LowCode, HighCode, LowSignal, HighSignal, LowOk, HighOk;
      x := x[2..] + [first, second];
      assert x == Shifted(old(x), first, second);
      var xlow, xhigh := SplitBands();
      var ilow := EncodeLow(xlow);
      var ihigh := EncodeHigh(xhigh);
      code := ihigh * 64 + ilow;
    }

    method SplitBands() returns (xlow: int32, xhigh: int32)
      requires |x| == 24 && All16(x)
      ensures xlow == LowSignal(x) && xhigh == HighSignal(x)
    {
      assert FilterSum(x, false, 0) == 0 && FilterSum(x, true, 0) == 0;
      hide FilterSum, Product, Mass;
      var sumOdd: int32, sumEven: int32 := 0, 0;
      for i := 0 to 12
        invariant sumOdd == FilterSum(x, false, i) && sumEven == FilterSum(x, true, i)
      {
        FilterStep(x, false, i);
        FilterStep(x, true, i);
        sumOdd := sumOdd + Product(x[2 * i], QMF[i]);
        sumEven := sumEven + Product(x[2 * i + 1], QMF[11 - i]);
      }
      MassBound(false, 12);
      MassBound(true, 12);
      xlow := (sumEven + sumOdd) / 16384;
      xhigh := (sumEven - sumOdd) / 16384;
    }

    static method FindCode(el: int32, det: int32) returns (ilow: int32)
      requires -32768 <= el <= 32767 && 0 <= det <= 16384
      ensures ilow == CodeAt(el < 0, Level(Magnitude(el), det, 1))
    {
      hide Mul;
      var wd := if el < 0 then -(el + 1) else el;
      var i := 1;
      while i < 30
        invariant 1 <= i <= 30 && Level(wd, det, 1) == Level(wd, det, i)
      {
        QuantiserRange(i);
        if wd < Mul(Q6[i], det) / 4096 {
          break;
        }
        i := i + 1;
      }
      QuantiserRange(i);
      ilow := if el < 0 then ILN[i] else ILP[i];
    }

    method QuantiseLow(xlow: int32) returns (ilow: int32)
      requires |band| == 2 && LowOk(band[0]) && -32768 <= xlow <= 32767
      ensures ilow == LowCode(band[0], xlow)
    {
      StateRange(band[0]);
      var el := Saturate(xlow - band[0].s);
      ilow := FindCode(el, band[0].det);
    }

    method QuantiseHigh(xhigh: int32) returns (ihigh: int32)
      requires |band| == 2 && HighOk(band[1]) && -32768 <= xhigh <= 32767
      ensures ihigh == HighCode(band[1], xhigh)
    {
      var eh := Saturate(xhigh - band[1].s);
      var wd := if eh < 0 then -(eh + 1) else eh;
      var mih := 1;
      if wd >= 564 * band[1].det / 4096 {
        mih := 2;
      }
      ihigh := if eh < 0 then IHN[mih] else IHP[mih];
    }

    method EncodeLow(xlow: int32) returns (ilow: int32)
      requires |band| == 2 && LowOk(band[0]) && -32768 <= xlow <= 32767
      modifies this`band
      ensures ilow == LowCode(old(band[0]), xlow)
      ensures band == old(band)[0 := LowNext(old(band[0]), ilow)]
    {
      hide Predicted, Rescaled, PredictorOk, Dequantised, LowCode;
      ilow := QuantiseLow(xlow);
      var ril := ilow / 4;
      TableRange(ril);
      var dlow := Dequantised(band[0].det, QM4[ril]);
      Rescale(0, WL[RL42[ril]], LOW_LIMIT, 8);
      Block4(0, dlow);
    }

    method EncodeHigh(xhigh: int32) returns (ihigh: int32)
      requires |band| == 2 && HighOk(band[1]) && -32768 <= xhigh <= 32767
      modifies this`band
      ensures ihigh == HighCode(old(band[1]), xhigh)
      ensures band == old(band)[1 := HighNext(old(band[1]), ihigh)]
    {
      hide Predicted, Rescaled, PredictorOk, Dequantised, HighCode;
      ihigh := QuantiseHigh(xhigh);
      TableRange(ihigh);
      var dhigh := Dequantised(band[1].det, QM2[ihigh]);
      Rescale(1, WH[RH2[ihigh]], HIGH_LIMIT, 10);
      Block4(1, dhigh);
    }

    method Rescale(bandIndex: nat, w: int32, limit: int32, shift: int32)
      requires |band| == 2 && bandIndex < 2
      requires (shift == 8 && limit == LOW_LIMIT) || (shift == 10 && limit == HIGH_LIMIT)
      requires 0 <= band[bandIndex].nb <= limit && -214 <= w <= 3042
      modifies this`band
      ensures band == old(band)[bandIndex := Rescaled(old(band[bandIndex]), w, limit, shift)]
    {
      hide Halved, PredictorOk, Scale;
      var b := band[bandIndex];
      var nb := b.nb * 127 / 128 + w;
      if nb < 0 {
        nb := 0;
      } else if nb > limit {
        nb := limit;
      }
      var det := ScaleOf(nb, shift);
      band := band[bandIndex := b.(nb := nb, det := det)];
    }

    static method ScaleOf(nb: int32, shift: int32) returns (det: int32)
      requires (shift == 8 && 0 <= nb <= LOW_LIMIT) || (shift == 10 && 0 <= nb <= HIGH_LIMIT)
      ensures det == Scale(nb, shift)
    {
      hide Halved;
      ScaleBound(nb, shift);
      var wd1 := (nb / 64) % 32;
      var wd2 := shift - nb / 2048;
      var wd3 := ILB[wd1];
      if wd2 < 0 {
        wd3 := wd3 * 2;
      } else {
        wd3 := Halved(wd3, wd2 as int);
      }
      det := wd3 * 4;
    }

    /** Adapts the predictor of one band to the quantised difference `d`. */
    method Block4(bandIndex: nat, d: int32)
      requires |band| == 2 && bandIndex < 2
      requires PredictorOk(band[bandIndex]) && -32768 <= d <= 32767
      modifies this`band
      ensures band == old(band)[bandIndex := Predicted(old(band[bandIndex]), d)]
    {
      hide NextPole1, NextPole2, NextZeros, Tap, ZeroSum;
      var b := band[bandIndex];
      var line, r, p, a := b.d[0 := d], b.r[0 := Saturate(b.s + d)], b.p[0 := Saturate(b.sz + d)], b.a;
      var ap := AdaptPoles(b, p);
      var bp := AdaptZeros(b, d);

      line := ShiftLine(line);
      r, p, a := ShiftPoles(r, p, a, ap);
      var sp := Saturate(Tap(a[1], r[1]) + Tap(a[2], r[2]));
      var sz := SumZeros(bp, line);
      sz := Saturate(sz);
      band := band[bandIndex := Band(Saturate(sp + sz), sp, sz, r, a, p, line, bp, b.nb, b.det)];
    }

    /** The two short delay lines move by one, and the new poles are taken over. */
    static method ShiftPoles(r0: seq<int32>, p0: seq<int32>, a0: seq<int32>, ap: seq<int32>)
      returns (r: seq<int32>, p: seq<int32>, a: seq<int32>)
      requires |r0| == |p0| == |a0| == |ap| == 3
      ensures r == [r0[0], r0[0], r0[1]] && p == [p0[0], p0[0], p0[1]] && a == [a0[0], ap[1], ap[2]]
    {
      r, p, a := r0, p0, a0;
      for i := 3 downto 1
        invariant |r| == |p| == |a| == 3
        invariant forall j :: 0 <= j < i ==> r[j] == r0[j] && p[j] == p0[j] && a[j] == a0[j]
        invariant forall j :: i <= j < 3 ==> r[j] == r0[j - 1] && p[j] == p0[j - 1] && a[j] == ap[j]
      {
        r := r[i := r[i - 1]];
        p := p[i := p[i - 1]];
        a := a[i := ap[i]];
      }
    }

    static method AdaptPoles(b: Band, p: seq<int32>) returns (ap: seq<int32>)
      requires PredictorOk(b) && |p| == 3 && All16(p) && p[1..] == b.p[1..]
      ensures |ap| == 3 && ap[2] == NextPole2(b, p[0]) && ap[1] == NextPole1(b, p[0], ap[2])
    {
      hide NextPole1, NextPole2;
      var sg: seq<int32> := [0, 0, 0];
      for i := 0 to 3
        invariant |sg| == 3 && forall j :: 0 <= j < i ==> sg[j] == Sign(p[j])
      {
        sg := sg[i := p[i] / 32768];
      }
      assert p[1] == p[1..][0] == b.p[1] && p[2] == p[1..][1] == b.p[2];
      var ap2 := AdaptPole2(b, p[0], sg);
      var ap1 := AdaptPole1(b, p[0], sg, ap2);
      ap := [0, ap1, ap2];
    }

    static method AdaptPole2(b: Band, p0: int32, sg: seq<int32>) returns (ap2: int32)
      requires PredictorOk(b) && -32768 <= p0 <= 32767
      requires sg == [Sign(p0), Sign(b.p[1]), Sign(b.p[2])]
      ensures ap2 == NextPole2(b, p0)
    {
      var wd1 := Saturate(b.a[1] * 4);
      var wd2 := wd1;
      if sg[0] == sg[1] {
        wd2 := -wd1;
      }
      if wd2 > 32767 {
        wd2 := 32767;
      }
      var wd3 := wd2 / 128;
      if sg[0] == sg[2] {
        wd3 := wd3 + 128;
      } else {
        wd3 := wd3 - 128;
      }
      wd3 := wd3 + b.a[2] * 32512 / 32768;
      if wd3 > 12288 {
        wd3 := 12288;
      } else if wd3 < -12288 {
        wd3 := -12288;
      }
      ap2 := wd3;
    }

    static method AdaptPole1(b: Band, p0: int32, sg: seq<int32>, ap2: int32) returns (ap1: int32)
      requires PredictorOk(b) && -32768 <= p0 <= 32767 && -12288 <= ap2 <= 12288
      requires sg == [Sign(p0), Sign(b.p[1]), Sign(b.p[2])]
      ensures ap1 == NextPole1(b, p0, ap2)
    {
      var wd1 := -192;
      if sg[0] == sg[1] {
        wd1 := 192;
      }
      var wd2 := b.a[1] * 32640 / 32768;
      ap1 := Saturate(wd1 + wd2);
      var wd3 := Saturate(15360 - ap2);
      if ap1 > wd3 {
        ap1 := wd3;
      } else if ap1 < -wd3 {
        ap1 := -wd3;
      }
    }

    static method AdaptZeros(b: Band, d: int32) returns (bp: seq<int32>)
      requires PredictorOk(b) && -32768 <= d <= 32767
      ensures bp == NextZeros(b, d)
    {
      bp := b.b;
      var wd1 := 0;
      if d != 0 {
        wd1 := 128;
      }
      var sg0 := d / 32768;
      for i := 1 to 7
        invariant |bp| == 7 && bp[0] == b.b[0]
        invariant forall j :: 1 <= j < i ==> bp[j] == NextZero(b, d, j)
      {
        var wd2 := wd1;
        if b.d[i] / 32768 != sg0 {
          wd2 := -wd1;
        }
        var wd3 := b.b[i] * 32640 / 32768;
        bp := bp[i := Saturate(wd2 + wd3)];
      }
    }

    static method ShiftLine(line: seq<int32>) returns (r: seq<int32>)
      requires |line| == 7
      ensures r == [line[0], line[0], line[1], line[2], line[3], line[4], line[5]]
    {
      r := line;
      for i := 7 downto 1
        invariant |r| == 7
        invariant forall j :: 0 <= j < i ==> r[j] == line[j]
        invariant forall j :: i <= j < 7 ==> r[j] == line[j - 1]
      {
        r := r[i := r[i - 1]];
      }
    }

    static method SumZeros(b: seq<int32>, line: seq<int32>) returns (sz: int32)
      requires |b| == 7 && |line| == 7 && All16(b) && All16(line)
      ensures sz == ZeroSum(b, line, 0)
    {
      sz := 0;
      for i := 7 downto 1
        invariant sz == ZeroSum(b, line, i - 1)
      {
        sz := sz + Tap(b[i], line[i]);
      }
    }
  }
}
