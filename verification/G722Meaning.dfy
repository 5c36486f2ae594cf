/** What the parts of the G.722 encoder compute, said without their code: the
    quantisers describe the difference, the filter has its impulse response,
    and the predictor adapts as section 3.6 of ITU-T G.722 prescribes. */
module G722Meaning {
  import opened G722

  // ---- The low band's quantiser ----

  /** The difference that is quantised. */
  function Difference(b: Band, signal: int32): (e: int32)
    requires LowOk(b) || HighOk(b)
    requires -32768 <= signal <= 32767
    ensures -32768 <= e <= 32767
  {
    Saturate(signal - b.s)
  }

  /** `v` lies in the `i`th of the 30 cells of the quantiser. */
  predicate IsInCell(v: int, det: int32, i: int)
    requires 0 <= det <= 16384
  {
    && 1 <= i <= 30
    && (i > 1 ==> Threshold(det, i - 1) as int <= v)
    && (i < 30 ==> v < Threshold(det, i) as int)
  }

  lemma CodeTables(i: int)
    requires 1 <= i <= 30
    ensures ILP[i] as int == 62 - i
    ensures ILN[i] as int == if i <= 2 then 64 - i else 34 - i
  {
  }

  /** The code says on which side of zero the difference lies and in which
      cell its magnitude does: codes fall with the cell from 61 for a positive
      and, after 63 and 62, from 31 for a negative difference. */
  lemma LowCodeDescribes(b: Band, signal: int32) returns (i: int)
    requires LowOk(b) && -32768 <= signal <= 32767
    ensures var e := Difference(b, signal) as int;
            && IsInCell(if e < 0 then -e - 1 else e, b.det, i)
            && LowCode(b, signal) as int == if e >= 0 then 62 - i else if i <= 2 then 64 - i else 34 - i
  {
    StateRange(b);
    var e := Difference(b, signal);
    hide Threshold, LowOk, ILP, ILN;
    i := Level(Magnitude(e), b.det, 1);
    CodeTables(i);
  }

  /** Four cells share a code of the receiver, the first two have one of their
      own; these are the cells such a group begins and ends with. */
  function GroupStart(i: int): int
    requires 1 <= i <= 30
  {
    if i < 3 then 0 else 4 * ((i - 3) / 4) + 2
  }

  function GroupEnd(i: int): int
    requires 1 <= i <= 30
  {
    if i < 3 then 2 else if i >= 27 then 29 else GroupStart(i) + 4
  }

  /** The value the receiver takes for cell `i`, in units of the thresholds
      times eight. */
  function Output(i: int): int
    requires 1 <= i <= 30
  {
    QM4[(62 - i) / 4] as int
  }

  lemma NegativeEntry(i: int)
    requires 1 <= i <= 30
    ensures i > 2 ==> QM4[(34 - i) / 4] as int == -Output(i)
    ensures i <= 2 ==> QM4[(64 - i) / 4] == 0 && Output(i) == 0
  {
  }

  lemma GroupBounds(i: int)
    requires 1 <= i <= 30
    ensures 0 <= GroupStart(i) < i && GroupStart(i) < GroupEnd(i) <= 29
    ensures GroupStart(i) in {0, 2, 6, 10, 14, 18, 22, 26} && GroupEnd(i) in {2, 6, 10, 14, 18, 22, 26, 29}
    ensures GroupStart(i) == if i < 3 then 0 else if i < 7 then 2 else if i < 11 then 6 else if i < 15 then 10
            else if i < 19 then 14 else if i < 23 then 18 else if i < 27 then 22 else 26
    ensures GroupEnd(i) == if i < 3 then 2 else if i < 7 then 6 else if i < 11 then 10 else if i < 15 then 14
            else if i < 19 then 18 else if i < 23 then 22 else if i < 27 then 26 else 29
  {
  }

  /** The receiver's value lies between the thresholds of the group. */
  lemma OutputInGroup(i: int)
    requires 1 <= i <= 30
    ensures 0 <= GroupStart(i) < i && GroupStart(i) < GroupEnd(i) <= 29
    ensures 8 * Q6[GroupStart(i)] as int <= Output(i) <= 8 * Q6[GroupEnd(i)] as int <= 23352
  {
    OutputAt(i);
    GroupBounds(i);
    hide Output, GroupStart, GroupEnd;
  }

  lemma ScaledBy(det: int, x: int, y: int, z: int)
    requires 0 <= det && 0 <= x && 8 * x <= y <= 8 * z
    ensures x * det / 4096 <= det * y / 32768 <= z * det / 4096
    ensures x * det / 4096 <= -(det * -y / 32768) <= z * det / 4096 + 1
  {
    assert 8 * (x * det) <= det * y <= 8 * (z * det);
    assert det * -y == -(det * y);
  }

  lemma ThresholdIs(det: int32, i: int)
    requires 0 <= det <= 16384 && 0 <= i < 30
    ensures Threshold(det, i) as int == Q6[i] as int * det as int / 4096
  {
    QuantiserRange(i);
  }

  lemma DequantisedIs(det: int32, q: int32)
    requires 0 <= det <= 16384 && -20456 <= q <= 20456
    ensures Dequantised(det, q) as int == det as int * q as int / 32768
  {
    ProductBound(det as int, q as int, 16384, 20456);
  }

  /** The receiver's table entry for cell `i` on one side of zero. */
  function Entry(i: int, negative: bool): int32
    requires 1 <= i <= 30
  {
    if !negative then QM4[(62 - i) / 4] else if i <= 2 then QM4[(64 - i) / 4] else QM4[(34 - i) / 4]
  }

  lemma ValueAt(det: int32, i: int, negative: bool)
    requires 0 <= det <= 16384 && 1 <= i <= 30
    ensures var q := Entry(i, negative);
            && q as int == (if negative then -Output(i) else Output(i)) && -20456 <= q <= 20456
            && Dequantised(det, q) as int == det as int * (if negative then -Output(i) else Output(i)) / 32768
  {
    NegativeEntry(i);
    OutputAt(i);
    hide Dequantised, Output;
    assert Entry(i, false) as int == Output(i) by {
      PositiveEntry(i);
    }
    DequantisedIs(det, Entry(i, negative));
  }

  lemma PositiveEntry(i: int)
    requires 1 <= i <= 30
    ensures Entry(i, false) as int == Output(i)
  {
  }

  /** The value lies in the group of the cell. */
  lemma GroupValue(det: int32, i: int, negative: bool)
    requires 0 <= det <= 16384 && 1 <= i <= 30
    ensures var q := Entry(i, negative);
            && -20456 <= q <= 20456
            && (negative ==> Dequantised(det, q) <= 0) && (!negative ==> Dequantised(det, q) >= 0)
            && 0 <= GroupStart(i) < GroupEnd(i) <= 29
            && var size := if negative then -(Dequantised(det, q) as int) else Dequantised(det, q) as int;
               Threshold(det, GroupStart(i)) as int <= size <= Threshold(det, GroupEnd(i)) as int + 1
  {
    hide Threshold, Dequantised, Entry, Output;
    OutputInGroup(i);
    ThresholdIs(det, GroupStart(i));
    ThresholdIs(det, GroupEnd(i));
    ValueAt(det, i, negative);
    ScaledBy(det as int, Q6[GroupStart(i)] as int, Output(i), Q6[GroupEnd(i)] as int);
    QuantiserRange(GroupStart(i));
    ProductGrows(det as int, 0, Output(i));
  }

  lemma {:induction false} ThresholdsGrow(det: int32, i: int, j: int)
    requires 0 <= det <= 16384 && 0 <= i <= j < 30
    ensures Threshold(det, i) <= Threshold(det, j)
    decreases j - i
  {
    hide Threshold;
    if i < j {
      ThresholdsGrow(det, i, j - 1);
      ThresholdIs(det, j - 1);
      ThresholdIs(det, j);
      LevelsGrow(j);
      assert Q6[j - 1] as int * det as int <= Q6[j] as int * det as int;
    }
  }

  lemma LevelsGrow(j: int)
    requires 0 < j < 30
    ensures Q6[j - 1] < Q6[j]
  {
  }

  /** What the receiver makes of the low band's code has the sign of the
      difference, and both lie in the same group of cells: inside the range of
      the quantiser the error is at most the width of the group. */
  lemma LowCodeIsClose(b: Band, signal: int32) returns (from: int, to: int)
    requires LowOk(b) && -32768 <= signal <= 32767
    ensures 0 <= b.det <= 16384 && 0 <= LowCode(b, signal) / 4 < 16 && 0 <= from < to <= 29
    ensures -20456 <= QM4[LowCode(b, signal) / 4] <= 20456
    ensures var e, d := Difference(b, signal) as int, Dequantised(b.det, QM4[LowCode(b, signal) / 4]) as int;
            var size := if e < 0 then -e - 1 else e;
            && (e < 0 ==> d <= 0) && (e >= 0 ==> d >= 0)
            && Threshold(b.det, from) as int <= size
            && (size < Threshold(b.det, 29) as int ==> size <= Threshold(b.det, to) as int)
            && Threshold(b.det, from) as int <= (if e < 0 then -d else d) <= Threshold(b.det, to) as int + 1
  {
    StateRange(b);
    TableRange(LowCode(b, signal) / 4);
    hide Threshold, LowOk, LowCode, Dequantised;
    var i := LowCodeDescribes(b, signal);
    from, to := GroupStart(i), GroupEnd(i);
    OutputInGroup(i);
    var e := Difference(b, signal);
    GroupValue(b.det, i, e < 0);
    ThresholdZero(b.det);
    ThresholdsGrow(b.det, from, i - 1);
    if i < 30 {
      ThresholdsGrow(b.det, i, if i <= to then to else i);
    }
  }

  lemma ThresholdZero(det: int32)
    requires 0 <= det <= 16384
    ensures Threshold(det, 0) == 0
  {
  }

  lemma LevelGrows(v: int32, w: int32, det: int32)
    requires 0 <= det <= 16384 && v <= w
    ensures Level(v, det, 1) <= Level(w, det, 1)
  {
    hide Threshold;
  }

  lemma OutputsGrow(i: int, j: int)
    requires 1 <= i <= j <= 30
    ensures 0 <= Output(i) <= Output(j) <= 20456
  {
    OutputAt(i);
    OutputAt(j);
  }

  lemma OutputAt(i: int)
    requires 1 <= i <= 30
    ensures Output(i) ==
            if i < 3 then 0 else if i < 7 then 1200 else if i < 11 then 2584 else if i < 15 then 4240
            else if i < 19 then 6288 else if i < 23 then 8968 else if i < 27 then 12896 else 20456
  {
  }

  lemma ProductGrows(det: int, x: int, y: int)
    requires 0 <= det && 0 <= x <= y
    ensures det * x / 32768 <= det * y / 32768 && det * -y / 32768 <= det * -x / 32768
  {
    assert det * x <= det * y;
    assert det * -x == -(det * x) && det * -y == -(det * y);
  }

  function CellOf(e: int32, det: int32): (i: int)
    requires -32768 <= e <= 32767 && 0 <= det <= 16384
    ensures 1 <= i <= 30
  {
    Level(Magnitude(e), det, 1)
  }

  lemma LowEntry(b: Band, signal: int32)
    requires LowOk(b) && -32768 <= signal <= 32767
    ensures 0 <= b.det <= 16384 && 0 <= LowCode(b, signal) / 4 < 16
    ensures var e := Difference(b, signal); QM4[LowCode(b, signal) / 4] == Entry(CellOf(e, b.det), e < 0)
  {
    StateRange(b);
    var e := Difference(b, signal);
    hide Threshold, LowOk, Level;
    CodeTables(CellOf(e, b.det));
  }

  /** A larger difference lies further out on its side. */
  lemma CellsGrow(e: int32, f: int32, det: int32)
    requires -32768 <= e <= f <= 32767 && 0 <= det <= 16384
    ensures e >= 0 ==> CellOf(e, det) <= CellOf(f, det)
    ensures f < 0 ==> CellOf(f, det) <= CellOf(e, det)
  {
    hide Level, Threshold;
    if e >= 0 {
      LevelGrows(Magnitude(e), Magnitude(f), det);
    } else if f < 0 {
      LevelGrows(Magnitude(f), Magnitude(e), det);
    }
  }

  lemma ValuesGrow(det: int32, i: int, n: bool, j: int, m: bool)
    requires 0 <= det <= 16384 && 1 <= i <= 30 && 1 <= j <= 30
    requires (n && m && j <= i) || (!n && !m && i <= j) || (n && !m)
    ensures -20456 <= Entry(i, n) <= 20456 && -20456 <= Entry(j, m) <= 20456
    ensures Dequantised(det, Entry(i, n)) <= Dequantised(det, Entry(j, m))
  {
    hide Dequantised, Entry, Output;
    ValueAt(det, i, n);
    ValueAt(det, j, m);
    OutputsGrow(i, i);
    OutputsGrow(j, j);
    if n && m {
      OutputsGrow(j, i);
      ProductGrows(det as int, Output(j), Output(i));
    } else if !n {
      OutputsGrow(i, j);
      ProductGrows(det as int, Output(i), Output(j));
    } else {
      ProductGrows(det as int, 0, Output(i));
      ProductGrows(det as int, 0, Output(j));
    }
  }

  /** A larger difference never gives a smaller value at the receiver. */
  lemma LowCodeIsMonotone(b: Band, signal: int32, larger: int32)
    requires LowOk(b) && -32768 <= signal <= larger <= 32767
    ensures 0 <= b.det <= 16384
    ensures -20456 <= QM4[LowCode(b, signal) / 4] <= 20456 && -20456 <= QM4[LowCode(b, larger) / 4] <= 20456
    ensures Dequantised(b.det, QM4[LowCode(b, signal) / 4]) <= Dequantised(b.det, QM4[LowCode(b, larger) / 4])
  {
    var e, f := Difference(b, signal), Difference(b, larger);
    assert e <= f by {
      StateRange(b);
      hide LowOk;
    }
    hide LowOk, LowCode, Dequantised, CellOf, Entry, Difference;
    LowEntry(b, signal);
    LowEntry(b, larger);
    CellsGrow(e, f, b.det);
    ValuesGrow(b.det, CellOf(e, b.det), e < 0, CellOf(f, b.det), f < 0);
  }

  // ---- The high band's quantiser ----

  /** The high band's code tells the sign and whether the magnitude reaches
      the one threshold; the receiver's value has that sign and lies on the same
      side of the threshold. */
  lemma HighCodeDescribes(b: Band, signal: int32)
    requires HighOk(b) && -32768 <= signal <= 32767
    ensures 0 <= b.det <= 16384 && -20456 <= QM2[HighCode(b, signal)] <= 20456
    ensures var e, code := Difference(b, signal) as int, HighCode(b, signal);
            var size, limit := if e < 0 then -e - 1 else e, 564 * b.det as int / 4096;
            var d := Dequantised(b.det, QM2[code]) as int;
            && code == (if e < 0 then (if size < limit then 1 else 0) else if size < limit then 3 else 2)
            && (e < 0 ==> d <= 0) && (e >= 0 ==> d >= 0)
            && (size < limit ==> 0 <= (if e < 0 then -d else d) <= limit)
            && (size >= limit ==> limit <= if e < 0 then -d else d)
  {
    TableRange(HighCode(b, signal));
    var det, e := b.det as int, Difference(b, signal);
    var code := HighCode(b, signal);
    hide Scale;
    DequantisedIs(b.det, QM2[code]);
    hide Dequantised;
    ScaledBy(det, 0, 1616, 564);
    ScaledBy(det, 564, 7408, 926);
    SmallStep(det);
    assert det * QM2[code] as int == if code == 0 then det * -7408 else if code == 1 then det * -1616
                                     else if code == 2 then det * 7408 else det * 1616;
  }

  lemma SmallStep(det: int)
    requires 8 <= det
    ensures -(det * -1616 / 32768) <= 564 * det / 4096
  {
    assert det * -1616 == -(1616 * det);
  }

  // ---- The filter ----

  function CoefficientSum(odd: bool, i: nat): int
    requires i <= 12
  {
    if i == 0 then 0 else CoefficientSum(odd, i - 1) + Coefficient(odd, i - 1) as int
  }

  lemma CoefficientTotal()
    ensures CoefficientSum(false, 12) == 4096 && CoefficientSum(true, 12) == 4096
  {
    assert CoefficientSum(false, 4) == 36 && CoefficientSum(true, 4) == 248;
    assert CoefficientSum(false, 8) == 3848 && CoefficientSum(true, 8) == 4060;
  }

  lemma {:induction false} ConstantSum(x: seq<int32>, c: int32, odd: bool, i: nat)
    requires |x| == 24 && All16(x) && i <= 12 && forall j :: 0 <= j < 24 ==> x[j] == c
    ensures FilterSum(x, odd, i) as int == c as int * CoefficientSum(odd, i)
  {
    hide Product, FilterSum, Mass, Coefficient;
    if i > 0 {
      ConstantSum(x, c, odd, i - 1);
      FilterStep(x, odd, i - 1);
      assert x[2 * (i - 1) + if odd then 1 else 0] == c;
      ProductIs(c, Coefficient(odd, i - 1));
      Distributes(c as int, CoefficientSum(odd, i - 1), Coefficient(odd, i - 1) as int);
    } else {
      FilterStarts(x, odd);
    }
  }

  lemma Distributes(c: int, x: int, y: int)
    ensures c * (x + y) == c * x + c * y
  {
  }

  lemma ProductIs(v: int32, c: int32)
    requires -32768 <= v <= 32767 && -32768 <= c <= 32767
    ensures Product(v, c) as int == v as int * c as int
  {
    ProductBound(v as int, c as int, 32768, 32768);
  }

  lemma FilterStarts(x: seq<int32>, odd: bool)
    requires |x| == 24 && All16(x)
    ensures FilterSum(x, odd, 0) == 0
  {
  }

  /** Both half-bands from the two sums of the filter. */
  lemma SignalsAre(x: seq<int32>)
    requires |x| == 24 && All16(x)
    ensures LowSignal(x) as int == (FilterSum(x, true, 12) as int + FilterSum(x, false, 12) as int) / 16384
    ensures HighSignal(x) as int == (FilterSum(x, true, 12) as int - FilterSum(x, false, 12) as int) / 16384
  {
    hide FilterSum, Mass;
    MassBound(false, 12);
    MassBound(true, 12);
  }

  /** A constant signal is all in the low band, at half its value. */
  lemma ConstantSignal(x: seq<int32>, c: int32)
    requires |x| == 24 && All16(x) && forall j :: 0 <= j < 24 ==> x[j] == c
    ensures LowSignal(x) as int == c as int / 2 && HighSignal(x) == 0
  {
    hide FilterSum, CoefficientSum, LowSignal, HighSignal;
    ConstantSum(x, c, false, 12);
    ConstantSum(x, c, true, 12);
    CoefficientTotal();
    SignalsAre(x);
  }

  /** The filter's response at place `j`, a filter of 24 taps that is the same
      from both ends. */
  function Response(j: int): int
    requires 0 <= j < 24
  {
    if j % 2 == 0 then QMF[j / 2] as int else QMF[11 - j / 2] as int
  }

  lemma ResponseIs(j: int)
    requires 0 <= j < 24
    ensures Response(j) == Coefficient(j % 2 == 1, j / 2) as int
  {
  }

  lemma ResponseIsSymmetric(j: int)
    requires 0 <= j < 24
    ensures Response(j) == Response(23 - j)
  {
  }

  predicate IsImpulse(x: seq<int32>, j: int, v: int32) {
    |x| == 24 && 0 <= j < 24 && forall k :: 0 <= k < 24 ==> x[k] == if k == j then v else 0
  }

  lemma {:induction false} ImpulseSum(x: seq<int32>, j: int, v: int32, odd: bool, i: nat)
    requires IsImpulse(x, j, v) && All16(x) && i <= 12
    ensures FilterSum(x, odd, i) as int ==
            if (j % 2 == 1) == odd && j / 2 < i then v as int * Coefficient(odd, j / 2) as int else 0
  {
    hide Product, FilterSum, Mass, Coefficient;
    if i > 0 {
      ImpulseSum(x, j, v, odd, i - 1);
      FilterStep(x, odd, i - 1);
      var k := 2 * (i - 1) + if odd then 1 else 0;
      ProductIs(x[k], Coefficient(odd, i - 1));
      assert k == j <==> (j % 2 == 1) == odd && j / 2 == i - 1;
    } else {
      FilterStarts(x, odd);
    }
  }

  /** A unit impulse at place `j` comes out as the response there: with its own
      sign in the low band, with alternating signs in the high band. */
  lemma ImpulseResponse(x: seq<int32>, j: int)
    requires IsImpulse(x, j, 16384) && All16(x)
    ensures LowSignal(x) as int == Response(j)
    ensures HighSignal(x) as int == if j % 2 == 1 then Response(j) else -Response(j)
  {
    assert |x| == 24 && 0 <= j < 24;
    hide FilterSum, LowSignal, HighSignal, IsImpulse, All16, QMF, Response, Coefficient;
    ImpulseSum(x, j, 16384, false, 12);
    ImpulseSum(x, j, 16384, true, 12);
    SignalsAre(x);
    ResponseIs(j);
  }

  // ---- The predictor ----

  /** The sign of a value as the standard has it. */
  function Sgn(x: int32): int {
    if x >= 0 then 1 else -1
  }

  predicate IsClamped(r: int, w: int, bound: int) {
    r == if w > bound then bound else if w < -bound then -bound else w
  }

  /** The second pole: in units of 2^-14, 127/128 of the old one, plus the
      product of the signs of p(n) and p(n-2) at 2^-7, minus that of p(n) and
      p(n-1) at 2^-7 times four times the first pole (at most 2), rounded down
      and kept to 3/4. */
  lemma SecondPoleFollowsStandard(b: Band, p0: int32) returns (w: int)
    requires PredictorOk(b) && -32768 <= p0 <= 32767
    ensures var four := Saturate(4 * b.a[1]) as int;
            var exact := 127 * b.a[2] as int + 128 * 128 * Sgn(p0) * Sgn(b.p[2]) - four * Sgn(p0) * Sgn(b.p[1]);
            exact - 257 <= 128 * w <= exact + 1
    ensures IsClamped(NextPole2(b, p0) as int, w, 12288)
  {
    var w1 := Saturate(b.a[1] * 4);
    var w2 := if Sign(p0) == Sign(b.p[1]) then -w1 else w1;
    var w2' := if w2 > 32767 then 32767 else w2;
    w := (w2' / 128 + (if Sign(p0) == Sign(b.p[2]) then 128 else -128) + b.a[2] * 32512 / 32768) as int;
    assert b.a[2] as int * 32512 / 32768 == b.a[2] as int * 127 / 128;
  }

  /** The first pole: 255/256 of the old one plus three times 2^-8 with the sign
      of p(n) p(n-1), rounded down and kept to 15/16 less the second pole. */
  lemma FirstPoleFollowsStandard(b: Band, p0: int32, a2: int32) returns (w: int)
    requires PredictorOk(b) && -12288 <= a2 <= 12288 && -32768 <= p0 <= 32767
    ensures var exact := 255 * b.a[1] as int + 256 * 192 * Sgn(p0) * Sgn(b.p[1]); exact - 256 < 256 * w <= exact
    ensures IsClamped(NextPole1(b, p0, a2) as int, w, 15360 - a2 as int)
  {
    w := (if Sign(p0) == Sign(b.p[1]) then 192 else -192) + b.a[1] as int * 32640 / 32768;
    assert b.a[1] as int * 32640 / 32768 == b.a[1] as int * 255 / 256;
  }

  /** A zero: 255/256 of the old one plus 2^-7 with the sign of d(n) d(n-i), or
      nothing when d(n) is zero, rounded down. */
  lemma ZeroFollowsStandard(b: Band, d: int32, i: int)
    requires PredictorOk(b) && -32768 <= d <= 32767 && 1 <= i <= 6
    ensures var exact := 255 * b.b[i] as int + if d == 0 then 0 else 256 * 128 * Sgn(d) * Sgn(b.d[i]);
            exact - 256 < 256 * NextZero(b, d, i) as int <= exact
            || NextZero(b, d, i) == 32767 || NextZero(b, d, i) == -32768
    ensures NextZeros(b, d)[i] == NextZero(b, d, i)
  {
    assert b.b[i] as int * 32640 / 32768 == b.b[i] as int * 255 / 256;
  }

  /** Every line moves by one: what was new is one old, and the new values are
      the quantised difference and the two reconstructed signals. */
  lemma LinesMove(b: Band, d: int32)
    requires PredictorOk(b) && -32768 <= d <= 32767
    ensures var b' := Predicted(b, d);
            && b'.d[1] == d && (forall i :: 2 <= i <= 6 ==> b'.d[i] == b.d[i - 1])
            && b'.r[1] == Saturate(b.s + d) && b'.r[2] == b.r[1]
            && b'.p[1] == Saturate(b.sz + d) && b'.p[2] == b.p[1]
            && b'.a[2] == NextPole2(b, b'.p[1]) && b'.a[1] == NextPole1(b, b'.p[1], b'.a[2])
            && (forall i :: 1 <= i <= 6 ==> b'.b[i] == NextZero(b, d, i))
  {
    hide NextPole1, NextPole2, NextZero, PolePart, ZeroPart;
  }

  function BandAfter(b: Band, ds: seq<int16>): (b': Band)
    requires PredictorOk(b)
    ensures PredictorOk(b')
  {
    if ds == [] then b else Predicted(BandAfter(b, ds[..|ds| - 1]), ds[|ds| - 1])
  }

  /** After any differences the line holds the last six of them in order. */
  lemma {:induction false} LineHoldsHistory(b: Band, ds: seq<int16>, j: int)
    requires PredictorOk(b) && 1 <= j <= 6 && j <= |ds|
    ensures |BandAfter(b, ds).d| == 7 && BandAfter(b, ds).d[j] == ds[|ds| - j]
  {
    hide Predicted, PredictorOk;
    var init := ds[..|ds| - 1];
    LineMoves(BandAfter(b, init), ds[|ds| - 1]);
    LineMoves(b, ds[|ds| - 1]);
    if j > 1 {
      LineHoldsHistory(b, init, j - 1);
    }
  }

  lemma LineMoves(b: Band, d: int32)
    requires PredictorOk(b) && -32768 <= d <= 32767
    ensures |b.d| == 7 && |Predicted(b, d).d| == 7
    ensures Predicted(b, d).d[1] == d && forall i :: 2 <= i <= 6 ==> Predicted(b, d).d[i] == b.d[i - 1]
  {
    LinesMove(b, d);
    hide Predicted;
  }

  lemma TapIs(c: int32, v: int32)
    requires -32768 <= c <= 32767 && -16384 <= v <= 16383
    ensures Tap(c, v) as int == c as int * v as int / 16384
  {
    ProductBound(c as int, (2 * v) as int, 32768, 32768);
    assert c as int * (2 * v) as int == 2 * (c as int * v as int);
  }

  /** The prediction from the poles is the sum of the products of coefficients
      and reconstructed signals, each rounded down, kept to 16 bits. */
  lemma PolePrediction(b: Band, d: int32) returns (t: int)
    requires PredictorOk(b) && -32768 <= d <= 32767
    requires var b' := Predicted(b, d); -16384 <= b'.r[1] <= 16383 && -16384 <= b'.r[2] <= 16383
    ensures var b' := Predicted(b, d);
            var exact := b'.a[1] as int * b'.r[1] as int + b'.a[2] as int * b'.r[2] as int;
            exact - 2 * 16384 < 16384 * t <= exact && IsClamped16(b'.sp as int, t)
  {
    LinesMove(b, d);
    var b' := Predicted(b, d);
    assert b'.sp == PolePart(b'.a[1], b'.a[2], b'.r[1], b'.r[2]);
    hide Predicted;
    TapIs(b'.a[1], b'.r[1]);
    TapIs(b'.a[2], b'.r[2]);
    hide Tap;
    t := Tap(b'.a[1], b'.r[1]) as int + Tap(b'.a[2], b'.r[2]) as int;
  }

  predicate IsClamped16(r: int, w: int) {
    r == if w > 32767 then 32767 else if w < -32768 then -32768 else w
  }

  function ExactZeros(b: seq<int32>, d: seq<int32>, i: int): int
    requires |b| == 7 && |d| == 7 && 0 <= i <= 6
    decreases 6 - i
  {
    if i == 6 then 0 else ExactZeros(b, d, i + 1) + b[i + 1] as int * d[i + 1] as int
  }

  lemma {:induction false} ZeroSumIs(b: seq<int32>, d: seq<int32>, i: int)
    requires |b| == 7 && |d| == 7 && All16(b) && 0 <= i <= 6 && forall j :: 0 <= j < 7 ==> -16384 <= d[j] <= 16383
    ensures All16(d)
    ensures var exact := ExactZeros(b, d, i); exact - (6 - i) * 16384 <= 16384 * ZeroSum(b, d, i) as int <= exact
    decreases 6 - i
  {
    hide Tap;
    if i < 6 {
      ZeroSumIs(b, d, i + 1);
      TapIs(b[i + 1], d[i + 1]);
    }
  }

  /** The prediction from the zeros, and the whole prediction, likewise. */
  lemma ZeroPrediction(b: Band, d: int32) returns (t: int)
    requires PredictorOk(b) && -32768 <= d <= 32767
    requires forall j :: 0 <= j < 7 ==> -16384 <= Predicted(b, d).d[j] <= 16383
    ensures var b' := Predicted(b, d);
            var exact := b'.b[1] as int * b'.d[1] as int + b'.b[2] as int * b'.d[2] as int + b'.b[3] as int * b'.d[3] as int
                         + b'.b[4] as int * b'.d[4] as int + b'.b[5] as int * b'.d[5] as int + b'.b[6] as int * b'.d[6] as int;
            exact - 6 * 16384 <= 16384 * t <= exact && IsClamped16(b'.sz as int, t)
    ensures IsClamped16(Predicted(b, d).s as int, Predicted(b, d).sp as int + Predicted(b, d).sz as int)
  {
    var b' := Predicted(b, d);
    assert b'.sz == ZeroPart(b'.b, b'.d) && b'.s == Saturate(b'.sp + b'.sz);
    hide Predicted, ZeroSum;
    ZeroSumIs(b'.b, b'.d, 0);
    SixProducts(b'.b, b'.d);
    t := ZeroSum(b'.b, b'.d, 0) as int;
  }

  lemma SixProducts(b: seq<int32>, d: seq<int32>)
    requires |b| == 7 && |d| == 7
    ensures ExactZeros(b, d, 0) ==
            b[1] as int * d[1] as int + b[2] as int * d[2] as int + b[3] as int * d[3] as int
            + b[4] as int * d[4] as int + b[5] as int * d[5] as int + b[6] as int * d[6] as int
  {
    assert ExactZeros(b, d, 4) == b[5] as int * d[5] as int + b[6] as int * d[6] as int;
    assert ExactZeros(b, d, 2) == ExactZeros(b, d, 4) + b[4] as int * d[4] as int + b[3] as int * d[3] as int;
  }

  // ---- The scale factor ----

  lemma {:induction false} HalvedAgain(x: int32, k: nat)
    requires 0 <= x && 0 < k
    ensures 2 * Halved(x, k) as int <= Halved(x, k - 1) as int <= 2 * Halved(x, k) as int + 1
  {
    if k > 1 {
      HalvedAgain(x / 2, k - 1);
    } else {
      assert Halved(x, 1) == Halved(x / 2, 0);
    }
  }

  lemma {:induction false} HalvedGrows(x: int32, y: int32, k: nat)
    requires 0 <= x <= y
    ensures Halved(x, k) <= Halved(y, k)
  {
    if k > 0 {
      HalvedGrows(x / 2, y / 2, k - 1);
    }
  }

  predicate IsLogarithm(nb: int32, shift: int32) {
    (shift == 8 && 0 <= nb <= LOW_LIMIT) || (shift == 10 && 0 <= nb <= HIGH_LIMIT)
  }

  function Mantissa(i: int32): (m: int32)
    requires 0 <= i < 32
    ensures 0 <= m
  {
    MantissaRange(i);
    ILB[i]
  }

  /** The scale factor from the octave and the mantissa of its logarithm. */
  lemma ScaleIs(nb: int32, shift: int32, octave: int, mantissa: int32)
    requires IsLogarithm(nb, shift) && octave == shift as int - nb as int / 2048 && mantissa == (nb / 64) % 32
    ensures 0 <= mantissa < 32 && 0 <= Mantissa(mantissa) && -1 <= octave <= 10 && (octave < 0 ==> Mantissa(mantissa) == 2048)
    ensures Scale(nb, shift) as int ==
            4 * if octave < 0 then 2 * Mantissa(mantissa) as int else Halved(Mantissa(mantissa), octave) as int
  {
    ScaleBound(nb, shift);
    hide Halved;
  }

  lemma NextOctave(nb: int32)
    requires 0 <= nb <= 22528
    ensures (nb + 2048) as int / 2048 == nb as int / 2048 + 1 && ((nb + 2048) / 64) % 32 == (nb / 64) % 32
  {
    assert (nb + 2048) / 64 == nb / 64 + 32;
  }

  /** 2048 more in the logarithm doubles the scale factor, up to rounding. */
  lemma ScaleDoubles(nb: int32, shift: int32)
    requires IsLogarithm(nb, shift) && IsLogarithm(nb + 2048, shift)
    ensures 2 * Scale(nb, shift) as int <= Scale(nb + 2048, shift) as int <= 2 * Scale(nb, shift) as int + 4
  {
    hide Halved, Mantissa, Scale;
    NextOctave(nb);
    var octave, mantissa := shift as int - nb as int / 2048, (nb / 64) % 32;
    ScaleIs(nb, shift, octave, mantissa);
    ScaleIs(nb + 2048, shift, octave - 1, mantissa);
    if octave > 0 {
      HalvedAgain(Mantissa(mantissa), octave);
    } else {
      HalvedNot(Mantissa(mantissa));
    }
  }

  lemma HalvedNot(m: int32)
    requires 0 <= m
    ensures Halved(m, 0) == m
  {
  }

  lemma MantissaGrows(i: int32, j: int32)
    requires 0 <= i <= j < 32
    ensures Mantissa(i) <= Mantissa(j)
  {
    if i < j {
      MantissaStep(i, j);
    }
  }

  lemma {:induction false} MantissaStep(i: int32, j: int32)
    requires 0 <= i < j < 32
    ensures Mantissa(i) < Mantissa(j)
    decreases (j - i) as int
  {
    if i + 1 < j {
      MantissaStep(i, j - 1);
    }
    MantissaNext(j - 1);
  }

  lemma MantissaNext(i: int32)
    requires 0 <= i < 31
    ensures Mantissa(i) < Mantissa(i + 1)
  {
  }

  /** Within an octave a larger logarithm never stands for a smaller factor. */
  lemma ScaleGrows(nb: int32, larger: int32, shift: int32)
    requires IsLogarithm(nb, shift) && IsLogarithm(larger, shift) && nb <= larger && larger / 2048 == nb / 2048
    ensures Scale(nb, shift) <= Scale(larger, shift)
  {
    hide Halved, Mantissa, Scale;
    SameOctave(nb, larger);
    var octave := shift as int - nb as int / 2048;
    ScaleIs(nb, shift, octave, (nb / 64) % 32);
    ScaleIs(larger, shift, octave, (larger / 64) % 32);
    MantissaGrows((nb / 64) % 32, (larger / 64) % 32);
    if octave >= 0 {
      HalvedGrows(Mantissa((nb / 64) % 32), Mantissa((larger / 64) % 32), octave);
    }
  }

  lemma SameOctave(nb: int32, larger: int32)
    requires 0 <= nb <= larger <= 22528 && larger / 2048 == nb / 2048
    ensures larger as int / 2048 == nb as int / 2048 && 0 <= (nb / 64) % 32 <= (larger / 64) % 32 < 32
  {
    assert nb / 64 <= larger / 64 && nb / 64 / 32 == nb / 2048 && larger / 64 / 32 == larger / 2048;
  }

  function Size(q: int32): int {
    if q < 0 then -(q as int) else q as int
  }

  /** The logarithm moves by the size of the receiver's value alone, and by
      more for larger ones. */
  lemma WeightsGrow(i: int32, j: int32)
    requires 0 <= i < 16 && 0 <= j < 16 && Size(QM4[i]) <= Size(QM4[j])
    ensures 0 <= RL42[i] <= 7 && 0 <= RL42[j] <= 7 && WL[RL42[i]] <= WL[RL42[j]]
  {
    LowWeight(i);
    LowWeight(j);
  }

  lemma LowWeight(i: int32)
    requires 0 <= i < 16
    ensures 0 <= RL42[i] <= 7
    ensures var size := Size(QM4[i]);
            WL[RL42[i]] as int ==
            if size == 0 then -60 else if size == 1200 then -30 else if size == 2584 then 58 else if size == 4240 then 172
            else if size == 6288 then 334 else if size == 8968 then 538 else if size == 12896 then 1198 else 3042
    ensures Size(QM4[i]) in {0, 1200, 2584, 4240, 6288, 8968, 12896, 20456}
  {
  }

  lemma HighWeight(i: int32)
    requires 0 <= i < 4
    ensures 1 <= RH2[i] <= 2 && WH[RH2[i]] as int == if Size(QM2[i]) == 1616 then -214 else 798
    ensures Size(QM2[i]) in {1616, 7408}
  {
  }

  /** One step of the low band: the difference is scaled by the old factor and
      enters the predictor, and the logarithm leaks by 1/128 and moves by the
      weight of the code, within its limits. */
  lemma LowStep(b: Band, code: int32) returns (w: int)
    requires LowOk(b) && 0 <= code < 64
    ensures PredictorOk(b) && 0 <= b.det <= 16384 && -20456 <= QM4[code / 4] <= 20456 && 0 <= RL42[code / 4] <= 7
    ensures var b', d := LowNext(b, code), Dequantised(b.det, QM4[code / 4]);
            && |b'.d| == 7 && b'.d[1] == d && |b'.r| == 3 && b'.r[1] == Saturate(b.s + d)
            && 127 * b.nb as int - 128 < 128 * (w - WL[RL42[code / 4]] as int) <= 127 * b.nb as int
            && b'.nb as int == (if w < 0 then 0 else if w > 18432 then 18432 else w)
  {
    TableRange(code / 4);
    var weight := WL[RL42[code / 4]];
    w := (b.nb * 127 / 128 + weight) as int;
    var b1 := Rescaled(b, weight, LOW_LIMIT, 8);
    LinesMove(b1, Dequantised(b.det, QM4[code / 4]));
    hide Predicted, Scale, Dequantised;
  }

  lemma HighStep(b: Band, code: int32) returns (w: int)
    requires HighOk(b) && 0 <= code < 4
    ensures PredictorOk(b) && 0 <= b.det <= 16384 && -20456 <= QM2[code] <= 20456 && 1 <= RH2[code] <= 2
    ensures var b', d := HighNext(b, code), Dequantised(b.det, QM2[code]);
            && |b'.d| == 7 && b'.d[1] == d && |b'.r| == 3 && b'.r[1] == Saturate(b.s + d)
            && 127 * b.nb as int - 128 < 128 * (w - WH[RH2[code]] as int) <= 127 * b.nb as int
            && b'.nb as int == (if w < 0 then 0 else if w > 22528 then 22528 else w)
  {
    TableRange(code);
    var weight := WH[RH2[code]];
    w := (b.nb * 127 / 128 + weight) as int;
    var b1 := Rescaled(b, weight, HIGH_LIMIT, 10);
    LinesMove(b1, Dequantised(b.det, QM2[code]));
    hide Predicted, Scale, Dequantised;
  }

  /** The byte of a pair: the low band's code in the low six bits, the high
      band's above, each of its own half-band of the last 24 samples. */
  lemma ByteOfPair(e: Encoder, first: int16, second: int16)
    requires EncoderOk(e)
    ensures var x := e.x[2..] + [first, second];
            && |x| == 24 && All16(x)
            && CodeOf(e, first, second) % 64 == LowCode(e.low, LowSignal(x))
            && CodeOf(e, first, second) / 64 == HighCode(e.high, HighSignal(x))
            && Next(e, first, second).x == x
  {
    UnpackedCode(e, first, second);
    hide LowCode, HighCode, LowSignal, HighSignal, LowNext, HighNext, LowOk, HighOk;
  }
}
