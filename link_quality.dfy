/**
 * Link quality reported by updateNodeLinkQuality: a raw signal metric mapped
 * affinely onto 0..100 and clamped. Before OpenZWave 1.6 the metric is the
 * node statistics' quality; with 1.6 it is the average of five RSSI readings.
 *
 * The 1.6 source keeps that average in an unsigned 8-bit variable, so every
 * reading wraps into 0..255 and the quality always comes out as 100
 * (LinkQualityAsWritten). The evidently intended signed average is AverageRssi,
 * and the rest of the model uses it.
 */
module LinkQuality {

  /** qMin(100, qMax(0, 2 * (signal + 100))) */
  function SignalQuality(signal: int): (q: int)
    ensures 0 <= q <= 100
    ensures signal <= -100 ==> q == 0
    ensures signal >= -50 ==> q == 100
    ensures -100 <= signal <= -50 ==> q == 2 * (signal + 100)
  {
    var raw := 2 * (signal + 100);
    if raw < 0 then 0 else if raw > 100 then 100 else raw
  }

  lemma SignalQualityMonotone(a: int, b: int)
    requires a <= b
    ensures SignalQuality(a) <= SignalQuality(b)
  {
  }

  /** One of the five RSSI strings of OpenZWave 1.6's node statistics, as parsed. */
  datatype RssiReading =
    | RssiMax                 // "MAX"
    | RssiMin                 // "MIN"
    | RssiDbm(dbm: int)       // a string QString::toInt accepts
    | RssiUnreadable          // a string QString::toInt rejects

  /** The node statistics updateNodeLinkQuality reads. */
  datatype NodeStatistics = NodeStatistics(quality: int, rssi: seq<RssiReading>)

  // ---------------------------------------------------------------------------
  // As written: quint8 arithmetic.

  /** The value a quint8 holds after an assignment of x. */
  function Wrap8(x: int): (r: int)
    ensures 0 <= r < 256
    ensures 0 <= x < 256 ==> r == x
  {
    x % 256
  }

  /**
   * The 1.6 branch of updateNodeLinkQuality exactly as written, with avg and
   * count of type quint8: whatever the readings, the quality is 100.
   */
  method LinkQualityAsWritten(rs: seq<RssiReading>) returns (quality: int)
    ensures quality == 100
  {
    var avg := 0;
    var count := 0;
    for i := 0 to |rs|
      invariant 0 <= avg < 256
      invariant 0 <= count < 256
    {
      match rs[i]
      case RssiMax =>
        avg := Wrap8(avg + -50);
        count := Wrap8(count + 1);
      case RssiMin =>
        avg := Wrap8(avg + -100);
        count := Wrap8(count + 1);
      case RssiDbm(v) =>
        var val := Wrap8(v);
        avg := Wrap8(avg + val);
        count := Wrap8(count + 1);
      case RssiUnreadable =>
    }
    if count > 0 {
      avg := Wrap8(avg / count);
    } else {
      avg := Wrap8(-76);
    }
    quality := SignalQuality(avg);
  }

  // ---------------------------------------------------------------------------
  // As intended: a signed average in dBm.

  predicate Counted(r: RssiReading) {
    !r.RssiUnreadable?
  }

  /** The dBm a reading contributes: MAX is -50, MIN is -100. */
  function Contribution(r: RssiReading): int {
    match r
    case RssiMax => -50
    case RssiMin => -100
    case RssiDbm(v) => v
    case RssiUnreadable => 0
  }

  function RssiSum(rs: seq<RssiReading>): int
    decreases |rs|
  {
    if rs == [] then 0 else RssiSum(rs[..|rs| - 1]) + Contribution(rs[|rs| - 1])
  }

  function RssiCount(rs: seq<RssiReading>): nat
    decreases |rs|
  {
    if rs == [] then 0
    else RssiCount(rs[..|rs| - 1]) + (if Counted(rs[|rs| - 1]) then 1 else 0)
  }

  /** C++ integer division, which truncates toward zero. */
  function TruncDiv(a: int, b: int): int
    requires b > 0
  {
    if a >= 0 then a / b else -((-a) / b)
  }

  /** The mean of the readings that parse, or -76 dBm when none does. */
  function MeanRssi(rs: seq<RssiReading>): int {
    if RssiCount(rs) == 0 then -76 else TruncDiv(RssiSum(rs), RssiCount(rs))
  }

  /** The averaging loop of the 1.6 branch with a signed accumulator. */
  method AverageRssi(rs: seq<RssiReading>) returns (avg: int)
    ensures avg == MeanRssi(rs)
  {
    var sum := 0;
    var count := 0;
    for i := 0 to |rs|
      invariant sum == RssiSum(rs[..i])
      invariant count == RssiCount(rs[..i])
    {
      assert rs[..i + 1][..i] == rs[..i];
      match rs[i]
      case RssiMax =>
        sum := sum + -50;
        count := count + 1;
      case RssiMin =>
        sum := sum + -100;
        count := count + 1;
      case RssiDbm(v) =>
        sum := sum + v;
        count := count + 1;
      case RssiUnreadable =>
    }
    assert rs[..|rs|] == rs;
    if count > 0 {
      avg := TruncDiv(sum, count);
    } else {
      avg := -76;
    }
  }

  /** Link quality of a node: the 1.6 RSSI average, or the pre-1.6 quality figure. */
  function LinkQualityOf(ozw16: bool, stats: NodeStatistics): (q: int)
    ensures 0 <= q <= 100
  {
    if ozw16 then SignalQuality(MeanRssi(stats.rssi)) else SignalQuality(stats.quality)
  }

  lemma {:induction false} SumBetween(rs: seq<RssiReading>, lo: int, hi: int)
    requires forall i :: 0 <= i < |rs| && Counted(rs[i]) ==> lo <= Contribution(rs[i]) <= hi
    ensures RssiCount(rs) * lo <= RssiSum(rs) <= RssiCount(rs) * hi
    decreases |rs|
  {
    if rs != [] {
      var init := rs[..|rs| - 1];
      assert forall i :: 0 <= i < |init| ==> init[i] == rs[i];
      SumBetween(init, lo, hi);
      if Counted(rs[|rs| - 1]) {
        assert RssiCount(rs) * lo == RssiCount(init) * lo + lo;
        assert RssiCount(rs) * hi == RssiCount(init) * hi + hi;
      }
    }
  }

  lemma FloorDivBetween(s: int, c: int, lo: int, hi: int)
    requires c > 0 && c * lo <= s <= c * hi
    ensures lo <= s / c <= hi
  {
    var q := s / c;
    var r := s % c;
    assert s == c * q + r && 0 <= r < c;
    assert c * (hi + 1) == c * hi + c;
    MulCancel(c, q, hi);
    assert c * (q + 1) == c * q + c;
    MulCancel(c, lo, q);
  }

  /** Cancelling a positive factor: c * a < c * (b + 1) gives a <= b. */
  lemma MulCancel(c: int, a: int, b: int)
    requires c > 0 && c * a < c * (b + 1)
    ensures a <= b
  {
    assert c * (b + 1 - a) > 0;
  }

  lemma TruncDivBetween(s: int, c: int, lo: int, hi: int)
    requires c > 0 && c * lo <= s <= c * hi
    ensures lo <= TruncDiv(s, c) <= hi
  {
    if s >= 0 {
      FloorDivBetween(s, c, lo, hi);
    } else {
      FloorDivBetween(-s, c, -hi, -lo);
    }
  }

  /** The average lies between the least and the greatest reading that parses. */
  lemma MeanWithinReadings(rs: seq<RssiReading>, lo: int, hi: int)
    requires RssiCount(rs) > 0
    requires forall i :: 0 <= i < |rs| && Counted(rs[i]) ==> lo <= Contribution(rs[i]) <= hi
    ensures lo <= MeanRssi(rs) <= hi
  {
    SumBetween(rs, lo, hi);
    TruncDivBetween(RssiSum(rs), RssiCount(rs), lo, hi);
  }

  /** A lower bound on every reading's contribution. */
  function LowestContribution(rs: seq<RssiReading>): (r: int)
    ensures forall i :: 0 <= i < |rs| ==> r <= Contribution(rs[i])
    decreases |rs|
  {
    if rs == [] then 0
    else
      var rest := LowestContribution(rs[1..]);
      assert forall i :: 1 <= i < |rs| ==> rs[i] == rs[1..][i - 1];
      if Contribution(rs[0]) < rest then Contribution(rs[0]) else rest
  }

  /** An upper bound on every reading's contribution. */
  function HighestContribution(rs: seq<RssiReading>): (r: int)
    ensures forall i :: 0 <= i < |rs| ==> Contribution(rs[i]) <= r
    decreases |rs|
  {
    if rs == [] then 0
    else
      var rest := HighestContribution(rs[1..]);
      assert forall i :: 1 <= i < |rs| ==> rs[i] == rs[1..][i - 1];
      if Contribution(rs[0]) > rest then Contribution(rs[0]) else rest
  }

  /** Readings all at MIN (or weaker) give quality 0; all at MAX (or stronger) give 100. */
  lemma LinkQualityExtremes(rs: seq<RssiReading>)
    requires RssiCount(rs) > 0
    ensures (forall i :: 0 <= i < |rs| && Counted(rs[i]) ==> Contribution(rs[i]) <= -100) ==>
      SignalQuality(MeanRssi(rs)) == 0
    ensures (forall i :: 0 <= i < |rs| && Counted(rs[i]) ==> Contribution(rs[i]) >= -50) ==>
      SignalQuality(MeanRssi(rs)) == 100
  {
    if forall i :: 0 <= i < |rs| && Counted(rs[i]) ==> Contribution(rs[i]) <= -100 {
      MeanWithinReadings(rs, LowestContribution(rs), -100);
    }
    if forall i :: 0 <= i < |rs| && Counted(rs[i]) ==> Contribution(rs[i]) >= -50 {
      MeanWithinReadings(rs, -50, HighestContribution(rs));
    }
  }

  /** Five MIN readings: the intended quality is 0, where LinkQualityAsWritten gives 100. */
  lemma AllMinReadingsGiveZero()
    ensures SignalQuality(MeanRssi([RssiMin, RssiMin, RssiMin, RssiMin, RssiMin])) == 0
  {
    var rs := [RssiMin, RssiMin, RssiMin, RssiMin, RssiMin];
    assert RssiCount(rs) > 0;
    LinkQualityExtremes(rs);
  }
}
