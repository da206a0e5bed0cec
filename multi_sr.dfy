/** The MultiSupportResistance indicator: the three highest highs (resistances) and the
    three lowest lows (supports) of the last `period` bars. */
module MultiSupportResistance {

  import opened Bars
  import opened Wrappers
  import opened Sorting

  const DefaultPeriod: nat := 80

  /** The six output lines on the current bar; a missing level is NaN (None). */
  datatype Levels = Levels(
    resistance1: Option<real>, resistance2: Option<real>, resistance3: Option<real>,
    support1: Option<real>, support2: Option<real>, support3: Option<real>)

  function Min(a: nat, b: nat): nat { if a <= b then a else b }

  /** The highs of the last `count` bars, current bar first. */
  function RecentHighs(bars: seq<Bar>, count: nat): (w: seq<real>)
    requires count <= |bars|
    ensures |w| == count
    ensures forall i :: 0 <= i < count ==> w[i] == Ago(bars, i).high
  {
    seq(count, i requires 0 <= i < count => Ago(bars, i).high)
  }

  /** The lows of the last `count` bars, current bar first. */
  function RecentLows(bars: seq<Bar>, count: nat): (w: seq<real>)
    requires count <= |bars|
    ensures |w| == count
    ensures forall i :: 0 <= i < count ==> w[i] == Ago(bars, i).low
  {
    seq(count, i requires 0 <= i < count => Ago(bars, i).low)
  }

  /** Position `k` of a sorted sequence, or NaN when it is too short. */
  function Slot(sorted: seq<real>, k: nat): (v: Option<real>)
    ensures v.Some? <==> k < |sorted|
    ensures v.Some? ==> v.value == sorted[k]
  {
    if k < |sorted| then Some(sorted[k]) else None
  }

  /** Number of bars the indicator looks at: the period, or fewer if fewer exist. */
  function Available(bars: seq<Bar>, period: nat): nat
  {
    Min(|bars|, period)
  }

  function SortedHighs(bars: seq<Bar>, period: nat): seq<real>
  {
    Sort(RecentHighs(bars, Available(bars, period)), true)
  }

  function SortedLows(bars: seq<Bar>, period: nat): seq<real>
  {
    Sort(RecentLows(bars, Available(bars, period)), false)
  }

  /** The indicator's value: undefined (None) until `period` bars have been seen. */
  function MultiLevels(bars: seq<Bar>, period: nat): (o: Option<Levels>)
    ensures o.None? <==> |bars| < period
  {
    if |bars| < period then None
    else
      var highs, lows := SortedHighs(bars, period), SortedLows(bars, period);
      Some(Levels(Slot(highs, 0), Slot(highs, 1), Slot(highs, 2),
                  Slot(lows, 0), Slot(lows, 1), Slot(lows, 2)))
  }

  /** Once defined, the indicator always looks at exactly `period` bars, and level k
      (k = 1, 2, 3) is defined exactly when the period holds at least k bars. */
  lemma Definedness(bars: seq<Bar>, period: nat)
    requires |bars| >= period
    ensures Available(bars, period) == period
    ensures var o := MultiLevels(bars, period).value;
      && (o.resistance1.Some? <==> period >= 1) && (o.support1.Some? <==> period >= 1)
      && (o.resistance2.Some? <==> period >= 2) && (o.support2.Some? <==> period >= 2)
      && (o.resistance3.Some? <==> period >= 3) && (o.support3.Some? <==> period >= 3)
  {
  }

  /** Resistances come out strongest first, supports lowest first: each defined level is
      preceded by a defined level on its correct side. */
  lemma LevelsOrdered(bars: seq<Bar>, period: nat)
    requires |bars| >= period
    ensures var o := MultiLevels(bars, period).value;
      && (o.resistance2.Some? ==> o.resistance1.Some? && o.resistance1.value >= o.resistance2.value)
      && (o.resistance3.Some? ==> o.resistance2.Some? && o.resistance2.value >= o.resistance3.value)
      && (o.support2.Some? ==> o.support1.Some? && o.support1.value <= o.support2.value)
      && (o.support3.Some? ==> o.support2.Some? && o.support2.value <= o.support3.value)
  {
    var highs, lows := SortedHighs(bars, period), SortedLows(bars, period);
    if |highs| >= 2 {
      assert InOrder(highs[0], highs[1], true);
    }
    if |highs| >= 3 {
      assert InOrder(highs[1], highs[2], true);
    }
    if |lows| >= 2 {
      assert InOrder(lows[0], lows[1], false);
    }
    if |lows| >= 3 {
      assert InOrder(lows[1], lows[2], false);
    }
  }

  /** With the default period the levels are undefined before the 80th bar. */
  lemma DefaultWarmUp(bars: seq<Bar>)
    ensures MultiLevels(bars, DefaultPeriod).None? <==> |bars| < 80
  {
  }

  /** The first resistance is the highest high of the window and the first support its
      lowest low. */
  lemma ExtremeLevels(bars: seq<Bar>, period: nat)
    requires |bars| >= period >= 1
    ensures var o := MultiLevels(bars, period).value;
      && (exists i :: 0 <= i < period && o.resistance1.value == Ago(bars, i).high)
      && (forall i :: 0 <= i < period ==> Ago(bars, i).high <= o.resistance1.value)
      && (exists i :: 0 <= i < period && o.support1.value == Ago(bars, i).low)
      && (forall i :: 0 <= i < period ==> o.support1.value <= Ago(bars, i).low)
  {
    HighestHigh(bars, period);
    LowestLow(bars, period);
  }

  /** The head of the sorted highs is the highest high of the window, attained by a bar. */
  lemma HighestHigh(bars: seq<Bar>, period: nat)
    requires |bars| >= period >= 1
    ensures |SortedHighs(bars, period)| == period
    ensures exists i :: 0 <= i < period && SortedHighs(bars, period)[0] == Ago(bars, i).high
    ensures forall i :: 0 <= i < period ==> Ago(bars, i).high <= SortedHighs(bars, period)[0]
  {
    var hs := RecentHighs(bars, period);
    assert Available(bars, period) == period;
    HeadIsExtreme(hs, true);
    var top := Sort(hs, true)[0];
    var k :| 0 <= k < |hs| && hs[k] == top;
    forall i | 0 <= i < period ensures Ago(bars, i).high <= top {
      assert hs[i] in hs;
    }
  }

  /** The head of the sorted lows is the lowest low of the window, attained by a bar. */
  lemma LowestLow(bars: seq<Bar>, period: nat)
    requires |bars| >= period >= 1
    ensures |SortedLows(bars, period)| == period
    ensures exists i :: 0 <= i < period && SortedLows(bars, period)[0] == Ago(bars, i).low
    ensures forall i :: 0 <= i < period ==> SortedLows(bars, period)[0] <= Ago(bars, i).low
  {
    var ls := RecentLows(bars, period);
    assert Available(bars, period) == period;
    HeadIsExtreme(ls, false);
    var bottom := Sort(ls, false)[0];
    var k :| 0 <= k < |ls| && ls[k] == bottom;
    forall i | 0 <= i < period ensures bottom <= Ago(bars, i).low {
      assert ls[i] in ls;
    }
  }

  /** Every defined level is the high (resistances) or the low (supports) of one of the
      last `period` bars. */
  lemma LevelsFromWindow(bars: seq<Bar>, period: nat, k: nat)
    requires |bars| >= period && k < 3
    ensures var highs, lows := SortedHighs(bars, period), SortedLows(bars, period);
      && (Slot(highs, k).Some? ==> exists i :: 0 <= i < period && Slot(highs, k).value == Ago(bars, i).high)
      && (Slot(lows, k).Some? ==> exists i :: 0 <= i < period && Slot(lows, k).value == Ago(bars, i).low)
  {
    if k < period {
      ElementsFromInput(RecentHighs(bars, period), true, k);
      ElementsFromInput(RecentLows(bars, period), false, k);
    }
  }
}
