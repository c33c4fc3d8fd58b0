/** The rolling tick window (`StrategyData`): nine parallel series with a
    fixed capacity, evicted oldest-first and always in lock-step. */
module StrategyWindow {
  import opened Basics

  /** One book-ticker event: best bid and best ask with their quantities. */
  datatype Tick = Tick(transactionTime: nat, bestBid: real, bestBidQty: real, bestAsk: real, bestAskQty: real)

  /** Size-weighted mid price. */
  function Wap(t: Tick): real
    requires t.bestBidQty + t.bestAskQty != 0.0
  {
    (t.bestBid * t.bestAskQty + t.bestAsk * t.bestBidQty) / (t.bestBidQty + t.bestAskQty)
  }

  /** Order-book imbalance: the bid side's share of the quoted quantity. */
  function Imb(t: Tick): real
    requires t.bestBidQty + t.bestAskQty != 0.0
  {
    t.bestBidQty / (t.bestBidQty + t.bestAskQty)
  }

  /** A tick the window can absorb: its weighted mid is defined and nonzero,
      so it may serve as the divisor of later turnover values. */
  predicate WellFormed(t: Tick)
  {
    t.bestBidQty + t.bestAskQty != 0.0 && Wap(t) != 0.0
  }

  /** Turnover proxy of a new observation, measured against the oldest
      resident weighted mid. */
  function Turnover(wap: real, frontWap: real, spread: real): real
    requires wap != 0.0 && frontWap != 0.0
  {
    Abs(wap / frontWap - 1.0) + spread / wap
  }

  /** With non-negative quantities the weighted mid lies inside the quoted
      spread, and with equal quantities it is the plain mid. */
  lemma WapWithinSpread(t: Tick)
    requires 0.0 <= t.bestBidQty && 0.0 <= t.bestAskQty && t.bestBidQty + t.bestAskQty != 0.0
    ensures t.bestBid <= t.bestAsk ==> t.bestBid <= Wap(t) <= t.bestAsk
    ensures t.bestBidQty == t.bestAskQty ==> Wap(t) == (t.bestBid + t.bestAsk) / 2.0
  {
    var total := t.bestBidQty + t.bestAskQty;
    var w := Wap(t);
    var spread := t.bestAsk - t.bestBid;
    assert w * total == t.bestBid * t.bestAskQty + t.bestAsk * t.bestBidQty;
    assert (w - t.bestBid) * total == spread * t.bestBidQty;
    assert (t.bestAsk - w) * total == spread * t.bestAskQty;
    if t.bestBid <= t.bestAsk {
      assert 0.0 <= spread * t.bestBidQty;
      assert 0.0 <= spread * t.bestAskQty;
      PositiveFactor(w - t.bestBid, total);
      PositiveFactor(t.bestAsk - w, total);
    }
    if t.bestBidQty == t.bestAskQty {
      assert w * (2.0 * t.bestBidQty) == (t.bestBid + t.bestAsk) * t.bestBidQty;
    }
  }

  /** A product with a positive factor is non-negative only if the other one is. */
  lemma PositiveFactor(x: real, y: real)
    requires 0.0 < y && 0.0 <= x * y
    ensures 0.0 <= x
  {
  }

  /** With non-negative quantities the imbalance is a share in [0, 1]. */
  lemma ImbIsShare(t: Tick)
    requires 0.0 <= t.bestBidQty && 0.0 <= t.bestAskQty && t.bestBidQty + t.bestAskQty != 0.0
    ensures 0.0 <= Imb(t) <= 1.0
  {
    var total := t.bestBidQty + t.bestAskQty;
    assert Imb(t) * total == t.bestBidQty;
    assert (1.0 - Imb(t)) * total == t.bestAskQty;
    PositiveFactor(Imb(t), total);
    PositiveFactor(1.0 - Imb(t), total);
  }

  /** Measured against itself, the first turnover term is 0; with a
      non-negative spread and a positive mid the turnover is non-negative. */
  lemma TurnoverFacts(wap: real, frontWap: real, spread: real)
    requires wap != 0.0 && frontWap != 0.0
    ensures wap == frontWap ==> Turnover(wap, frontWap, spread) == spread / wap
    ensures 0.0 <= spread && 0.0 < wap ==> 0.0 <= Turnover(wap, frontWap, spread)
  {
  }

  /** The nine series of the window, as values. */
  datatype Series = Series(
    timestamp: seq<nat>,
    askPrice: seq<real>,
    askQty: seq<real>,
    bidPrice: seq<real>,
    bidQty: seq<real>,
    wap: seq<real>,
    imb: seq<real>,
    spread: seq<real>,
    tv: seq<real>)

  function Empty(): Series
  {
    Series([], [], [], [], [], [], [], [], [])
  }

  function Size(s: Series): nat
  {
    |s.timestamp|
  }

  /** All nine series have the same length. */
  predicate LockStep(s: Series)
  {
    var n := |s.timestamp|;
    |s.askPrice| == n && |s.askQty| == n && |s.bidPrice| == n && |s.bidQty| == n &&
    |s.wap| == n && |s.imb| == n && |s.spread| == n && |s.tv| == n
  }

  /** Lock-step, and every resident weighted mid can be divided by. */
  predicate Good(s: Series)
  {
    LockStep(s) && forall i :: 0 <= i < |s.wap| ==> s.wap[i] != 0.0
  }

  /** `pop_front` on every series. */
  function Drop(s: Series): (r: Series)
    requires Good(s) && Size(s) > 0
    ensures Good(r) && Size(r) == Size(s) - 1
    ensures forall i :: 0 <= i < Size(r) ==> r.wap[i] == s.wap[i + 1]
  {
    Series(s.timestamp[1..], s.askPrice[1..], s.askQty[1..], s.bidPrice[1..], s.bidQty[1..],
           s.wap[1..], s.imb[1..], s.spread[1..], s.tv[1..])
  }

  /** `push_back` of the row derived from `t` on every series; the turnover
      is measured against the front weighted mid after the append. */
  function Append(s: Series, t: Tick): (r: Series)
    requires Good(s) && WellFormed(t)
    ensures Good(r) && Size(r) == Size(s) + 1
  {
    var w := Wap(t);
    var spread := t.bestAsk - t.bestBid;
    var waps := s.wap + [w];
    Series(
      s.timestamp + [t.transactionTime],
      s.askPrice + [t.bestAsk],
      s.askQty + [t.bestAskQty],
      s.bidPrice + [t.bestBid],
      s.bidQty + [t.bestBidQty],
      waps,
      s.imb + [Imb(t)],
      s.spread + [spread],
      s.tv + [Turnover(w, waps[0], spread)])
  }

  /** One push: drop the front row when the window already holds more than
      `cap - 1` rows, then append the new row at the back. */
  function Advance(s: Series, cap: nat, t: Tick): (r: Series)
    requires cap > 0 && Good(s) && WellFormed(t)
    ensures Good(r)
    ensures Size(r) == if Size(s) >= cap then Size(s) else Size(s) + 1
  {
    Append(if Size(s) > cap - 1 then Drop(s) else s, t)
  }

  predicate AllWellFormed(ticks: seq<Tick>)
  {
    forall i :: 0 <= i < |ticks| ==> WellFormed(ticks[i])
  }

  /** Index (into the whole history) of the oldest tick still resident right
      after the tick with index `j` was pushed. */
  function FrontAfter(j: nat, cap: nat): nat
  {
    if j + 1 >= cap then j + 1 - cap else 0
  }

  /** Row `i` of window `s` holds history tick `j` (the window holds the
      newest ticks, so `j` counts back from the end) with its derived values;
      its turnover is measured against the tick at the front when it arrived. */
  ghost predicate RowOf(s: Series, h: seq<Tick>, cap: nat, i: int)
  {
    LockStep(s) && Size(s) <= |h| && 0 <= i < Size(s) &&
    var j := |h| - Size(s) + i;
    var t := h[j];
    FrontAfter(j, cap) <= j && WellFormed(t) && WellFormed(h[FrontAfter(j, cap)]) &&
    s.timestamp[i] == t.transactionTime &&
    s.askPrice[i] == t.bestAsk && s.askQty[i] == t.bestAskQty &&
    s.bidPrice[i] == t.bestBid && s.bidQty[i] == t.bestBidQty &&
    s.wap[i] == Wap(t) && s.imb[i] == Imb(t) && s.spread[i] == t.bestAsk - t.bestBid &&
    s.tv[i] == Turnover(Wap(t), Wap(h[FrontAfter(j, cap)]), t.bestAsk - t.bestBid)
  }

  /** `s` is the window of capacity `cap` after pushing history `h`: it holds
      the last `min(|h|, cap)` ticks in arrival order, all series in lock-step. */
  ghost predicate IsWindow(s: Series, h: seq<Tick>, cap: nat)
  {
    AllWellFormed(h) && LockStep(s) && Size(s) == Min(|h|, cap) &&
    forall i :: 0 <= i < Size(s) ==> RowOf(s, h, cap, i)
  }

  lemma WindowIsGood(s: Series, h: seq<Tick>, cap: nat)
    requires IsWindow(s, h, cap)
    ensures Good(s)
  {
    forall i | 0 <= i < |s.wap|
      ensures s.wap[i] != 0.0
    {
      assert RowOf(s, h, cap, i);
    }
  }

  /** The newest row of a non-empty window is the last tick pushed. */
  lemma NewestRow(s: Series, h: seq<Tick>, cap: nat)
    requires IsWindow(s, h, cap) && h != [] && cap > 0
    ensures 0 < Size(s) && |s.tv| == |s.wap| == |s.bidPrice| == |s.askPrice| == Size(s)
    ensures s.wap[Size(s) - 1] == Wap(h[|h| - 1]) && s.timestamp[Size(s) - 1] == h[|h| - 1].transactionTime
    ensures s.bidPrice[Size(s) - 1] == h[|h| - 1].bestBid && s.askPrice[Size(s) - 1] == h[|h| - 1].bestAsk
  {
    assert RowOf(s, h, cap, Size(s) - 1);
  }

  /** A row that survives a push still holds its history tick. */
  lemma AdvanceOldRow(s: Series, h: seq<Tick>, cap: nat, t: Tick, i: int)
    requires cap > 0 && IsWindow(s, h, cap) && Good(s) && WellFormed(t)
    requires 0 <= i < Size(Advance(s, cap, t)) - 1
    ensures RowOf(Advance(s, cap, t), h + [t], cap, i)
  {
    var k := if Size(s) > cap - 1 then 1 else 0;
    assert RowOf(s, h, cap, i + k);
    assert (h + [t])[|h| - Size(s) + i + k] == h[|h| - Size(s) + i + k];
  }

  /** The row a push appends holds the pushed tick, its turnover measured
      against the oldest tick still resident. */
  lemma AdvanceNewRow(s: Series, h: seq<Tick>, cap: nat, t: Tick)
    requires cap > 0 && IsWindow(s, h, cap) && Good(s) && WellFormed(t)
    ensures RowOf(Advance(s, cap, t), h + [t], cap, Size(Advance(s, cap, t)) - 1)
  {
    var r := Advance(s, cap, t);
    var h' := h + [t];
    var k := if Size(s) > cap - 1 then 1 else 0;
    assert h'[|h|] == t;
    var f := FrontAfter(|h|, cap);
    assert f == |h'| - Size(r);
    if Size(r) > 1 {
      assert RowOf(s, h, cap, k);
      assert r.wap[0] == s.wap[k];
      assert h'[f] == h[f];
    } else {
      assert f == |h|;
    }
  }

  /** A push keeps the window equal to the last `min(n, capacity)` ticks:
      the oldest row goes exactly when the window is full, survivors keep
      their order, and the new row lands at the back. */
  lemma AdvanceKeepsWindow(s: Series, h: seq<Tick>, cap: nat, t: Tick)
    requires cap > 0 && IsWindow(s, h, cap) && WellFormed(t)
    ensures Good(s)
    ensures IsWindow(Advance(s, cap, t), h + [t], cap)
  {
    WindowIsGood(s, h, cap);
    var r := Advance(s, cap, t);
    assert AllWellFormed(h + [t]);
    forall i | 0 <= i < Size(r)
      ensures RowOf(r, h + [t], cap, i)
    {
      if i < Size(r) - 1 {
        AdvanceOldRow(s, h, cap, t, i);
      } else {
        AdvanceNewRow(s, h, cap, t);
      }
    }
  }

  /** The window after pushing `ticks`, in order, into an empty window. */
  function Replay(ticks: seq<Tick>, cap: nat): (r: Series)
    requires cap > 0 && AllWellFormed(ticks)
    ensures Good(r)
  {
    if ticks == [] then Empty()
    else Advance(Replay(ticks[..|ticks| - 1], cap), cap, ticks[|ticks| - 1])
  }

  /** Every sequence of pushes leaves the window of its last `min(n, cap)`
      ticks, with every series of that same length. */
  lemma {:induction false} ReplayIsWindow(ticks: seq<Tick>, cap: nat)
    requires cap > 0 && AllWellFormed(ticks)
    ensures IsWindow(Replay(ticks, cap), ticks, cap)
  {
    if ticks != [] {
      var init := ticks[..|ticks| - 1];
      ReplayIsWindow(init, cap);
      AdvanceKeepsWindow(Replay(init, cap), init, cap, ticks[|ticks| - 1]);
      assert init + [ticks[|ticks| - 1]] == ticks;
    }
  }

  /** Whenever a push leaves a one-row window (capacity 1, or the first push
      into any window) the first turnover term vanishes. */
  lemma SingleRowTurnover(s: Series, cap: nat, t: Tick)
    requires cap > 0 && Good(s) && WellFormed(t) && Size(Advance(s, cap, t)) == 1
    ensures Advance(s, cap, t).tv == [(t.bestAsk - t.bestBid) / Wap(t)]
  {
    TurnoverFacts(Wap(t), Wap(t), t.bestAsk - t.bestBid);
  }

  /** Four identical ticks (bid 100, ask 101, both quantities 1) into a window
      of capacity 3: three rows remain, each with weighted mid 100.5, and the
      newest turnover is 1 / 100.5. */
  lemma FourIdenticalTicks()
    ensures var t := Tick(0, 100.0, 1.0, 101.0, 1.0);
      var r := Replay([t, t, t, t], 3);
      Size(r) == 3 && r.wap == [100.5, 100.5, 100.5] && r.tv[2] == 1.0 / 100.5
  {
    var t := Tick(0, 100.0, 1.0, 101.0, 1.0);
    assert Wap(t) == 100.5;
    var ts := [t, t, t, t];
    assert AllWellFormed(ts);
    ReplayIsWindow(ts, 3);
    var r := Replay(ts, 3);
    assert RowOf(r, ts, 3, 0) && RowOf(r, ts, 3, 1) && RowOf(r, ts, 3, 2);
    TurnoverFacts(100.5, 100.5, 1.0);
    assert r.wap == [100.5, 100.5, 100.5];
  }

  /** `iter().sum()`: the left fold of `+` from 0. */
  function Sum(s: seq<real>): real
  {
    if s == [] then 0.0 else Sum(s[..|s| - 1]) + s[|s| - 1]
  }

  /** `calculate_tv_mean`: the arithmetic mean, or none on an empty series. */
  function TvMean(tv: seq<real>): (r: Option<real>)
    ensures r.None? <==> tv == []
    ensures r.Some? ==> r.value * |tv| as real == Sum(tv)
  {
    if |tv| > 0 then Some(Sum(tv) / |tv| as real) else None
  }

  lemma {:induction false} SumBounds(s: seq<real>, lo: real, hi: real)
    requires forall i :: 0 <= i < |s| ==> lo <= s[i] <= hi
    ensures lo * |s| as real <= Sum(s) <= hi * |s| as real
  {
    if s != [] {
      SumBounds(s[..|s| - 1], lo, hi);
      assert lo * |s| as real == lo * (|s| - 1) as real + lo;
      assert hi * |s| as real == hi * (|s| - 1) as real + hi;
    }
  }

  /** The mean turnover lies between the smallest and the largest sample. */
  lemma TvMeanBounds(tv: seq<real>, lo: real, hi: real)
    requires tv != []
    requires forall i :: 0 <= i < |tv| ==> lo <= tv[i] <= hi
    ensures lo <= TvMean(tv).value <= hi
  {
    SumBounds(tv, lo, hi);
    var n := |tv| as real;
    var m := TvMean(tv).value;
    assert m * n == Sum(tv);
    assert 0.0 <= (m - lo) * n;
    assert 0.0 <= (hi - m) * n;
    PositiveFactor(m - lo, n);
    PositiveFactor(hi - m, n);
  }

  /** The window object: nine series updated in place, with the history of
      pushed ticks kept as a ghost. */
  class StrategyData {
    const capacity: nat
    var timestamp: seq<nat>
    var askPrice: seq<real>
    var askQty: seq<real>
    var bidPrice: seq<real>
    var bidQty: seq<real>
    var wap: seq<real>
    var imb: seq<real>
    var spread: seq<real>
    var tv: seq<real>
    ghost var history: seq<Tick>

    function Snapshot(): Series
      reads this
    {
      Series(timestamp, askPrice, askQty, bidPrice, bidQty, wap, imb, spread, tv)
    }

    /** The series are the window over every tick pushed so far. */
    ghost predicate Valid()
      reads this
    {
      Good(Snapshot()) && IsWindow(Snapshot(), history, capacity)
    }

    /** `with_capacity`: an empty window. */
    constructor WithCapacity(capacity: nat)
      ensures Valid() && this.capacity == capacity
      ensures history == [] && Snapshot() == Empty()
    {
      this.capacity := capacity;
      timestamp, askPrice, askQty, bidPrice, bidQty := [], [], [], [], [];
      wap, imb, spread, tv := [], [], [], [];
      history := [];
    }

    /** `pop_front` on all nine series. */
    method PopFront()
      requires Good(Snapshot()) && Size(Snapshot()) > 0
      modifies this
      ensures Snapshot() == Drop(old(Snapshot())) && history == old(history)
    {
      timestamp, askPrice, askQty, bidPrice, bidQty :=
        timestamp[1..], askPrice[1..], askQty[1..], bidPrice[1..], bidQty[1..];
      wap, imb, spread, tv := wap[1..], imb[1..], spread[1..], tv[1..];
    }

    /** `push_back` of the derived row on all nine series. */
    method PushBack(t: Tick)
      requires Good(Snapshot()) && WellFormed(t)
      modifies this
      ensures Snapshot() == Append(old(Snapshot()), t) && history == old(history)
    {
      var w := Wap(t);
      var i := Imb(t);
      var s := t.bestAsk - t.bestBid;
      timestamp, askPrice, askQty, bidPrice, bidQty :=
        timestamp + [t.transactionTime], askPrice + [t.bestAsk], askQty + [t.bestAskQty],
        bidPrice + [t.bestBid], bidQty + [t.bestBidQty];
      wap, imb, spread := wap + [w], imb + [i], spread + [s];

      var v := Turnover(w, wap[0], s);
      tv := tv + [v];
    }

    /** `push`: evict the oldest row when full, then append the new one. */
    method Push(t: Tick)
      requires Valid() && capacity > 0 && WellFormed(t)
      modifies this
      ensures Valid() && history == old(history) + [t]
      ensures Snapshot() == Advance(old(Snapshot()), capacity, t)
      ensures LockStep(Snapshot()) && |timestamp| == Min(|history|, capacity)
    {
      ghost var before := Snapshot();
      AdvanceKeepsWindow(before, history, capacity, t);
      if |timestamp| > capacity - 1 {
        PopFront();
      }
      PushBack(t);
      history := history + [t];
    }
  }
}
