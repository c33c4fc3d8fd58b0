/** The Avellaneda-Stoikov strategy object: its configuration, its engine
    state, its tick window, and the two event handlers `on_tick` and
    `on_account`. */
module Strategy {
  import opened Basics
  import opened StrategyWindow
  import opened Risk

  /** Added to every calibrated intensity parameter before use. */
  const Epsilon: real := 0.0000001

  /** The configuration fields the strategy reads. The tick size is given as
      its decimal text. */
  datatype Config = Config(
    baseAsset: string,
    quoteAsset: string,
    orderQty: real,
    tickSizeText: string,
    estimateWindow: nat,
    period: nat,
    sigmaMultiplier: real,
    sigmaTickPeriod: nat,
    stoploss: real,
    stoplossSleep: nat,
    stopprofit: real)

  /** Order-arrival intensity parameters (A, K) per side. */
  datatype Intensity = Intensity(buyA: real, buyK: real, sellA: real, sellK: real)

  /** One wallet balance and one position entry of an account update. */
  datatype Balance = Balance(asset: string, crossWalletBalance: real)
  datatype PositionEntry = PositionEntry(symbol: string, positionSide: string, positionAmount: real, entryPrice: real)

  /** Index of the first occurrence of `c` in `s`. */
  function IndexOf(s: string, c: char): (r: Option<nat>)
    ensures r.None? <==> c !in s
    ensures r.Some? ==> r.value < |s| && s[r.value] == c && c !in s[..r.value]
  {
    if s == [] then None
    else if s[0] == c then Some(0)
    else
      match IndexOf(s[1..], c)
      case None => None
      case Some(i) =>
        assert s[..i + 1] == [s[0]] + s[1..][..i];
        Some(i + 1)
  }

  /** `text[i]` is its first '.', and the `n` characters after it run to
      the next '.' or the end. */
  predicate FractionDigits(text: string, i: int, n: nat)
  {
    0 <= i && i + 1 + n <= |text| && text[i] == '.' && '.' !in text[..i] &&
    '.' !in text[i + 1..i + 1 + n] && (i + 1 + n == |text| || text[i + 1 + n] == '.')
  }

  /** `tick_round`: the number of characters after the first '.' of the tick
      size's decimal text, up to the next '.' or the end. None when the text
      has no '.', where the source panics on the missing piece. */
  function TickRound(text: string): (r: Option<nat>)
    ensures r.None? <==> '.' !in text
    ensures r.Some? ==> exists i :: FractionDigits(text, i, r.value)
  {
    match IndexOf(text, '.')
    case None => None
    case Some(i) =>
      var rest := text[i + 1..];
      match IndexOf(rest, '.')
      case None =>
        assert text[i + 1..i + 1 + |rest|] == rest;
        assert FractionDigits(text, i, |rest|);
        Some(|rest|)
      case Some(j) =>
        assert text[i + 1..i + 1 + j] == rest[..j];
        assert FractionDigits(text, i, j);
        Some(j)
  }

  lemma TickRoundExamples()
    ensures TickRound("0.01") == Some(2)
    ensures TickRound("0.1") == Some(1)
    ensures TickRound("1") == None
  {
    assert "0.01"[0] != '.' && "0.01"[1] == '.';
    assert "0.01"[2..] == "01";
    assert "0.1"[2..] == "1";
  }

  /** The cash an account update leaves: the wallet balance of the LAST
      balance whose asset equals `pair`, or the old cash when none does. */
  function LastCash(bs: seq<Balance>, pair: string, cash: real): (r: real)
    ensures (forall i :: 0 <= i < |bs| ==> bs[i].asset != pair) ==> r == cash
    ensures (exists i :: 0 <= i < |bs| && bs[i].asset == pair) ==>
      exists i :: 0 <= i < |bs| && bs[i].asset == pair && r == bs[i].crossWalletBalance &&
        forall j :: i < j < |bs| ==> bs[j].asset != pair
  {
    if bs == [] then cash
    else if bs[|bs| - 1].asset == pair then bs[|bs| - 1].crossWalletBalance
    else
      var init := bs[..|bs| - 1];
      assert forall i :: 0 <= i < |init| ==> init[i] == bs[i];
      LastCash(init, pair, cash)
  }

  /** The position entry the strategy follows: this pair, one-way mode. */
  predicate IsBoth(p: PositionEntry, pair: string)
  {
    p.symbol == pair && p.positionSide == "BOTH"
  }

  /** `positions.iter().find(...)`: the FIRST entry for this pair in "BOTH"
      mode, or none. */
  function FindBoth(ps: seq<PositionEntry>, pair: string): (r: Option<PositionEntry>)
    ensures r.None? <==> forall i :: 0 <= i < |ps| ==> !IsBoth(ps[i], pair)
    ensures r.Some? ==> exists i :: (0 <= i < |ps| && ps[i] == r.value && IsBoth(ps[i], pair) &&
                                     forall j :: 0 <= j < i ==> !IsBoth(ps[j], pair))
  {
    if ps == [] then None
    else if IsBoth(ps[0], pair) then Some(ps[0])
    else
      var r := FindBoth(ps[1..], pair);
      assert forall i :: 1 <= i < |ps| ==> ps[i] == ps[1..][i - 1];
      r
  }

  class AvellanedaStoikov {
    const pair: string
    const orderQty: real
    const tickRound: nat
    const estimateWindow: nat
    const period: nat
    const sigmaMultiplier: real
    const stoploss: real
    const stoplossSleep: nat
    const stopprofit: real
    const startTime: nat
    const strategyData: StrategyData

    var timer: int
    var sigma: real
    var buyA: real
    var buyK: real
    var sellA: real
    var sellK: real
    var position: Position
    var cash: real
    var inStoploss: bool
    var unrealizedPnl: real

    ghost predicate Valid()
      reads this, strategyData
    {
      strategyData.Valid() && position.symbol == pair
    }

    function Limits(): Params
    {
      Params(orderQty, period, stoploss, stoplossSleep, stopprofit, tickRound)
    }

    function State(): RiskState
      reads this
    {
      RiskState(inStoploss, timer, unrealizedPnl)
    }

    function Intensities(): Intensity
      reads this
    {
      Intensity(buyA, buyK, sellA, sellK)
    }

    /** The gate of `calculate_intensity_info`: the estimator says it can
        estimate and the tick is past the estimation window. */
    predicate IntensityReady(canGet: bool, ts: nat)
    {
      canGet && ts > startTime + estimateWindow + 1
    }

    /** `new`: `now` is the start timestamp; the tick size text must contain
        a '.', or the source panics. */
    constructor (config: Config, now: nat)
      requires TickRound(config.tickSizeText).Some?
      ensures Valid() && fresh(strategyData)
      ensures pair == config.baseAsset + config.quoteAsset
      ensures tickRound == TickRound(config.tickSizeText).value
      ensures strategyData.capacity == config.sigmaTickPeriod && strategyData.history == []
      ensures orderQty == config.orderQty && estimateWindow == config.estimateWindow
      ensures period == config.period && sigmaMultiplier == config.sigmaMultiplier
      ensures stoploss == config.stoploss && stoplossSleep == config.stoplossSleep
      ensures stopprofit == config.stopprofit && startTime == now
      ensures position == Position(pair, 0.0, 0.0) && cash == 0.0
      ensures State() == RiskState(false, 0, 0.0) && sigma == 1.0
      ensures Intensities() == Intensity(0.4, 0.2, 0.4, 0.2)
    {
      var p := config.baseAsset + config.quoteAsset;
      pair := p;
      orderQty := config.orderQty;
      tickRound := TickRound(config.tickSizeText).value;
      estimateWindow := config.estimateWindow;
      period := config.period;
      sigmaMultiplier := config.sigmaMultiplier;
      stoploss := config.stoploss;
      stoplossSleep := config.stoplossSleep;
      stopprofit := config.stopprofit;
      startTime := now;
      strategyData := new StrategyData.WithCapacity(config.sigmaTickPeriod);
      timer := 0;
      sigma := 1.0;
      buyA, buyK, sellA, sellK := 0.4, 0.2, 0.4, 0.2;
      position := Position(p, 0.0, 0.0);
      cash := 0.0;
      inStoploss := false;
      unrealizedPnl := 0.0;
    }

    /** `on_tick`: push the tick into the window; when the intensity
        estimate is ready, take the new (A, K), set sigma to the mean
        turnover, and make the risk decision. `canGet` and `ak` are what the
        intensity estimator reports, `offsets` the quote offsets, and `round`
        the tick-precision rounding. */
    method OnTick(t: Tick, canGet: bool, ak: Intensity, offsets: Offsets, round: (real, nat) -> real)
      returns (cmds: seq<Cmd>)
      requires Valid() && strategyData.capacity > 0 && WellFormed(t)
      requires !inStoploss ==> Priced(position)
      modifies this, strategyData
      ensures Valid()
      ensures strategyData.history == old(strategyData.history) + [t]
      ensures position == old(position) && cash == old(cash)
      ensures !IntensityReady(canGet, t.transactionTime) ==>
        cmds == [] && State() == old(State()) && sigma == old(sigma) && Intensities() == old(Intensities())
      ensures strategyData.tv != []
      ensures IntensityReady(canGet, t.transactionTime) ==>
        Intensities() == Intensity(ak.buyA + Epsilon, ak.buyK + Epsilon, ak.sellA + Epsilon, ak.sellK + Epsilon) &&
        sigma == TvMean(strategyData.tv).value &&
        Step(State(), cmds) ==
          Decide(old(State()), Limits(), Quote(t.transactionTime, position, Wap(t), t.bestBid, t.bestAsk, offsets), round)
    {
      strategyData.Push(t);
      NewestRow(strategyData.Snapshot(), strategyData.history, strategyData.capacity);

      cmds := [];
      if IntensityReady(canGet, t.transactionTime) {
        TakeIntensity(ak);

        // calculate_spread: sigma is the mean turnover; the offsets are given
        sigma := TvMean(strategyData.tv).value;
        var spread := offsets;

        var lastWap := strategyData.wap[|strategyData.wap| - 1];
        var lastBid := strategyData.bidPrice[|strategyData.bidPrice| - 1];
        var lastAsk := strategyData.askPrice[|strategyData.askPrice| - 1];
        cmds := Evaluate(t.transactionTime, lastWap, lastBid, lastAsk, spread, round);
      }
    }

    /** The first step of `on_tick` once `calculate_intensity_info` has
        returned an estimate: every (A, K) is the estimator's value nudged up
        by `Epsilon`. */
    method TakeIntensity(ak: Intensity)
      modifies this
      ensures Intensities() == Intensity(ak.buyA + Epsilon, ak.buyK + Epsilon, ak.sellA + Epsilon, ak.sellK + Epsilon)
      ensures State() == old(State()) && sigma == old(sigma)
      ensures position == old(position) && cash == old(cash)
    {
      buyA := ak.buyA + Epsilon;
      buyK := ak.buyK + Epsilon;
      sellA := ak.sellA + Epsilon;
      sellK := ak.sellK + Epsilon;
    }

    /** The risk part of `on_tick`, run once the intensity estimate is
        ready: mark the position to `wap`, then stop out, take profit,
        re-quote or wait, as `Decide` specifies. */
    method Evaluate(nowMs: nat, wap: real, bid: real, ask: real, spread: Offsets, round: (real, nat) -> real)
      returns (cmds: seq<Cmd>)
      requires !inStoploss ==> Priced(position)
      modifies this
      ensures position == old(position) && cash == old(cash) && sigma == old(sigma)
      ensures Step(State(), cmds) == Decide(old(State()), Limits(), Quote(nowMs, position, wap, bid, ask, spread), round)
      ensures Intensities() == old(Intensities())
    {
      cmds := [];
      var nowS := nowMs / 1000;
      ghost var st := State();
      ghost var q := Quote(nowMs, position, wap, bid, ask, spread);
      if !inStoploss {
        if position.amount > 0.0 {
          unrealizedPnl := (wap * position.amount) / (position.entryPrice * position.amount) - 1.0;
        } else if position.amount < 0.0 {
          unrealizedPnl := -((wap * position.amount) / (position.entryPrice * position.amount) - 1.0);
        }
        assert unrealizedPnl == MarkToMarket(st.pnl, position, wap);
        ghost var decided := Decide(st, Limits(), q, round);

        if unrealizedPnl < -stoploss {
          cmds := cmds + [CancelAll];
          if position.amount > 0.0 {
            cmds := cmds + [MarketSell(position.amount)];
          } else {
            cmds := cmds + [MarketBuy(Abs(position.amount))];
          }
          unrealizedPnl := 0.0;
          inStoploss := true;
          timer := nowS;
          assert decided == Step(RiskState(true, nowS, 0.0), [CancelAll, Flatten(position.amount)]);
        } else if unrealizedPnl > stopprofit && timer <= nowS - period / 1000 {
          cmds := cmds + [CancelAll];
          if position.amount > 0.0 {
            cmds := cmds + [LimitSell(position.amount, ask)];
          } else if position.amount < 0.0 {
            cmds := cmds + [LimitBuy(Abs(position.amount), bid)];
          }
          assert decided == Step(st.(pnl := unrealizedPnl), [CancelAll] + TakeProfit(position.amount, bid, ask));
        } else if timer <= nowS - period / 1000 {
          // the detached placement task, its calls in program order
          cmds := cmds + [CancelAll];
          var sellPrice := round(wap + spread.ask, tickRound);
          var buyPrice := round(wap - spread.bid, tickRound);
          cmds := cmds + [LimitBuy(orderQty, buyPrice)];
          cmds := cmds + [LimitSell(orderQty, sellPrice)];
          timer := nowS;
          assert decided == Step(RiskState(false, nowS, unrealizedPnl), cmds);
        } else {
          assert decided == Step(st.(pnl := unrealizedPnl), []);
        }
      } else if timer <= nowS - stoplossSleep / 1000 {
        inStoploss := false;
      }
    }

    /** `on_account`: cash from the last matching balance; amount and entry
        price from the first matching "BOTH" position, each kept when absent. */
    method OnAccount(balances: seq<Balance>, positions: seq<PositionEntry>)
      requires Valid()
      modifies this
      ensures Valid()
      ensures cash == LastCash(balances, pair, old(cash))
      ensures position.symbol == old(position.symbol)
      ensures match FindBoth(positions, pair)
        case None => position == old(position)
        case Some(p) => position == old(position).(amount := p.positionAmount, entryPrice := p.entryPrice)
      ensures State() == old(State()) && sigma == old(sigma) && Intensities() == old(Intensities())
    {
      var c := cash;
      for i := 0 to |balances|
        invariant c == LastCash(balances[..i], pair, old(cash))
      {
        assert balances[..i + 1][..i] == balances[..i];
        if balances[i].asset == pair {
          c := balances[i].crossWalletBalance;
        }
      }
      assert balances[..|balances|] == balances;
      cash := c;

      var tmpQ := match FindBoth(positions, pair) case Some(x) => Some(x.positionAmount) case None => None;
      var entryPrice := match FindBoth(positions, pair) case Some(x) => Some(x.entryPrice) case None => None;

      position := position.(entryPrice := if entryPrice.Some? then entryPrice.value else position.entryPrice);
      position := position.(amount := if tmpQ.Some? then tmpQ.value else position.amount);
    }
  }
}
