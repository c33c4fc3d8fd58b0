/** The per-tick risk and quoting decision of the strategy, as a pure state
    machine: mark-to-market, stoploss, stop-profit, re-quote and cooldown.
    Exchange calls are the emitted command sequence. */
module Risk {
  import opened Basics

  /** The exchange calls the strategy issues, in program order. */
  datatype Cmd =
    | CancelAll
    | MarketSell(qty: real)
    | MarketBuy(qty: real)
    | LimitBuy(qty: real, price: real)
    | LimitSell(qty: real, price: real)

  /** The tracked position: amount > 0 is long, < 0 short, 0 flat. */
  datatype Position = Position(symbol: string, amount: real, entryPrice: real)

  /** The two quote offsets (the source's `Spread`). */
  datatype Offsets = Offsets(ask: real, bid: real)

  /** The part of the engine state the decision changes. */
  datatype RiskState = RiskState(inStoploss: bool, timer: int, pnl: real)

  /** Configuration the decision reads. Durations are in milliseconds. */
  datatype Params = Params(orderQty: real, period: nat, stoploss: real, stoplossSleep: nat, stopprofit: real, tickRound: nat)

  /** What one ready tick brings: its time, the position, the newest weighted
      mid, best bid and best ask of the window, and the quote offsets. */
  datatype Quote = Quote(nowMs: nat, position: Position, wap: real, bid: real, ask: real, offsets: Offsets)

  datatype Step = Step(state: RiskState, cmds: seq<Cmd>)

  /** The pnl ratio can be formed: a position that is not flat has a nonzero
      entry price. */
  predicate Priced(p: Position)
  {
    p.amount != 0.0 ==> p.entryPrice != 0.0
  }

  /** `timer <= now_ms / 1000 - wait_ms / 1000`: at least `wait_ms / 1000`
      whole seconds have passed since `timer` (both in whole seconds). */
  predicate Elapsed(timer: int, nowMs: nat, waitMs: nat)
  {
    timer <= nowMs / 1000 - waitMs / 1000
  }

  /** Unrealized pnl after marking the position at the weighted mid. */
  function MarkToMarket(pnl: real, p: Position, wap: real): (r: real)
    requires Priced(p)
    ensures p.amount > 0.0 ==> r == wap / p.entryPrice - 1.0
    ensures p.amount < 0.0 ==> r == 1.0 - wap / p.entryPrice
    ensures p.amount == 0.0 ==> r == pnl
  {
    if p.amount > 0.0 then
      var ratio := (wap * p.amount) / (p.entryPrice * p.amount);
      CancelAmount(wap, p.entryPrice, p.amount);
      assert ratio == wap / p.entryPrice;
      ratio - 1.0
    else if p.amount < 0.0 then
      var ratio := (wap * p.amount) / (p.entryPrice * p.amount);
      CancelAmount(wap, p.entryPrice, p.amount);
      assert ratio == wap / p.entryPrice;
      -(ratio - 1.0)
    else
      pnl
  }

  lemma CancelAmount(w: real, e: real, a: real)
    requires e != 0.0 && a != 0.0
    ensures (w * a) / (e * a) == w / e
  {
    assert (w / e) * (e * a) == w * a;
  }

  /** The single exit order of the stoploss branch. */
  function Flatten(amount: real): Cmd
  {
    if amount > 0.0 then MarketSell(amount) else MarketBuy(Abs(amount))
  }

  /** The limit orders of the stop-profit branch. */
  function TakeProfit(amount: real, bid: real, ask: real): seq<Cmd>
  {
    if amount > 0.0 then [LimitSell(amount, ask)]
    else if amount < 0.0 then [LimitBuy(Abs(amount), bid)]
    else []
  }

  /** One ready tick of `on_tick`. `round` is the tick-precision rounding
      applied to quote prices. */
  function Decide(st: RiskState, par: Params, q: Quote, round: (real, nat) -> real): Step
    requires !st.inStoploss ==> Priced(q.position)
  {
    var nowS := q.nowMs / 1000;
    if st.inStoploss then
      Step(st.(inStoploss := !Elapsed(st.timer, q.nowMs, par.stoplossSleep)), [])
    else
      var pnl := MarkToMarket(st.pnl, q.position, q.wap);
      var amount := q.position.amount;
      if pnl < -par.stoploss then
        Step(RiskState(true, nowS, 0.0), [CancelAll, Flatten(amount)])
      else if pnl > par.stopprofit && Elapsed(st.timer, q.nowMs, par.period) then
        Step(st.(pnl := pnl), [CancelAll] + TakeProfit(amount, q.bid, q.ask))
      else if Elapsed(st.timer, q.nowMs, par.period) then
        Step(RiskState(false, nowS, pnl),
             [CancelAll,
              LimitBuy(par.orderQty, round(q.wap - q.offsets.bid, par.tickRound)),
              LimitSell(par.orderQty, round(q.wap + q.offsets.ask, par.tickRound))])
      else
        Step(st.(pnl := pnl), [])
  }

  /** Net signed quantity of the market orders (buys positive). */
  function MarketNet(cmds: seq<Cmd>): real
  {
    if cmds == [] then 0.0
    else
      var c := cmds[0];
      (match c
       case MarketBuy(x) => x
       case MarketSell(x) => -x
       case _ => 0.0) + MarketNet(cmds[1..])
  }

  /** Net signed quantity of the limit orders (buys positive). */
  function LimitNet(cmds: seq<Cmd>): real
  {
    if cmds == [] then 0.0
    else
      var c := cmds[0];
      (match c
       case LimitBuy(x, _) => x
       case LimitSell(x, _) => -x
       case _ => 0.0) + LimitNet(cmds[1..])
  }

  /** The net quantities of a non-empty command list split at its head. */
  lemma NetOfFew(cmds: seq<Cmd>)
    requires cmds != []
    ensures MarketNet(cmds) == MarketNet([cmds[0]]) + MarketNet(cmds[1..])
    ensures LimitNet(cmds) == LimitNet([cmds[0]]) + LimitNet(cmds[1..])
    ensures MarketNet([cmds[0]]) == (match cmds[0] case MarketBuy(x) => x case MarketSell(x) => -x case _ => 0.0)
    ensures LimitNet([cmds[0]]) == (match cmds[0] case LimitBuy(x, _) => x case LimitSell(x, _) => -x case _ => 0.0)
  {
    assert [cmds[0]][1..] == [];
  }

  /** Stoploss: below `-stoploss` the engine cancels, then sends one market
      order whose signed size exactly closes the position (a buy of 0 when
      flat), resets pnl, enters cooldown and stamps the timer. */
  lemma StoplossFlattens(st: RiskState, par: Params, q: Quote, round: (real, nat) -> real)
    requires !st.inStoploss && Priced(q.position)
    requires MarkToMarket(st.pnl, q.position, q.wap) < -par.stoploss
    ensures var r := Decide(st, par, q, round);
      r.state == RiskState(true, q.nowMs / 1000, 0.0) &&
      |r.cmds| == 2 && r.cmds[0] == CancelAll &&
      (if q.position.amount > 0.0 then r.cmds[1].MarketSell? else r.cmds[1].MarketBuy?) &&
      q.position.amount + MarketNet(r.cmds) == 0.0 && LimitNet(r.cmds) == 0.0
  {
    var r := Decide(st, par, q, round);
    NetOfFew(r.cmds);
    assert r.cmds[1..] == [Flatten(q.position.amount)];
  }

  /** Stop-profit: cancels, then posts limit orders that would exactly close
      the position at the best opposing price; no market order, the timer
      and the cooldown flag stay as they were. */
  lemma StopProfitCloses(st: RiskState, par: Params, q: Quote, round: (real, nat) -> real)
    requires !st.inStoploss && Priced(q.position)
    requires var pnl := MarkToMarket(st.pnl, q.position, q.wap);
      -par.stoploss <= pnl && par.stopprofit < pnl
    requires Elapsed(st.timer, q.nowMs, par.period)
    ensures var r := Decide(st, par, q, round);
      r.state == st.(pnl := MarkToMarket(st.pnl, q.position, q.wap)) &&
      r.cmds[0] == CancelAll && |r.cmds| == (if q.position.amount == 0.0 then 1 else 2) &&
      (q.position.amount > 0.0 ==> r.cmds[1] == LimitSell(q.position.amount, q.ask)) &&
      (q.position.amount < 0.0 ==> r.cmds[1] == LimitBuy(-q.position.amount, q.bid)) &&
      q.position.amount + LimitNet(r.cmds) == 0.0 && MarketNet(r.cmds) == 0.0
  {
    var r := Decide(st, par, q, round);
    var tp := TakeProfit(q.position.amount, q.bid, q.ask);
    assert r.cmds[1..] == tp;
    NetOfFew(r.cmds);
    if tp != [] {
      NetOfFew(tp);
      assert tp[1..] == [];
    }
  }

  /** Re-quote: cancels, then one limit buy below and one limit sell above
      the weighted mid, both of `order_qty`, and stamps the timer. */
  lemma RequotePlacesPair(st: RiskState, par: Params, q: Quote, round: (real, nat) -> real)
    requires !st.inStoploss && Priced(q.position)
    requires var pnl := MarkToMarket(st.pnl, q.position, q.wap);
      -par.stoploss <= pnl && !(par.stopprofit < pnl)
    requires Elapsed(st.timer, q.nowMs, par.period)
    ensures var r := Decide(st, par, q, round);
      r.state == RiskState(false, q.nowMs / 1000, MarkToMarket(st.pnl, q.position, q.wap)) &&
      r.cmds == [CancelAll,
                 LimitBuy(par.orderQty, round(q.wap - q.offsets.bid, par.tickRound)),
                 LimitSell(par.orderQty, round(q.wap + q.offsets.ask, par.tickRound))] &&
      LimitNet(r.cmds) == 0.0 && MarketNet(r.cmds) == 0.0
  {
    var r := Decide(st, par, q, round);
    NetOfFew(r.cmds);
    NetOfFew(r.cmds[1..]);
    NetOfFew(r.cmds[1..][1..]);
    assert r.cmds[1..][1..][1..] == [];
  }

  /** Outside cooldown, with no stoploss and less than one period since the
      last action, nothing is sent; only pnl is refreshed. */
  lemma WaitsForPeriod(st: RiskState, par: Params, q: Quote, round: (real, nat) -> real)
    requires !st.inStoploss && Priced(q.position)
    requires -par.stoploss <= MarkToMarket(st.pnl, q.position, q.wap)
    requires !Elapsed(st.timer, q.nowMs, par.period)
    ensures Decide(st, par, q, round) == Step(st.(pnl := MarkToMarket(st.pnl, q.position, q.wap)), [])
  {
  }

  /** In cooldown nothing is sent and pnl and timer are untouched; the flag
      clears exactly when `stoploss_sleep / 1000` seconds have passed. */
  lemma CooldownStep(st: RiskState, par: Params, q: Quote, round: (real, nat) -> real)
    requires st.inStoploss
    ensures var r := Decide(st, par, q, round);
      r.cmds == [] && r.state.pnl == st.pnl && r.state.timer == st.timer &&
      (r.state.inStoploss <==> !Elapsed(st.timer, q.nowMs, par.stoplossSleep))
  {
  }

  /** Every quote of a run can be marked to market. */
  predicate AllPriced(qs: seq<Quote>)
  {
    forall i :: 0 <= i < |qs| ==> Priced(qs[i].position)
  }

  /** A sequence of ready ticks, commands concatenated in order. */
  function Run(st: RiskState, par: Params, qs: seq<Quote>, round: (real, nat) -> real): Step
    requires AllPriced(qs)
    decreases |qs|
  {
    if qs == [] then Step(st, [])
    else
      var s := Decide(st, par, qs[0], round);
      var rest := Run(s.state, par, qs[1..], round);
      Step(rest.state, s.cmds + rest.cmds)
  }

  /** While the cooldown has not run out, any number of ticks sends nothing
      and changes nothing. */
  lemma {:induction false} CooldownQuiet(st: RiskState, par: Params, qs: seq<Quote>, round: (real, nat) -> real)
    requires st.inStoploss && AllPriced(qs)
    requires forall i :: 0 <= i < |qs| ==> !Elapsed(st.timer, qs[i].nowMs, par.stoplossSleep)
    ensures Run(st, par, qs, round) == Step(st, [])
  {
    if qs != [] {
      CooldownStep(st, par, qs[0], round);
      assert Decide(st, par, qs[0], round) == Step(st, []);
      CooldownQuiet(st, par, qs[1..], round);
    }
  }

  /** A stoploss fires once per crossing: the tick that crosses sends the
      cancel and the flattening order, and the ticks that follow inside the
      cooldown send nothing more. */
  lemma {:induction false} StoplossOncePerCrossing(st: RiskState, par: Params, q: Quote, qs: seq<Quote>, round: (real, nat) -> real)
    requires !st.inStoploss && Priced(q.position) && AllPriced(qs)
    requires MarkToMarket(st.pnl, q.position, q.wap) < -par.stoploss
    requires forall i :: 0 <= i < |qs| ==> !Elapsed(q.nowMs / 1000, qs[i].nowMs, par.stoplossSleep)
    ensures AllPriced([q] + qs)
    ensures Run(st, par, [q] + qs, round) ==
            Step(RiskState(true, q.nowMs / 1000, 0.0), [CancelAll, Flatten(q.position.amount)])
  {
    var all := [q] + qs;
    assert all[0] == q && all[1..] == qs;
    assert AllPriced(all) by {
      forall i | 0 <= i < |all| ensures Priced(all[i].position) {
        if i > 0 { assert all[i] == qs[i - 1]; }
      }
    }
    var s := Decide(st, par, q, round);
    StoplossFlattens(st, par, q, round);
    CooldownQuiet(s.state, par, qs, round);
    assert s.cmds + [] == s.cmds;
  }

  /** The cooldown never ends before `stoploss_sleep` rounded down to whole
      seconds, less the one second lost by truncating the trigger time. */
  lemma CooldownNotEarly(triggerMs: nat, nowMs: nat, sleepMs: nat)
    requires Elapsed(triggerMs / 1000, nowMs, sleepMs)
    ensures nowMs - triggerMs > 1000 * (sleepMs / 1000) - 1000
  {
    assert 1000 * (nowMs / 1000) <= nowMs;
    assert triggerMs < 1000 * (triggerMs / 1000) + 1000;
  }

  /** Once `stoploss_sleep` milliseconds have passed the cooldown ends. */
  lemma CooldownEndsAfterSleep(triggerMs: nat, nowMs: nat, sleepMs: nat)
    requires nowMs >= triggerMs + sleepMs
    ensures Elapsed(triggerMs / 1000, nowMs, sleepMs)
  {
    var a, b := triggerMs / 1000, sleepMs / 1000;
    assert 1000 * a + 1000 * b <= triggerMs + sleepMs;
    assert 1000 * (a + b) <= nowMs;
    assert a + b <= nowMs / 1000;
  }

  /** Because the trigger time and the sleep are both truncated to whole
      seconds, a stoploss triggered at 1999 ms already ends at 2000 ms with a
      1000 ms sleep, and also with a 1999 ms sleep: 1998 ms early. */
  lemma CooldownCanEndEarly()
    ensures Elapsed(1999 / 1000, 2000, 1000) && 2000 - 1999 < 1000
    ensures Elapsed(1999 / 1000, 2000, 1999) && 1999 - (2000 - 1999) == 1998
  {
  }

  /** Long 5 at entry 100, weighted mid 97, stoploss 2%: pnl is -3%, so the
      engine cancels and market-sells 5. */
  lemma LongStoplossExample(round: (real, nat) -> real)
    ensures var q := Quote(1000, Position("BTCUSDT", 5.0, 100.0), 97.0, 96.9, 97.1, Offsets(0.0, 0.0));
      var par := Params(5.0, 1000, 0.02, 60000, 0.05, 1);
      Decide(RiskState(false, 0, 0.0), par, q, round) ==
        Step(RiskState(true, 1, 0.0), [CancelAll, MarketSell(5.0)])
  {
    var p := Position("BTCUSDT", 5.0, 100.0);
    assert MarkToMarket(0.0, p, 97.0) == 97.0 / 100.0 - 1.0;
  }
}
