/** Money rounding, trade result and R-multiple, over exact reals. */
module Metrics {
  import opened Common

  datatype TradeResult = TP | SL | BE

  const DEFAULT_RISK: real := 1.0

  /** Math.round: the nearest integer, ties towards +infinity. */
  function Round(x: real): int {
    (x + 0.5).Floor
  }

  function RoundMoney(value: real): real {
    Round(value * 100.0) as real / 100.0
  }

  function RoundPercent(value: real): real {
    Round(value * 10000.0) as real / 10000.0
  }

  /** An amount of whole cents. */
  function Cents(n: int): real {
    n as real / 100.0
  }

  function Abs(x: real): real {
    if x < 0.0 then -x else x
  }

  function GetTradeResult(pnl: real, nominal: real): TradeResult {
    if nominal > 0.0 && Abs(pnl / nominal * 100.0) < 0.1 then BE
    else if nominal == 0.0 && pnl == 0.0 then BE
    else if pnl > 0.0 then TP else SL
  }

  /** `nominal <= 0` is the unknown account size. */
  function ProfitPercentage(profitMoney: real, nominal: real): Option<real> {
    if nominal <= 0.0 then None else Some(RoundPercent(profitMoney / nominal * 100.0))
  }

  function TradeRr(profitMoney: real, profitPercentage: Option<real>, nominal: real, risk: real): Option<real> {
    if risk <= 0.0 then None
    else if nominal > 0.0 then
      var riskMoney := nominal * risk / 100.0;
      if riskMoney == 0.0 then None else Some(profitMoney / riskMoney)
    else match profitPercentage
      case Some(p) => Some(p / risk)
      case None => None
  }

  /** Rounding gives the nearest cent, and leaves whole cents alone. */
  lemma RoundMoneyNearest(x: real)
    ensures -0.005 <= RoundMoney(x) - x <= 0.005
    ensures RoundMoney(RoundMoney(x)) == RoundMoney(x)
  {
    var n := Round(x * 100.0);
    assert x * 100.0 - 0.5 < n as real <= x * 100.0 + 0.5;
    RoundCents(n);
  }

  lemma RoundCents(n: int)
    ensures RoundMoney(Cents(n)) == Cents(n)
  {
    var x := n as real;
    assert x / 100.0 * 100.0 == x;
    assert (x + 0.5).Floor == n;
    assert RoundMoney(Cents(n)) == Round(x / 100.0 * 100.0) as real / 100.0;
  }

  lemma CentsAdd(a: int, b: int)
    ensures Cents(a) + Cents(b) == Cents(a + b)
  {
  }

  /** The R-multiple times the money at risk is the profit, and carries its sign. */
  lemma RrMeansProfit(profit: real, pct: Option<real>, nominal: real, risk: real)
    requires nominal > 0.0 && risk > 0.0
    ensures TradeRr(profit, pct, nominal, risk).Some?
    ensures TradeRr(profit, pct, nominal, risk).value * (nominal * risk / 100.0) == profit
  {
    PositiveProduct(nominal, risk);
    var riskMoney := nominal * risk / 100.0;
    DivideBack(profit, riskMoney);
  }

  /** An R-multiple can be computed exactly for a known account size and a positive risk. */
  lemma RrComputable(gross: real, nominal: real, risk: real)
    ensures TradeRr(gross, ProfitPercentage(gross, nominal), nominal, risk).Some? <==> nominal > 0.0 && risk > 0.0
  {
    if nominal > 0.0 && risk > 0.0 { RrMeansProfit(gross, ProfitPercentage(gross, nominal), nominal, risk); }
  }

  /** The profit percentage is the exact one to the nearest 0.0001. */
  lemma PercentNearest(profit: real, nominal: real)
    requires nominal > 0.0
    ensures ProfitPercentage(profit, nominal).Some?
    ensures -0.00005 <= ProfitPercentage(profit, nominal).value - profit / nominal * 100.0 <= 0.00005
  {
    var x := profit / nominal * 100.0;
    assert x * 10000.0 - 0.5 < Round(x * 10000.0) as real <= x * 10000.0 + 0.5;
  }

  /** A trade breaks even exactly within a thousandth of the account size, or at zero on an account of size zero. */
  lemma BreakEvenExactly(pnl: real, nominal: real)
    ensures GetTradeResult(pnl, nominal) == BE <==>
              (nominal > 0.0 && -(nominal / 1000.0) < pnl < nominal / 1000.0) || (nominal == 0.0 && pnl == 0.0)
    ensures GetTradeResult(pnl, nominal) == TP <==> GetTradeResult(pnl, nominal) != BE && pnl > 0.0
    ensures GetTradeResult(pnl, nominal) == SL <==> GetTradeResult(pnl, nominal) != BE && pnl <= 0.0
  {
    if nominal > 0.0 {
      DivideBack(pnl, nominal);
      Within(pnl / nominal, pnl, nominal);
    }
  }

  lemma Within(q: real, pnl: real, nominal: real)
    requires nominal > 0.0 && q * nominal == pnl
    ensures Abs(q * 100.0) < 0.1 <==> -(nominal / 1000.0) < pnl < nominal / 1000.0
  {
    Below(q, pnl, nominal);
    Negated(q, nominal);
    Below(-q, -pnl, nominal);
  }

  lemma Below(q: real, pnl: real, nominal: real)
    requires nominal > 0.0 && q * nominal == pnl
    ensures q < 0.001 <==> pnl < nominal / 1000.0
  {
    ScaleLess(q, 0.001, nominal);
    Thousandth(nominal);
  }

  lemma Thousandth(x: real)
    ensures 0.001 * x == x / 1000.0
  {
  }

  lemma Negated(q: real, k: real)
    ensures (-q) * k == -(q * k)
  {
  }

  lemma ScaleLess(a: real, b: real, k: real)
    requires k > 0.0
    ensures a < b <==> a * k < b * k
  {
  }

  lemma PositiveProduct(a: real, b: real)
    requires a > 0.0 && b > 0.0
    ensures a * b / 100.0 > 0.0
  {
  }

  lemma DivideBack(a: real, b: real)
    requires b != 0.0
    ensures a / b * b == a
  {
  }
}
