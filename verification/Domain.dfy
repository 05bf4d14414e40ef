/** Markets, fills and trade identifiers. `Decimal` amounts are modelled as `real`. */
module Domain {
  import opened Common

  datatype Market = KR | US | COIN

  datatype Side = Buy | Sell

  /** A fill event. `execId` and `orderId` are `None` when the broker gave none. */
  datatype FillFields = FillFields(
    orderId: Option<string>, market: Market, symbol: string, side: Side, qty: real, price: real,
    execId: Option<string>, ts: string, retry: int, fee: real)

  /** Fills carry a timestamp their validator has admitted; quantities may have any sign. */
  type Fill = f: FillFields | ValidTs(f.ts)
    witness FillFields(None, KR, "", Buy, 0.0, 0.0, None, "000000000000", 0, 0.0)

  /** The broker's execution id when there is one, else a key built from the fill itself.
      The source renders the fallback as one string; here its parts stay apart. */
  datatype TradeId =
    | Executed(id: string)
    | Derived(market: Market, symbol: string, side: Side, ts: string, qty: real, price: real, order: string)

  function IdOf(f: Fill): TradeId {
    if f.execId.Some? && f.execId.value != "" then Executed(f.execId.value)
    else
      var order := if f.orderId.Some? && f.orderId.value != "" then f.orderId.value else "na";
      Derived(f.market, f.symbol, f.side, f.ts, f.qty, f.price, if |order| <= 64 then order else order[..64])
  }

  // ----- Timestamps -----------------------------------------------------------

  /** Korean time is nine hours ahead of UTC. */
  const KST_OFFSET_MS := 32400000
  const DAY_MS := 86400000

  predicate IsDigit(c: char) { '0' <= c <= '9' }

  /** What the `FillEvent` validator admits: twelve to fourteen digits. */
  predicate ValidTs(s: string) {
    12 <= |s| <= 14 && forall i :: 0 <= i < |s| ==> IsDigit(s[i])
  }

  function ParseNat(s: string): nat
    requires forall i :: 0 <= i < |s| ==> IsDigit(s[i])
  {
    if s == [] then 0
    else
      assert IsDigit(s[|s| - 1]);
      10 * ParseNat(s[..|s| - 1]) + (s[|s| - 1] - '0') as nat
  }

  /** `_to_ts_ms` on validated timestamps: at most thirteen digits are kept, a shorter
      number is taken for seconds. */
  function TsMs(s: string): int
    requires ValidTs(s)
  {
    if |s| >= 13 then ParseNat(s[..13]) else ParseNat(s) * 1000
  }

  /** The validator admits twelve to fourteen digits as milliseconds, but the ledger keeps
      that number only when it has thirteen digits or is zero: twelve-digit times are
      scaled up as if they were seconds and fourteen-digit ones lose their last digit. */
  lemma TsKeptIffThirteenDigits(s: string)
    requires ValidTs(s)
    ensures TsMs(s) == ParseNat(s) <==> (|s| == 13 || ParseNat(s) == 0)
  {
    if |s| == 13 {
      assert s[..13] == s;
    } else if |s| == 14 {
      assert s[..|s| - 1] == s[..13];
    }
  }

  function Pow10(n: nat): nat { if n == 0 then 1 else 10 * Pow10(n - 1) }

  predicate AllDigits(s: string) { forall i :: 0 <= i < |s| ==> IsDigit(s[i]) }

  lemma {:induction false} DigitsBound(s: string)
    requires AllDigits(s)
    ensures ParseNat(s) < Pow10(|s|)
  {
    if s == [] {
    } else {
      DigitsBound(s[..|s| - 1]);
      assert IsDigit(s[|s| - 1]);
    }
  }

  /** Digit strings of one length are ordered by their first difference. As there are as many of
      them as values below the bound, each has the value it is read as. */
  lemma {:induction false} EarlierDigitDecides(s: string, t: string, i: nat)
    requires AllDigits(s) && AllDigits(t) && |s| == |t| && i < |s| && s[..i] == t[..i] && s[i] < t[i]
    ensures ParseNat(s) < ParseNat(t)
    decreases |s|
  {
    var n := |s| - 1;
    assert IsDigit(s[n]) && IsDigit(t[n]);
    if i < n {
      assert s[..n][..i] == t[..n][..i];
      EarlierDigitDecides(s[..n], t[..n], i);
    } else {
      assert s[..n] == t[..n];
    }
  }

  /** The bound is reached: nines all through are one less. */
  lemma {:induction false} NinesTell(n: nat)
    ensures var s := seq(n, _ => '9');
      AllDigits(s) && ParseNat(s) == Pow10(n) - 1 && (ValidTs(s) <==> 12 <= n <= 14)
  {
    if n > 0 {
      NinesTell(n - 1);
      assert seq(n, _ => '9')[..n - 1] == seq(n - 1, _ => '9');
    }
  }

  /** Times as stored, in milliseconds. Read as decimal numbers, thirteen digits are kept, twelve
      are multiplied by a thousand, and of fourteen the last is cut off. */
  lemma {:induction false} TsTells(s: string)
    requires ValidTs(s)
    ensures |s| == 12 ==> TsMs(s) == 1000 * ParseNat(s)
    ensures |s| == 13 ==> TsMs(s) == ParseNat(s)
    ensures |s| == 14 ==> 10 * TsMs(s) <= ParseNat(s) < 10 * TsMs(s) + 10
  {
    if |s| == 13 {
      assert s[..13] == s;
    } else if |s| == 14 {
      assert s[..|s| - 1] == s[..13] && IsDigit(s[13]);
    }
  }
}
