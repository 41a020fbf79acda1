/** What the figures of internal/store/cost.go promise over the life of a row, and the spend total. */
module Billing {
  import opened Types
  import opened Instances

  /** Any write, or none, followed by the passing of time: the bill never drops. */
  lemma BillNeverDrops(r: Row, r': Row, now: int, later: int)
    requires RowOk(r, now) && RowOk(r', now) && Evolves(r, r', now) && now <= later
    ensures EstimatedCost(r, now) <= EstimatedCost(r', later)
  {
  }

  /** What is billed, in nanoseconds: from when the machine was first up, and for a minute at least. */
  function Billed(from: int, to: int): int { if to - from < 60_000_000_000 then 60_000_000_000 else to - from }

  /** A priced machine costs its rate per hour from when it was first up until it was closed, or until now; one that was
      never up, or has no price, costs nothing. */
  lemma BillIsRateTimesTime(r: Row, now: int)
    requires RowOk(r, now)
    ensures var end := if r.destroyedAt.Some? then r.destroyedAt.value else now;
            EstimatedCost(r, now) * 3_600_000_000_000.0 ==
            if r.activeAt.Some? && r.hourly > 0.0 then r.hourly * Billed(r.activeAt.value, end) as real else 0.0
  {
    if r.activeAt.Some? {
      var end := if r.destroyedAt.Some? then r.destroyedAt.value else now;
      HoursOf(r.hourly, Billed(r.activeAt.value, end));
    }
  }

  lemma HoursOf(rate: real, d: int)
    ensures rate * Hours(d) * 3_600_000_000_000.0 == rate * d as real
  {
  }

  /** Once the provider has reported the machine up, it costs at least one minute of its rate. */
  lemma AtLeastOneMinute(r: Row, now: int)
    requires RowOk(r, now) && r.activeAt.Some? && r.hourly > 0.0
    ensures EstimatedCost(r, now) >= r.hourly / 60.0 > 0.0
  {
    BillIsRateTimesTime(r, now);
    var end := if r.destroyedAt.Some? then r.destroyedAt.value else now;
    AMinuteAtLeast(EstimatedCost(r, now), r.hourly, Billed(r.activeAt.value, end) as real);
  }

  lemma AMinuteAtLeast(cost: real, rate: real, billed: real)
    requires rate > 0.0 && billed >= 60_000_000_000.0 && cost * 3_600_000_000_000.0 == rate * billed
    ensures cost >= rate / 60.0
  {
    assert rate * billed >= rate * 60_000_000_000.0;
  }

  /** The write that ends a destroy records what the machine was billed for and what it cost. */
  lemma CloseRecordsTheBill(r: Row, now: int)
    requires RowOk(r, now) && r.Live()
    ensures var c := Closed(r, now);
            && c.state == Deleted && c.destroyedAt == Some(now)
            && c == r.(state := Deleted, destroyedAt := c.destroyedAt, billedSeconds := c.billedSeconds, cost := c.cost)
            && (if r.activeAt.None? then c.billedSeconds == 0 && c.cost == 0.0
                else
                  && c.billedSeconds == Billed(r.activeAt.value, now) / 1_000_000_000
                  && c.cost * 3_600_000_000_000.0 == r.hourly * Billed(r.activeAt.value, now) as real)
  {
    if r.activeAt.Some? { HoursOf(r.hourly, Billed(r.activeAt.value, now)); }
  }

  /** Neither destroy's settlement nor the reaper's bare close makes the figure jump. */
  lemma NoJumpAtClose(r: Row, now: int)
    requires RowOk(r, now) && r.Live()
    ensures RowOk(Closed(r, now), now) && RowOk(Stamp(r, Deleted, now), now)
    ensures EstimatedCost(Closed(r, now), now) == EstimatedCost(r, now)
    ensures EstimatedCost(Stamp(r, Deleted, now), now) == EstimatedCost(r, now)
  {
  }

  /** A closed row's bill no longer depends on the clock. */
  lemma ClosedBillIsConstant(r: Row, now: int, t: int, t': int)
    requires RowOk(r, now) && r.state == Deleted
    ensures EstimatedCost(r, t) == EstimatedCost(r, t')
  {
  }

  // ---- totalSpend ----

  datatype Spend = Spend(usd: real, machines: nat, unpriced: nat)

  predicate Priced(r: Row) { r.activeAt.Some? && r.hourly > 0.0 }

  function CostSum(rows: seq<Row>, now: int): real {
    if rows == [] then 0.0
    else CostSum(rows[..|rows| - 1], now) + EstimatedCost(rows[|rows| - 1], now)
  }

  function Count(rows: seq<Row>, p: Row -> bool): (n: nat)
    ensures n <= |rows|
  {
    if rows == [] then 0
    else Count(rows[..|rows| - 1], p) + if p(rows[|rows| - 1]) then 1 else 0
  }

  /** The part of the sum that totalSpend adds up. */
  function PricedSum(rows: seq<Row>, now: int): real {
    if rows == [] then 0.0
    else
      var last := rows[|rows| - 1];
      PricedSum(rows[..|rows| - 1], now) + if Priced(last) then EstimatedCost(last, now) else 0.0
  }

  /** The loop skips machines that never came up and machines without a rate. */
  method TotalSpend(rows: seq<Row>, now: int) returns (s: Spend)
    ensures s.usd == PricedSum(rows, now)
    ensures s.machines == Count(rows, (r: Row) => r.activeAt.Some?)
    ensures s.unpriced == Count(rows, (r: Row) => r.activeAt.Some? && r.hourly <= 0.0)
  {
    s := Spend(0.0, 0, 0);
    for i := 0 to |rows|
      invariant s.usd == PricedSum(rows[..i], now)
      invariant s.machines == Count(rows[..i], (r: Row) => r.activeAt.Some?)
      invariant s.unpriced == Count(rows[..i], (r: Row) => r.activeAt.Some? && r.hourly <= 0.0)
    {
      assert rows[..i + 1][..i] == rows[..i];
      if rows[i].activeAt.None? { continue; }
      s := s.(machines := s.machines + 1);
      if rows[i].hourly <= 0.0 {
        s := s.(unpriced := s.unpriced + 1);
        continue;
      }
      s := s.(usd := s.usd + EstimatedCost(rows[i], now));
    }
    assert rows[..|rows|] == rows;
  }

  /** Over well-formed rows nothing is lost by skipping: the total is what all rows cost together. */
  lemma {:induction false} SkippedRowsCostNothing(rows: seq<Row>, now: int)
    requires forall r :: r in rows ==> RowOk(r, now)
    ensures PricedSum(rows, now) == CostSum(rows, now)
  {
    if rows != [] {
      var n := |rows| - 1;
      SkippedRowsCostNothing(rows[..n], now);
      if !Priced(rows[n]) { UnpricedCostsNothing(rows[n], now); }
    }
  }

  lemma UnpricedCostsNothing(r: Row, now: int)
    requires RowOk(r, now) && !Priced(r)
    ensures EstimatedCost(r, now) == 0.0
  {
  }

  /** Over a fixed set of rows the total only grows. */
  lemma {:induction false} SpendIsMonotone(rows: seq<Row>, rows': seq<Row>, now: int, later: int)
    requires |rows| == |rows'| && now <= later
    requires forall i :: 0 <= i < |rows| ==>
      RowOk(rows[i], now) && RowOk(rows'[i], now) && Evolves(rows[i], rows'[i], now)
    ensures PricedSum(rows, now) <= PricedSum(rows', later)
  {
    if rows != [] {
      var n := |rows| - 1;
      SpendIsMonotone(rows[..n], rows'[..n], now, later);
      BillNeverDrops(rows[n], rows'[n], now, later);
      if !Priced(rows[n]) { UnpricedCostsNothing(rows[n], now); }
    }
  }
}
