/** The salesman's home screen figures: today's sales, today's revenue, the visit count
    and the manager-assigned task list. The same "today's sales" sum is what the manager
    dashboard shows over all sales. */
module SalesmanDashboard {
  import opened Types
  import opened Text

  /** `sales.filter(s => s.timestamp.startsWith(today))`, order kept. */
  function TodaySales(sales: seq<SalesRecord>, today: string): (r: seq<SalesRecord>)
    ensures |r| <= |sales|
    ensures forall s :: s in r <==> s in sales && StartsWith(s.timestamp, today)
    ensures forall s :: multiset(r)[s] == if StartsWith(s.timestamp, today) then multiset(sales)[s] else 0
  {
    if sales == [] then []
    else
      assert sales == [sales[0]] + sales[1..];
      if StartsWith(sales[0].timestamp, today) then [sales[0]] + TodaySales(sales[1..], today)
      else TodaySales(sales[1..], today)
  }

  /** `records.reduce((sum, s) => sum + s.value, acc)`: a left fold. */
  function FoldValues(acc: real, records: seq<SalesRecord>): real
    decreases records
  {
    if records == [] then acc else FoldValues(acc + records[0].value, records[1..])
  }

  /** The sum of the values of a list of records. */
  function SumValues(records: seq<SalesRecord>): real {
    if records == [] then 0.0 else records[0].value + SumValues(records[1..])
  }

  /** The left fold started at `acc` is `acc` plus the sum. */
  lemma {:induction false} FoldIsSum(acc: real, records: seq<SalesRecord>)
    ensures FoldValues(acc, records) == acc + SumValues(records)
    decreases records
  {
    if records != [] {
      FoldIsSum(acc + records[0].value, records[1..]);
    }
  }

  /** Today's revenue, `todaySales.reduce((sum, s) => sum + s.value, 0)`. */
  function TodayRevenue(sales: seq<SalesRecord>, today: string): real {
    FoldValues(0.0, TodaySales(sales, today))
  }

  /** The number of visits: one per record of today, repeated shops included. */
  function TotalVisits(sales: seq<SalesRecord>, today: string): nat {
    |TodaySales(sales, today)|
  }

  /** Revenue is the sum of today's values, and 0 when nothing was sold today. */
  lemma RevenueIsSumOfToday(sales: seq<SalesRecord>, today: string)
    ensures TodayRevenue(sales, today) == SumValues(TodaySales(sales, today))
    ensures (forall i :: 0 <= i < |sales| ==> !StartsWith(sales[i].timestamp, today)) ==>
      TodayRevenue(sales, today) == 0.0 && TotalVisits(sales, today) == 0
  {
    FoldIsSum(0.0, TodaySales(sales, today));
    var t := TodaySales(sales, today);
    if t != [] {
      assert t[0] in t;
    }
  }

  /** Logging one more sale (at the front, as the store does) dated today adds exactly one
      visit and exactly its value to the revenue; a sale of another day changes neither. */
  lemma NewSaleUpdatesTotals(sales: seq<SalesRecord>, rec: SalesRecord, today: string)
    ensures StartsWith(rec.timestamp, today) ==>
      TotalVisits([rec] + sales, today) == TotalVisits(sales, today) + 1 &&
      TodayRevenue([rec] + sales, today) == TodayRevenue(sales, today) + rec.value
    ensures !StartsWith(rec.timestamp, today) ==>
      TotalVisits([rec] + sales, today) == TotalVisits(sales, today) &&
      TodayRevenue([rec] + sales, today) == TodayRevenue(sales, today)
  {
    assert ([rec] + sales)[1..] == sales;
    RevenueIsSumOfToday([rec] + sales, today);
    RevenueIsSumOfToday(sales, today);
  }

  /** `user.assignedTasks || []` */
  function Tasks(user: User): (r: seq<Task>)
    ensures user.assignedTasks.None? ==> r == []
    ensures user.assignedTasks.Some? ==> r == user.assignedTasks.value
  {
    TasksOf(user)
  }
}
