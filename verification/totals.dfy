/**
 * The aggregate figures the dashboard and the distribution chart show
 * (revenuetracker/script.js lines 67-69 and 165-167): sums of the amounts,
 * the community shares and the individual shares over the whole ledger.
 */
module Totals {
  import opened Wrappers
  import opened Shares
  import opened Ledger

  /** Which field of a transaction a sum runs over. */
  datatype Column = Amount | Individual | Community

  function Value(t: Transaction, c: Column): real
  {
    match c
    case Amount => t.amount
    case Individual => t.individualShare
    case Community => t.communityShare
  }

  /** The sum of column `c`, accumulated from the first transaction to the
      last starting at zero, as `reduce` does. */
  function Sum(l: seq<Transaction>, c: Column): real
    decreases |l|
  {
    if l == [] then 0.0 else Sum(l[..|l| - 1], c) + Value(l[|l| - 1], c)
  }

  /** Appending one transaction adds its value to the sum. */
  lemma SumAppend(l: seq<Transaction>, t: Transaction, c: Column)
    ensures Sum(l + [t], c) == Sum(l, c) + Value(t, c)
  {
    assert (l + [t])[..|l|] == l;
  }

  /** Over a valid ledger the community fund and the individual earnings
      together account for the whole revenue, and each is at most it. */
  lemma {:induction false} SplitTotals(l: seq<Transaction>)
    requires ValidLedger(l)
    ensures Sum(l, Individual) + Sum(l, Community) == Sum(l, Amount)
    ensures 0.0 <= Sum(l, Community) <= Sum(l, Individual) <= Sum(l, Amount)
    ensures l != [] ==> 0.0 < Sum(l, Community)
    decreases |l|
  {
    if l != [] {
      var t := l[|l| - 1];
      SplitTotals(l[..|l| - 1]);
      SplitIdentity(t.amount, t.activity);
    }
  }

  /** The three dashboard figures. */
  datatype Dashboard = Dashboard(totalRevenue: real, totalCommunityFund: real,
                                 totalIndividualEarnings: real)

  /** The dashboard totals of a ledger; `SplitTotals` relates them. */
  function DashboardOf(l: seq<Transaction>): Dashboard
  {
    Dashboard(Sum(l, Amount), Sum(l, Community), Sum(l, Individual))
  }

  /** One `reduce` over the ledger: a running total from left to right. */
  method Reduce(l: seq<Transaction>, c: Column) returns (total: real)
    ensures total == Sum(l, c)
  {
    total := 0.0;
    var i := 0;
    while i < |l|
      invariant 0 <= i <= |l|
      invariant total == Sum(l[..i], c)
    {
      assert l[..i + 1][..i] == l[..i];
      total := total + Value(l[i], c);
      i := i + 1;
    }
    assert l[..|l|] == l;
  }

  /** `updateDashboard`'s three reductions. */
  method UpdateDashboard(l: seq<Transaction>) returns (d: Dashboard)
    ensures d == DashboardOf(l)
  {
    var revenue := Reduce(l, Amount);
    var community := Reduce(l, Community);
    var individual := Reduce(l, Individual);
    d := Dashboard(revenue, community, individual);
  }

  /** The data of the distribution chart: individual earnings, then the
      community fund, the same figures the dashboard shows. */
  function DistributionData(l: seq<Transaction>): (data: seq<real>)
    ensures |data| == 2
    ensures data[0] == DashboardOf(l).totalIndividualEarnings
    ensures data[1] == DashboardOf(l).totalCommunityFund
  {
    [Sum(l, Individual), Sum(l, Community)]
  }

  /** Appending a transaction adds its amount and shares to the dashboard. */
  lemma AppendTotals(l: seq<Transaction>, t: Transaction)
    ensures DashboardOf(l + [t]) == Dashboard(
      DashboardOf(l).totalRevenue + t.amount,
      DashboardOf(l).totalCommunityFund + t.communityShare,
      DashboardOf(l).totalIndividualEarnings + t.individualShare)
  {
    SumAppend(l, t, Amount);
    SumAppend(l, t, Individual);
    SumAppend(l, t, Community);
  }

  /** Recording a transaction moves each dashboard figure by exactly that
      transaction's contribution; a refused submission moves none. */
  lemma AddRevenueTotals(ledger: seq<Transaction>, activity: Activity, amount: Option<real>,
                         beneficiaryInput: string, id: int, date: string)
    ensures var after := AddRevenue(ledger, activity, amount, beneficiaryInput, id, date);
      var d := DashboardOf(ledger);
      var d' := DashboardOf(after.ledger);
      if after.alert.Some? then d' == d
      else
        && d'.totalRevenue == d.totalRevenue + amount.value
        && d'.totalIndividualEarnings == d.totalIndividualEarnings + IndividualShare(amount.value, activity)
        && d'.totalCommunityFund == d.totalCommunityFund + CommunityShare(amount.value, activity)
  {
    var after := AddRevenue(ledger, activity, amount, beneficiaryInput, id, date);
    if after.alert.None? {
      AppendTotals(ledger, after.ledger[|ledger|]);
    }
  }

  /** The sum of the amounts of the accepted submissions among `entries`. */
  function AcceptedAmount(entries: seq<Entry>): real
  {
    if entries == [] then 0.0
    else
      var e := entries[|entries| - 1];
      AcceptedAmount(entries[..|entries| - 1]) + (if Accepted(e) then e.amount.value else 0.0)
  }

  /** After a session of submissions from an empty ledger, the total
      revenue is exactly the sum of the accepted amounts. */
  lemma {:induction false} ReplayRevenue(entries: seq<Entry>)
    ensures Sum(Replay([], entries), Amount) == AcceptedAmount(entries)
    decreases |entries|
  {
    if entries != [] {
      var init := entries[..|entries| - 1];
      var e := entries[|entries| - 1];
      ReplayRevenue(init);
      AddRevenueTotals(Replay([], init), e.activity, e.amount, e.beneficiary, e.id, e.date);
    }
  }
}
