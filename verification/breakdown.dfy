/**
 * The per-activity totals fed to the activity chart
 * (revenuetracker/script.js lines 157-162): an object keyed by activity
 * type, filled in ledger order, whose keys come out in the order they were
 * first added. It is modelled as an association list of buckets.
 */
module Breakdown {
  import opened Shares
  import opened Ledger
  import opened Totals

  /** One entry of the totals object: an activity key and its running sum. */
  datatype Bucket = Bucket(activity: Activity, total: real)

  /** The keys of the totals object, in property order. */
  function Keys(b: seq<Bucket>): seq<Activity>
  {
    seq(|b|, i requires 0 <= i < |b| => b[i].activity)
  }

  /** The values of the totals object, in property order. */
  function Values(b: seq<Bucket>): seq<real>
  {
    seq(|b|, i requires 0 <= i < |b| => b[i].total)
  }

  /** The value stored under key `a`, or 0 when the key is absent. */
  function Lookup(b: seq<Bucket>, a: Activity): real
  {
    if b == [] then 0.0 else if b[0].activity == a then b[0].total else Lookup(b[1..], a)
  }

  /** The sum of all values of the totals object. */
  function Grand(b: seq<Bucket>): real
  {
    if b == [] then 0.0 else b[0].total + Grand(b[1..])
  }

  /** No activity occurs twice. */
  predicate Distinct(s: seq<Activity>)
  {
    forall i, j :: 0 <= i < j < |s| ==> s[i] != s[j]
  }

  /** The keys of a list with a bucket in front. */
  lemma KeysCons(h: Bucket, b: seq<Bucket>)
    ensures Keys([h] + b) == [h.activity] + Keys(b)
  {
  }

  /** `totals[a] = (totals[a] || 0) + x`: an existing key keeps its place
      and grows by `x`; a new key is added at the end with value `x`. No
      other key changes. */
  function Credit(b: seq<Bucket>, a: Activity, x: real): (r: seq<Bucket>)
    ensures Keys(r) == if a in Keys(b) then Keys(b) else Keys(b) + [a]
    ensures forall k :: Lookup(r, k) == Lookup(b, k) + (if k == a then x else 0.0)
    ensures Grand(r) == Grand(b) + x
  {
    if b == [] then [Bucket(a, x)]
    else if b[0].activity == a then
      var r := [Bucket(a, b[0].total + x)] + b[1..];
      assert b == [b[0]] + b[1..];
      KeysCons(b[0], b[1..]);
      KeysCons(r[0], b[1..]);
      assert Keys(b)[0] == a;
      assert r[1..] == b[1..];
      r
    else
      var rest := Credit(b[1..], a, x);
      var r := [b[0]] + rest;
      KeysCons(b[0], b[1..]);
      KeysCons(b[0], rest);
      assert r[1..] == rest;
      assert b == [b[0]] + b[1..];
      r
  }

  /** `activityTotals` after the `forEach` over the ledger. */
  function ActivityTotals(l: seq<Transaction>): seq<Bucket>
    decreases |l|
  {
    if l == [] then []
    else Credit(ActivityTotals(l[..|l| - 1]), l[|l| - 1].activity, l[|l| - 1].amount)
  }

  /** The activity of each transaction, in ledger order. */
  function Activities(l: seq<Transaction>): seq<Activity>
  {
    seq(|l|, i requires 0 <= i < |l| => l[i].activity)
  }

  /** The position of the first occurrence of `a` in `s`. */
  function FirstIndex(s: seq<Activity>, a: Activity): (r: nat)
    requires a in s
    ensures r < |s| && s[r] == a
    ensures forall j :: 0 <= j < r ==> s[j] != a
  {
    if s[0] == a then 0 else 1 + FirstIndex(s[1..], a)
  }

  /** Appending to a sequence does not move the first occurrence of an
      element that was already there. */
  lemma FirstIndexAppend(s: seq<Activity>, t: Activity, a: Activity)
    requires a in s
    ensures FirstIndex(s + [t], a) == FirstIndex(s, a)
  {
    var i := FirstIndex(s, a);
    assert (s + [t])[i] == a;
  }

  /** The transactions of one activity, in ledger order. */
  function Filter(l: seq<Transaction>, a: Activity): seq<Transaction>
    decreases |l|
  {
    if l == [] then []
    else Filter(l[..|l| - 1], a) + (if l[|l| - 1].activity == a then [l[|l| - 1]] else [])
  }

  /** The revenue of one activity: the sum of the amounts of its transactions. */
  function RevenueOf(l: seq<Transaction>, a: Activity): real
  {
    Sum(Filter(l, a), Amount)
  }

  /** One step of the `forEach`: the keys grow by the new activity only
      when it is not a key yet. */
  lemma ActivityTotalsKeysStep(l: seq<Transaction>)
    requires l != []
    ensures var k := Keys(ActivityTotals(l[..|l| - 1]));
      var a := l[|l| - 1].activity;
      Keys(ActivityTotals(l)) == if a in k then k else k + [a]
  {
    var init := l[..|l| - 1];
    var t := l[|l| - 1];
    assert ActivityTotals(l) == Credit(ActivityTotals(init), t.activity, t.amount);
  }

  lemma ActivitiesAppend(l: seq<Transaction>)
    requires l != []
    ensures Activities(l) == Activities(l[..|l| - 1]) + [l[|l| - 1].activity]
  {
  }

  /** The keys of the totals are exactly the activities occurring in the
      ledger, and none occurs twice. */
  lemma {:induction false} ActivityTotalsKeys(l: seq<Transaction>)
    ensures Distinct(Keys(ActivityTotals(l)))
    ensures forall a :: a in Keys(ActivityTotals(l)) <==> a in Activities(l)
    decreases |l|
  {
    if l != [] {
      ActivityTotalsKeys(l[..|l| - 1]);
      ActivityTotalsKeysStep(l);
      ActivitiesAppend(l);
    }
  }

  /** The keys of the totals are ordered by where each activity first
      occurs in the ledger. */
  lemma {:induction false} ActivityTotalsOrder(l: seq<Transaction>)
    ensures forall a :: a in Keys(ActivityTotals(l)) ==> a in Activities(l)
    ensures forall i, j :: 0 <= i < j < |ActivityTotals(l)| ==>
      FirstIndex(Activities(l), Keys(ActivityTotals(l))[i])
        < FirstIndex(Activities(l), Keys(ActivityTotals(l))[j])
    decreases |l|
  {
    ActivityTotalsKeys(l);
    if l != [] {
      var init := l[..|l| - 1];
      var a := l[|l| - 1].activity;
      ActivityTotalsOrder(init);
      ActivityTotalsKeys(init);
      ActivityTotalsKeysStep(l);
      ActivitiesAppend(l);
      OrderStep(Activities(init), a, Keys(ActivityTotals(init)), Keys(ActivityTotals(l)));
    }
  }

  /** One step of the ordering argument, on the activity and key lists
      alone: appending activity `a` to `acts` keeps the keys in order of
      first occurrence, whether `a` is already a key or becomes the last. */
  lemma OrderStep(acts: seq<Activity>, a: Activity, k: seq<Activity>, k': seq<Activity>)
    requires forall x :: x in k <==> x in acts
    requires forall i, j :: 0 <= i < j < |k| ==> FirstIndex(acts, k[i]) < FirstIndex(acts, k[j])
    requires k' == if a in k then k else k + [a]
    ensures forall x :: x in k' ==> x in acts + [a]
    ensures forall i, j :: 0 <= i < j < |k'| ==>
      FirstIndex(acts + [a], k'[i]) < FirstIndex(acts + [a], k'[j])
  {
    forall i | 0 <= i < |k|
      ensures FirstIndex(acts + [a], k[i]) == FirstIndex(acts, k[i])
    {
      FirstIndexAppend(acts, a, k[i]);
    }
    if a !in k {
      assert FirstIndex(acts + [a], a) == |acts|;
      forall i, j | 0 <= i < j < |k'|
        ensures FirstIndex(acts + [a], k'[i]) < FirstIndex(acts + [a], k'[j])
      {
        assert k'[i] == k[i];
        if j < |k| {
          assert k'[j] == k[j];
        }
      }
    }
  }

  /** Each key's value is the revenue of that activity, and an activity
      with no transactions reads as 0. */
  lemma {:induction false} ActivityTotalsValues(l: seq<Transaction>, a: Activity)
    ensures Lookup(ActivityTotals(l), a) == RevenueOf(l, a)
    decreases |l|
  {
    if l != [] {
      var init := l[..|l| - 1];
      var t := l[|l| - 1];
      ActivityTotalsValues(init, a);
      if t.activity == a {
        SumAppend(Filter(init, a), t, Amount);
      } else {
        assert Filter(l, a) == Filter(init, a);
      }
    }
  }

  /** The values of the totals add up to the total revenue. */
  lemma {:induction false} ActivityTotalsGrand(l: seq<Transaction>)
    ensures Grand(ActivityTotals(l)) == Sum(l, Amount)
    decreases |l|
  {
    if l != [] {
      ActivityTotalsGrand(l[..|l| - 1]);
    }
  }

  /** With distinct keys, the value found under a bucket's key is that
      bucket's own value. */
  lemma {:induction false} LookupDistinct(b: seq<Bucket>, i: nat)
    requires Distinct(Keys(b)) && i < |b|
    ensures Lookup(b, b[i].activity) == b[i].total
    decreases |b|
  {
    if i > 0 {
      assert Keys(b)[0] != Keys(b)[i];
      assert Keys(b[1..]) == Keys(b)[1..];
      LookupDistinct(b[1..], i - 1);
    }
  }

  /** The sum of a list of chart values. */
  function SumReals(s: seq<real>): real
  {
    if s == [] then 0.0 else s[0] + SumReals(s[1..])
  }

  /** Summing the chart values gives the sum of the totals. */
  lemma {:induction false} GrandIsSumOfValues(b: seq<Bucket>)
    ensures SumReals(Values(b)) == Grand(b)
    decreases |b|
  {
    if b != [] {
      assert Values(b)[1..] == Values(b[1..]);
      GrandIsSumOfValues(b[1..]);
    }
  }

  /** The data handed to the activity chart: one label and one value per
      key of the totals. */
  datatype ChartData = ChartData(labels: seq<string>, data: seq<real>)

  /** The activity chart shows each occurring activity once, under its
      label, with that activity's revenue, and its values add up to the
      total revenue. */
  function ActivityChart(l: seq<Transaction>): (c: ChartData)
    ensures |c.labels| == |c.data| == |ActivityTotals(l)|
    ensures forall i :: 0 <= i < |c.labels| ==>
      c.labels[i] == Label(ActivityTotals(l)[i].activity)
      && c.data[i] == RevenueOf(l, ActivityTotals(l)[i].activity)
    ensures forall i, j :: 0 <= i < j < |c.labels| ==> c.labels[i] != c.labels[j]
    ensures SumReals(c.data) == Sum(l, Amount)
  {
    var b := ActivityTotals(l);
    ActivityTotalsKeys(l);
    ActivityTotalsOrder(l);
    ActivityTotalsGrand(l);
    GrandIsSumOfValues(b);
    forall i | 0 <= i < |b|
      ensures b[i].total == RevenueOf(l, b[i].activity)
    {
      LookupDistinct(b, i);
      ActivityTotalsValues(l, b[i].activity);
    }
    forall i, j | 0 <= i < j < |b|
      ensures Label(b[i].activity) != Label(b[j].activity)
    {
      assert Keys(b)[i] != Keys(b)[j];
      LabelInjective(b[i].activity, b[j].activity);
    }
    ChartData(seq(|b|, i requires 0 <= i < |b| => Label(b[i].activity)), Values(b))
  }

  /** A homestay of 1000 followed by a meal of 500 gives the totals
      homestay 1000 then food 500. */
  lemma ActivityTotalsScenario(t1: Transaction, t2: Transaction)
    requires t1.activity == Homestay && t1.amount == 1000.0
    requires t2.activity == Food && t2.amount == 500.0
    ensures ActivityTotals([t1, t2]) == [Bucket(Homestay, 1000.0), Bucket(Food, 500.0)]
  {
    assert [t1, t2][..1] == [t1];
    assert [t1][..0] == [];
    var one := ActivityTotals([t1]);
    assert ActivityTotals([]) == [];
    assert one == Credit(ActivityTotals([]), Homestay, 1000.0);
    assert one == [Bucket(Homestay, 1000.0)];
    assert ActivityTotals([t1, t2]) == Credit(one, Food, 500.0);
    assert one[1..] == [];
    assert Credit(one, Food, 500.0) == [one[0]] + Credit([], Food, 500.0);
  }

  /** `updateCharts`'s `forEach` loop, filling the totals object one
      transaction at a time. */
  method UpdateActivityTotals(l: seq<Transaction>) returns (totals: seq<Bucket>)
    ensures totals == ActivityTotals(l)
  {
    totals := [];
    for i := 0 to |l|
      invariant totals == ActivityTotals(l[..i])
    {
      assert l[..i + 1][..i] == l[..i];
      totals := Credit(totals, l[i].activity, l[i].amount);
    }
    assert l[..|l|] == l;
  }
}
