/**
 * The rows of the transaction table: `slice(-10).reverse()` of the ledger
 * (revenuetracker/script.js line 82), the most recent transaction first.
 */
module Recent {
  import opened Ledger

  /** How many transactions the table shows. */
  const RecentLimit: nat := 10

  function Min(a: nat, b: nat): nat
  {
    if a <= b then a else b
  }

  /** The elements of `s` in the opposite order. */
  function Reverse<T>(s: seq<T>): (r: seq<T>)
    ensures |r| == |s|
    ensures forall i :: 0 <= i < |s| ==> r[i] == s[|s| - 1 - i]
    decreases |s|
  {
    if s == [] then [] else [s[|s| - 1]] + Reverse(s[..|s| - 1])
  }

  /** `slice(-n)` for a positive `n`: the last `n` elements, or all of
      them when there are fewer. */
  function Last<T>(s: seq<T>, n: nat): (r: seq<T>)
    requires n > 0
    ensures |r| == Min(n, |s|)
    ensures forall i :: 0 <= i < |r| ==> r[i] == s[|s| - |r| + i]
  {
    if |s| <= n then s else s[|s| - n..]
  }

  /** The table rows: at most ten transactions, the newest first, and row
      `i` is the transaction `i` places before the newest. */
  function RecentTransactions(l: seq<Transaction>): (r: seq<Transaction>)
    ensures |r| == Min(RecentLimit, |l|)
    ensures forall i :: 0 <= i < |r| ==> r[i] == l[|l| - 1 - i]
  {
    Reverse(Last(l, RecentLimit))
  }

  /** Recording a transaction puts it at the top of the table and pushes
      the other rows down by one, dropping the oldest row once the table
      is full. */
  lemma RecentAfterAppend(l: seq<Transaction>, t: Transaction)
    ensures RecentTransactions(l + [t])
      == [t] + RecentTransactions(l)[..Min(RecentLimit - 1, |l|)]
  {
    NewestFirstAppend(l, t, RecentTransactions(l + [t]), RecentTransactions(l));
  }

  /** A list holding the newest entries first, rebuilt after one append. */
  lemma NewestFirstAppend<T>(l: seq<T>, t: T, r: seq<T>, r0: seq<T>)
    requires |r| == Min(RecentLimit, |l| + 1) && |r0| == Min(RecentLimit, |l|)
    requires forall i :: 0 <= i < |r| ==> r[i] == (l + [t])[|l| - i]
    requires forall i :: 0 <= i < |r0| ==> r0[i] == l[|l| - 1 - i]
    ensures r == [t] + r0[..Min(RecentLimit - 1, |l|)]
  {
    var expected := [t] + r0[..Min(RecentLimit - 1, |l|)];
    assert |r| == |expected|;
    forall i | 0 <= i < |r|
      ensures r[i] == expected[i]
    {
      if i > 0 {
        assert r0[i - 1] == l[|l| - i];
      }
    }
  }
}
