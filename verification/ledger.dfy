/**
 * The transaction ledger and the `addRevenue` operation
 * (revenuetracker/script.js lines 2 and 33-57). The ledger is the ordered
 * list of recorded transactions; adding revenue validates the form inputs,
 * splits the amount by the revenue-share table and appends one record.
 */
module Ledger {
  import opened Wrappers
  import opened Shares
  import opened Text

  /** One recorded revenue entry. `id` and `date` come from the wall clock
      and are carried as given. */
  datatype Transaction = Transaction(
    id: int,
    date: string,
    activity: Activity,
    amount: real,
    beneficiary: string,
    individualShare: real,
    communityShare: real)

  /** The two ways a submission can be refused. */
  datatype ValidationError = InvalidAmount | MissingBeneficiary

  /** The alert text shown for each refusal. */
  function Message(e: ValidationError): string
  {
    match e
    case InvalidAmount => "Please enter a valid amount"
    case MissingBeneficiary => "Please enter beneficiary name"
  }

  /** The parsed amount is a number (not NaN) and strictly positive. */
  predicate ValidAmount(amount: Option<real>)
  {
    amount.Some? && amount.value > 0.0
  }

  /** The invariant of every recorded transaction: a positive amount, a
      non-empty beneficiary without surrounding whitespace, and shares
      computed from the table. */
  predicate Valid(t: Transaction)
  {
    && t.amount > 0.0
    && t.beneficiary != []
    && Trimmed(t.beneficiary)
    && t.individualShare == IndividualShare(t.amount, t.activity)
    && t.communityShare == CommunityShare(t.amount, t.activity)
  }

  /** Every transaction in the ledger satisfies the record invariant. */
  predicate ValidLedger(l: seq<Transaction>)
  {
    forall i :: 0 <= i < |l| ==> Valid(l[i])
  }

  /** Validates the form inputs and builds the transaction to record.
      The amount is checked first, so a bad amount is reported even when
      the beneficiary is missing too; a beneficiary of only whitespace
      counts as missing. */
  function NewTransaction(activity: Activity, amount: Option<real>, beneficiaryInput: string,
                          id: int, date: string): (r: Result<Transaction, ValidationError>)
    ensures r == Failure(InvalidAmount) <==> !ValidAmount(amount)
    ensures r == Failure(MissingBeneficiary) <==> ValidAmount(amount) && Blank(beneficiaryInput)
    ensures r.Success? <==> ValidAmount(amount) && !Blank(beneficiaryInput)
    ensures r.Success? ==>
      && Valid(r.value)
      && r.value.id == id && r.value.date == date
      && r.value.activity == activity
      && r.value.amount == amount.value
      && r.value.beneficiary == Trim(beneficiaryInput)
      && r.value.individualShare + r.value.communityShare == r.value.amount
      && 0.0 < r.value.communityShare < r.value.individualShare < r.value.amount
  {
    var beneficiary := Trim(beneficiaryInput);
    TrimEmptyIffBlank(beneficiaryInput);
    if amount.None? || amount.value <= 0.0 then
      Failure(InvalidAmount)
    else if beneficiary == [] then
      Failure(MissingBeneficiary)
    else
      var individual := IndividualShare(amount.value, activity);
      var community := CommunityShare(amount.value, activity);
      SplitIdentity(amount.value, activity);
      Success(Transaction(id, date, activity, amount.value, beneficiary, individual, community))
  }

  /** What a submission of the revenue form leaves behind: the ledger
      afterwards, and the alert raised instead of recording, if any. */
  datatype Outcome = Outcome(ledger: seq<Transaction>, alert: Option<ValidationError>)

  /** `addRevenue`: on bad input the ledger is left exactly as it was and
      the matching alert is raised; otherwise exactly one transaction is
      appended at the end and every earlier entry stays where it was. */
  function AddRevenue(ledger: seq<Transaction>, activity: Activity, amount: Option<real>,
                      beneficiaryInput: string, id: int, date: string): (r: Outcome)
    ensures r.alert == Some(InvalidAmount) <==> !ValidAmount(amount)
    ensures r.alert == Some(MissingBeneficiary) <==> ValidAmount(amount) && Blank(beneficiaryInput)
    ensures r.alert.Some? <==> r.ledger == ledger
    ensures r.alert.None? ==>
      && |r.ledger| == |ledger| + 1
      && r.ledger == ledger + [r.ledger[|ledger|]]
      && r.ledger[..|ledger|] == ledger
      && r.ledger[|ledger|].activity == activity
      && r.ledger[|ledger|].amount == amount.value
      && r.ledger[|ledger|].beneficiary == Trim(beneficiaryInput)
      && r.ledger[|ledger|].id == id && r.ledger[|ledger|].date == date
    ensures ValidLedger(ledger) ==> ValidLedger(r.ledger)
  {
    match NewTransaction(activity, amount, beneficiaryInput, id, date)
    case Failure(e) => Outcome(ledger, Some(e))
    case Success(t) =>
      AppendValid(ledger, t);
      Outcome(ledger + [t], None)
  }

  /** Appending a valid record keeps the ledger valid and keeps every
      earlier record in place. */
  lemma AppendValid(ledger: seq<Transaction>, t: Transaction)
    requires Valid(t)
    ensures (ledger + [t])[..|ledger|] == ledger
    ensures ValidLedger(ledger) ==> ValidLedger(ledger + [t])
  {
    assert (ledger + [t])[..|ledger|] == ledger;
    if ValidLedger(ledger) {
      forall i | 0 <= i < |ledger| + 1
        ensures Valid((ledger + [t])[i])
      {
        if i < |ledger| {
          assert (ledger + [t])[i] == ledger[i];
        }
      }
    }
  }

  /** A guided tour of 2000 for Alice is split 1400 to Alice and 600 to
      the community. */
  lemma GuidedTourScenario(id: int, date: string)
    ensures NewTransaction(GuidedTour, Some(2000.0), "Alice", id, date)
      == Success(Transaction(id, date, GuidedTour, 2000.0, "Alice", 1400.0, 600.0))
  {
    assert Trimmed("Alice");
    TrimOfTrimmed("Alice");
  }

  /** A handicraft sale of 100 for Bob is split 80 to Bob and 20 to the
      community. */
  lemma HandicraftScenario(id: int, date: string)
    ensures NewTransaction(Handicraft, Some(100.0), "Bob", id, date)
      == Success(Transaction(id, date, Handicraft, 100.0, "Bob", 80.0, 20.0))
  {
    assert Trimmed("Bob");
    TrimOfTrimmed("Bob");
  }

  /** A zero amount is refused as an invalid amount even when the
      beneficiary is blank too; a positive amount with a blank
      beneficiary is refused as a missing beneficiary. */
  lemma RefusalScenarios(id: int, date: string)
    ensures NewTransaction(Food, Some(0.0), "   ", id, date) == Failure(InvalidAmount)
    ensures NewTransaction(Food, None, "Carol", id, date) == Failure(InvalidAmount)
    ensures NewTransaction(Food, Some(5.0), " \t", id, date) == Failure(MissingBeneficiary)
  {
  }

  /** The inputs of one submission of the revenue form. */
  datatype Entry = Entry(activity: Activity, amount: Option<real>, beneficiary: string,
                         id: int, date: string)

  /** A submission that passes validation. */
  predicate Accepted(e: Entry)
  {
    ValidAmount(e.amount) && !Blank(e.beneficiary)
  }

  /** Submits `entries` one after another, starting from `ledger`. */
  function Replay(ledger: seq<Transaction>, entries: seq<Entry>): seq<Transaction>
    decreases |entries|
  {
    if entries == [] then ledger
    else
      var e := entries[|entries| - 1];
      AddRevenue(Replay(ledger, entries[..|entries| - 1]), e.activity, e.amount, e.beneficiary,
                 e.id, e.date).ledger
  }

  /** The number of accepted submissions among `entries`. */
  function AcceptedCount(entries: seq<Entry>): nat
  {
    if entries == [] then 0
    else AcceptedCount(entries[..|entries| - 1]) + (if Accepted(entries[|entries| - 1]) then 1 else 0)
  }

  /** The ledger is append-only: a session of submissions keeps the
      starting ledger as a prefix, grows by one entry per accepted
      submission, and keeps every record valid. Starting from the empty
      ledger, every reachable ledger is valid. */
  lemma {:induction false} ReplayAppendOnly(ledger: seq<Transaction>, entries: seq<Entry>)
    ensures |Replay(ledger, entries)| == |ledger| + AcceptedCount(entries)
    ensures Replay(ledger, entries)[..|ledger|] == ledger
    ensures ValidLedger(ledger) ==> ValidLedger(Replay(ledger, entries))
    decreases |entries|
  {
    if entries != [] {
      var init := entries[..|entries| - 1];
      ReplayAppendOnly(ledger, init);
      var before := Replay(ledger, init);
      assert before[..|ledger|] == ledger;
      var after := Replay(ledger, entries);
      assert after[..|before|] == before;
      assert after[..|ledger|] == before[..|ledger|];
    }
  }
}
