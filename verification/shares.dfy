/**
 * The fixed revenue-sharing configuration of the tracker: the four tourism
 * activity types, the individual/community percentage split for each, and
 * the display label of each (revenuetracker/script.js lines 5-17).
 */
module Shares {
  import opened Wrappers

  /** The closed set of activity types the revenue form offers. */
  datatype Activity = Homestay | GuidedTour | Food | Handicraft

  /** A percentage pair: the part of an amount kept by the individual and
      the part paid into the community fund. */
  datatype Split = Split(individual: nat, community: nat)

  /** The revenue-share table. Every entry divides the whole amount:
      the two percentages add up to 100, and neither side is empty. */
  function ShareOf(a: Activity): (p: Split)
    ensures p.individual + p.community == 100
    ensures 0 < p.individual < 100 && 0 < p.community < 100
    ensures p.community < p.individual
  {
    match a
    case Homestay => Split(60, 40)
    case GuidedTour => Split(70, 30)
    case Food => Split(65, 35)
    case Handicraft => Split(80, 20)
  }

  /** The individual part of `amount`: the amount times the percentage,
      divided by 100, in exact arithmetic. */
  function IndividualShare(amount: real, a: Activity): real
  {
    (amount * (ShareOf(a).individual as real)) / 100.0
  }

  /** The community-fund part of `amount`. */
  function CommunityShare(amount: real, a: Activity): real
  {
    (amount * (ShareOf(a).community as real)) / 100.0
  }

  /** Splitting a positive amount loses and invents nothing: the two shares
      add back up to the amount, and each is a proper positive part of it. */
  lemma SplitIdentity(amount: real, a: Activity)
    requires amount > 0.0
    ensures IndividualShare(amount, a) + CommunityShare(amount, a) == amount
    ensures 0.0 < IndividualShare(amount, a) < amount
    ensures 0.0 < CommunityShare(amount, a) < amount
    ensures CommunityShare(amount, a) < IndividualShare(amount, a)
  {
  }

  /** The key under which the table stores an activity; this is also the
      value of a transaction's `activityType` field. */
  function Key(a: Activity): string
  {
    match a
    case Homestay => "homestay"
    case GuidedTour => "guided-tour"
    case Food => "food"
    case Handicraft => "handicraft"
  }

  /** Looks a key up among the table's own keys; only the four own keys
      are found. JavaScript's property lookup also finds names inherited
      from `Object.prototype`; those are not modelled. `Key`, `FromKey` and
      `KeyRoundTrip` are standalone facts about the table's key set: the
      ledger itself stores an `Activity`, not its key string. */
  function FromKey(key: string): (r: Option<Activity>)
    ensures r.Some? ==> Key(r.value) == key
  {
    if key == "homestay" then Some(Homestay)
    else if key == "guided-tour" then Some(GuidedTour)
    else if key == "food" then Some(Food)
    else if key == "handicraft" then Some(Handicraft)
    else None
  }

  /** Keys and activities correspond one to one: a key found in the table
      is exactly the key of some activity. */
  lemma KeyRoundTrip(a: Activity, key: string)
    ensures FromKey(Key(a)) == Some(a)
    ensures FromKey(key) == Some(a) <==> key == Key(a)
  {
  }

  /** The human-readable label shown for an activity in the table and chart. */
  function Label(a: Activity): string
  {
    match a
    case Homestay => "Homestay"
    case GuidedTour => "Guided Tour"
    case Food => "Local Cuisine"
    case Handicraft => "Handicrafts"
  }

  /** Different activities are shown under different labels. */
  lemma LabelInjective(a: Activity, b: Activity)
    ensures Label(a) == Label(b) <==> a == b
  {
  }
}
