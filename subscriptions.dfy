/** The nightly subscription check: expired subscriptions are marked EXPIRED,
    and ACTIVE ones that run out within three days are marked EXPIRING_SOON. */
module SubscriptionService {
  import opened Schema

  /** The window of the expiring-soon warning. */
  const WarningWindow: int := 3 * MillisPerDay

  /** The subscription ran out before `today`. */
  predicate ExpiredBy(s: Subscription, today: Timestamp) {
    s.expiresAt < today
  }

  /** The subscription runs out strictly after `today` and strictly before
      three days later. */
  predicate ExpiresSoon(s: Subscription, today: Timestamp) {
    today < s.expiresAt < today + WarningWindow
  }

  /** The status the check leaves a subscription in. */
  function CheckedStatus(s: Subscription, today: Timestamp): (st: SubscriptionStatus)
    ensures ExpiredBy(s, today) ==> st == EXPIRED
    ensures ExpiresSoon(s, today) && s.status == SubscriptionStatus.ACTIVE ==> st == EXPIRING_SOON
    ensures !ExpiredBy(s, today) && !(ExpiresSoon(s, today) && s.status == SubscriptionStatus.ACTIVE) ==> st == s.status
  {
    if ExpiredBy(s, today) && s.status != EXPIRED then EXPIRED
    else if ExpiresSoon(s, today) && s.status == SubscriptionStatus.ACTIVE then EXPIRING_SOON
    else s.status
  }

  function Checked(s: Subscription, today: Timestamp): Subscription {
    s.(status := CheckedStatus(s, today))
  }

  /** The check: one pass over every subscription, each updated in place by
      the two rules in turn. */
  method CheckSubscriptions(db: Db, today: Timestamp)
    requires db.Valid()
    modifies db`subscriptions
    ensures db.Valid()
    ensures |db.subscriptions| == |old(db.subscriptions)|
    ensures forall i :: 0 <= i < |db.subscriptions| ==> db.subscriptions[i] == Checked(old(db.subscriptions[i]), today)
  {
    var i := 0;
    while i < |db.subscriptions|
      invariant 0 <= i <= |db.subscriptions| == |old(db.subscriptions)|
      invariant forall k :: 0 <= k < i ==> db.subscriptions[k] == Checked(old(db.subscriptions[k]), today)
      invariant forall k :: i <= k < |db.subscriptions| ==> db.subscriptions[k] == old(db.subscriptions[k])
    {
      var sub := db.subscriptions[i];
      if sub.expiresAt < today && sub.status != EXPIRED {
        db.subscriptions := db.subscriptions[i := sub.(status := EXPIRED)];
      }
      if today < sub.expiresAt && sub.expiresAt < today + WarningWindow && sub.status == SubscriptionStatus.ACTIVE {
        db.subscriptions := db.subscriptions[i := sub.(status := EXPIRING_SOON)];
      }
      i := i + 1;
    }
  }

  /** The two rules never both apply, so each subscription is written at most once. */
  lemma RulesExclusive(s: Subscription, today: Timestamp)
    ensures !(ExpiredBy(s, today) && ExpiresSoon(s, today))
  {
  }

  /** A subscription that expires exactly now, one already EXPIRED, and one
      whose expiry is three days or more away keep their status. */
  lemma CheckLeavesAlone(s: Subscription, today: Timestamp)
    ensures s.expiresAt == today ==> CheckedStatus(s, today) == s.status
    ensures s.status == EXPIRED ==> CheckedStatus(s, today) == EXPIRED
    ensures s.expiresAt >= today + WarningWindow ==> CheckedStatus(s, today) == s.status
  {
  }

  /** A second run on the same day changes nothing. */
  lemma CheckIdempotent(s: Subscription, today: Timestamp)
    ensures Checked(Checked(s, today), today) == Checked(s, today)
  {
  }

  /** The check never makes a subscription ACTIVE again: a renewed
      subscription marked EXPIRING_SOON or EXPIRED keeps that status. */
  lemma CheckNeverReactivates(s: Subscription, today: Timestamp)
    ensures CheckedStatus(s, today) == SubscriptionStatus.ACTIVE ==> s.status == SubscriptionStatus.ACTIVE
  {
  }
}
