/**
 * The subscription service's domain: a user's subscription, the perks a
 * subscription grants, and the inference of which perks apply at a given
 * time. Times are integers of nanoseconds; `now` is a parameter.
 */
module SubscriptionDomain {
  import opened Wrappers

  /** What a subscriber may do with links. `limit` is a Go `uint`. */
  datatype Perk = Perk(lifetime: int, limit: nat, allowShortEdit: bool)

  /** The value of a subscription, as it is copied into stores and messages. */
  datatype SubscriptionValue = SubscriptionValue(id: nat, userId: nat, expiredAt: int)

  /** The subscription `s` after its expiry was pushed back by `d`. */
  function Extended(s: SubscriptionValue, d: int): (r: SubscriptionValue)
    ensures r.id == s.id && r.userId == s.userId
    ensures r.expiredAt - s.expiredAt == d
  {
    s.(expiredAt := s.expiredAt + d)
  }

  /** Two extensions in a row are one extension by the sum. */
  lemma ExtendComposes(s: SubscriptionValue, a: int, b: int)
    ensures Extended(Extended(s, a), b) == Extended(s, a + b)
  {
  }

  /** Extending by nothing changes nothing. */
  lemma ExtendZero(s: SubscriptionValue)
    ensures Extended(s, 0) == s
  {
  }

  /** A subscription; `Extend` updates its expiry in place. */
  class Subscription {
    var id: nat
    var userId: nat
    var expiredAt: int

    function Value(): SubscriptionValue
      reads this
    {
      SubscriptionValue(id, userId, expiredAt)
    }

    /** `NewSubscription`: a missing id becomes 0; it never fails. */
    constructor (id: Option<nat>, userId: nat, expiredAt: int)
      ensures Value() == SubscriptionValue(id.GetOr(0), userId, expiredAt)
    {
      this.id := id.GetOr(0);
      this.userId := userId;
      this.expiredAt := expiredAt;
    }

    method Extend(d: int)
      modifies this
      ensures Value() == Extended(old(Value()), d)
    {
      expiredAt := expiredAt + d;
    }
  }

  /**
   * A subscription counts as active at `now` while more than `deviation`
   * is left before it expires: premium perks stop a little early.
   */
  predicate Active(expiredAt: int, now: int, deviation: int)
  {
    expiredAt - now - deviation > 0
  }

  /** Activity is monotone: a later expiry, or an earlier moment, stays active. */
  lemma ActiveMonotone(e1: int, e2: int, n1: int, n2: int, deviation: int)
    requires Active(e1, n1, deviation)
    requires e1 <= e2 && n2 <= n1
    ensures Active(e2, n2, deviation)
  {
  }

  /** The perk inference configured with a basic and a premium perk. */
  datatype PerkInferer = PerkInferer(basic: Perk, premium: Perk, deviation: int)
  {
    function Basic(): Perk
    {
      basic
    }

    function Premium(): Perk
    {
      premium
    }
  }

  /** The perks of a subscription expiring at `expiredAt`, seen at `now`. */
  function Infer(p: PerkInferer, expiredAt: int, now: int): (r: Perk)
    ensures r == p.premium || r == p.basic
    ensures Active(expiredAt, now, p.deviation) ==> r == p.premium
    ensures !Active(expiredAt, now, p.deviation) ==> r == p.basic
  {
    if expiredAt - now - p.deviation > 0 then p.premium else p.basic
  }

  /** Exactly `deviation` before expiry the subscription already gets the basic perk. */
  lemma InferBoundaryIsBasic(p: PerkInferer, now: int)
    ensures Infer(p, now + p.deviation, now) == p.basic
  {
  }

  /** A later expiry never turns premium into basic. */
  lemma InferMonotone(p: PerkInferer, e1: int, e2: int, now: int)
    requires p.basic != p.premium
    requires e1 <= e2
    requires Infer(p, e1, now) == p.premium
    ensures Infer(p, e2, now) == p.premium
  {
    ActiveMonotone(e1, e2, now, now, p.deviation);
  }

  /** The older perk shape: a link lifetime and a link limit (a Go `uint`). */
  datatype PerkPair = PerkPair(expiration: int, linkLimit: nat)

  /** The older inference, configured with a basic and a premium pair. */
  datatype PairInferer = PairInferer(basic: PerkPair, premium: PerkPair, deviation: int)
  {
    /** The same configuration with the two pairs exchanged. */
    function Swapped(): (q: PairInferer)
      ensures q.basic == premium && q.premium == basic && q.deviation == deviation
    {
      PairInferer(premium, basic, deviation)
    }
  }

  /**
   * The older inference as three copies write it: the premium pair is chosen
   * when no more than `deviation` is left, that is for expired subscriptions.
   */
  function InferPairAsWritten(q: PairInferer, expiredAt: int, now: int): (r: PerkPair)
    ensures r == q.premium || r == q.basic
    ensures !Active(expiredAt, now, q.deviation) ==> r == q.premium
    ensures Active(expiredAt, now, q.deviation) ==> r == q.basic
  {
    var diff := expiredAt - now - q.deviation;
    if diff <= 0 then q.premium else q.basic
  }

  /** The older inference in the direction `Infer` takes: premium while active. */
  function InferPair(q: PairInferer, expiredAt: int, now: int): (r: PerkPair)
    ensures r == q.premium || r == q.basic
    ensures Active(expiredAt, now, q.deviation) ==> r == q.premium
    ensures !Active(expiredAt, now, q.deviation) ==> r == q.basic
  {
    if expiredAt - now - q.deviation > 0 then q.premium else q.basic
  }

  /** The copies as written are the intended inference with the pairs exchanged. */
  lemma AsWrittenIsSwapped(q: PairInferer, expiredAt: int, now: int)
    ensures InferPairAsWritten(q, expiredAt, now) == InferPair(q.Swapped(), expiredAt, now)
  {
  }

  /** As written, the boundary case (no time left beyond `deviation`) yields premium. */
  lemma AsWrittenBoundaryIsPremium(q: PairInferer, now: int)
    ensures InferPairAsWritten(q, now + q.deviation, now) == q.premium
  {
  }

  /**
   * The input that shows the inversion: a subscription one nanosecond beyond
   * the deviation is active, yet the copies as written hand it the basic pair.
   */
  lemma ActiveSubscriberGetsBasic(q: PairInferer, now: int)
    requires q.basic != q.premium
    ensures Active(now + q.deviation + 1, now, q.deviation)
    ensures InferPairAsWritten(q, now + q.deviation + 1, now) == q.basic
    ensures InferPair(q, now + q.deviation + 1, now) == q.premium
  {
  }

  /** The corrected inference agrees with `Infer` on which perk level applies. */
  lemma InferPairAgreesWithInfer(q: PairInferer, p: PerkInferer, expiredAt: int, now: int)
    requires p.deviation == q.deviation
    requires p.basic != p.premium && q.basic != q.premium
    ensures InferPair(q, expiredAt, now) == q.premium <==> Infer(p, expiredAt, now) == p.premium
  {
  }

  /** The corrected inference is monotone in the expiry. */
  lemma InferPairMonotone(q: PairInferer, e1: int, e2: int, now: int)
    requires e1 <= e2
    requires Active(e1, now, q.deviation)
    ensures InferPair(q, e2, now) == q.premium
  {
    ActiveMonotone(e1, e2, now, now, q.deviation);
  }
}
