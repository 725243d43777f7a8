/**
 * The subscription service's bootstrap and perk lookup
 * (subscription/internal/service/subscription.go and its second copy
 * subscription/internal/service/status.go). `Init` gives every listed
 * user without a subscription a new one that expires at once; the users
 * arrive in a create-subscription message, so a redelivered message must
 * not create a second subscription for anybody.
 *
 * The repository is the one in subscription/internal/repository: its
 * statements return their errors unwrapped. The clock reading `now` and
 * each statement's failure are parameters.
 */
module SubscriptionService {
  import opened Wrappers
  import opened Oops
  import opened Outbox
  import opened SubscriptionDomain
  import opened SubscriptionStore

  /** The two copies of the service differ only in the context their errors carry. */
  datatype Copy = SubscriptionCopy | StatusCopy

  function InitContext(c: Copy): string
  {
    match c
    case SubscriptionCopy => "internal<SubscriptionService.Init>: "
    case StatusCopy => "service<Status.Init>: "
  }

  /** The users of a batch, as a set. */
  function UsersIn(batch: seq<SubscriptionValue>): set<nat>
  {
    set k | 0 <= k < |batch| :: batch[k].userId
  }

  /**
   * The subscriptions `Init` builds: one per listed user not reported as
   * existing, in the listed order, each without an id and expiring at `now`.
   */
  function NewBatch(ids: seq<nat>, existing: seq<nat>, now: int): (batch: seq<SubscriptionValue>)
    ensures |batch| <= |ids|
    ensures forall k :: 0 <= k < |batch| ==> batch[k].id == 0 && batch[k].expiredAt == now
    ensures forall k :: 0 <= k < |batch| ==> batch[k].userId in ids && batch[k].userId !in existing
    ensures forall u :: u in ids && u !in existing ==> u in UsersIn(batch)
  {
    if ids == [] then []
    else
      var n := |ids| - 1;
      var prefix := NewBatch(ids[..n], existing, now);
      assert forall u :: u in ids[..n] ==> u in ids;
      assert forall u :: u in ids ==> u in ids[..n] || u == ids[n];
      if ids[n] in existing then prefix
      else
        var batch := prefix + [SubscriptionValue(0, ids[n], now)];
        assert forall k :: 0 <= k < |prefix| ==> batch[k] == prefix[k];
        assert batch[|prefix|].userId == ids[n];
        assert forall u :: u in UsersIn(prefix) ==> u in UsersIn(batch) by {
          forall u | u in UsersIn(prefix) ensures u in UsersIn(batch) {
            var k :| 0 <= k < |prefix| && prefix[k].userId == u;
            assert batch[k].userId == u;
          }
        }
        batch
  }

  /** Every listed user is already known: nothing is built. */
  lemma {:induction false} NothingNewForKnownUsers(ids: seq<nat>, existing: seq<nat>, now: int)
    requires forall u :: u in ids ==> u in existing
    ensures NewBatch(ids, existing, now) == []
    decreases |ids|
  {
    if ids != [] {
      var n := |ids| - 1;
      assert forall u :: u in ids[..n] ==> u in ids;
      NothingNewForKnownUsers(ids[..n], existing, now);
    }
  }

  /** The loop of `Init`: walk the listed users and build a subscription for each one not found. */
  method CollectNew(ids: seq<nat>, existing: seq<nat>, now: int) returns (batch: seq<SubscriptionValue>)
    ensures batch == NewBatch(ids, existing, now)
  {
    batch := [];
    var i := 0;
    while i < |ids|
      invariant 0 <= i <= |ids|
      invariant batch == NewBatch(ids[..i], existing, now)
    {
      assert ids[..i + 1][..i] == ids[..i];
      if ids[i] !in existing {
        batch := batch + [SubscriptionValue(0, ids[i], now)];
      }
      i := i + 1;
    }
    assert ids[..|ids|] == ids;
  }

  /**
   * `Init`: look the listed users up, build the missing subscriptions and
   * create them. A failed lookup stops before anything is created; the
   * create is attempted even with nothing to add, and then fails. Every
   * error is wrapped in the copy's context.
   */
  function InitStep(c: Copy, s: Tables, ids: seq<nat>, now: int, lookupFail: Option<Fault>, createFail: Option<Fault>)
    : (r: (Tables, Option<Fault>))
    requires Valid(s)
  {
    var found := CheckManyByOwner(s, ids, lookupFail);
    if found.Err? then (s, Some(Wrap(InitContext(c), found.fault)))
    else
      var created := RepositoryCreate(s, NewBatch(ids, found.value, now), createFail);
      (created.0, if created.1.None? then None else Some(Wrap(InitContext(c), created.1.value)))
  }

  /** `Init`, carried out: the lookup, the loop, the create. The tables it is given are not changed in place. */
  method Init(c: Copy, s: Tables, ids: seq<nat>, now: int, lookupFail: Option<Fault>, createFail: Option<Fault>)
    returns (t: Tables, err: Option<Fault>)
    requires Valid(s)
    ensures (t, err) == InitStep(c, s, ids, now, lookupFail, createFail)
  {
    var found := CheckManyByOwner(s, ids, lookupFail);
    if found.Err? {
      return s, Some(Wrap(InitContext(c), found.fault));
    }
    var batch := CollectNew(ids, found.value, now);
    var created := RepositoryCreate(s, batch, createFail);
    t := created.0;
    err := if created.1.None? then None else Some(Wrap(InitContext(c), created.1.value));
  }

  /** A failed lookup, or an empty list, creates nothing and reports an error with the lookup's status. */
  lemma FailedLookupCreatesNothing(c: Copy, s: Tables, ids: seq<nat>, now: int, lookupFail: Option<Fault>,
                                   createFail: Option<Fault>)
    requires Valid(s)
    requires lookupFail.Some? || ids == []
    ensures var r := InitStep(c, s, ids, now, lookupFail, createFail);
      && r.0 == s
      && r.1.Some?
      && HttpStatusCode(r.1) == HttpStatusCode(Some(if ids == [] then EmptyIn else lookupFail.value))
  {
    var found := CheckManyByOwner(s, ids, lookupFail);
    WrapKeepsStatus(InitContext(c), found.fault);
  }

  /**
   * A successful `Init` leaves every listed user with a subscription, adds
   * no other owner, gives no user who already had one a new one, and
   * leaves the outbox tables alone.
   */
  lemma InitSubscribesListedUsers(c: Copy, s: Tables, ids: seq<nat>, now: int)
    requires Valid(s)
    requires InitStep(c, s, ids, now, None, None).1.None?
    ensures var t := InitStep(c, s, ids, now, None, None).0;
      && Owners(t.subs) == Owners(s.subs) + (set u | u in ids)
      && (forall id :: id in s.subs ==> id in t.subs && t.subs[id] == s.subs[id])
      && (forall id :: id in t.subs && id !in s.subs ==>
            t.subs[id].userId !in Owners(s.subs) && t.subs[id].expiredAt == now && t.subs[id].checkedAt.None?)
      && t.checkedOutbox == s.checkedOutbox && t.expiredOutbox == s.expiredOutbox
  {
    var found := CheckManyByOwner(s, ids, None);
    var batch := NewBatch(ids, found.value, now);
    assert batch != [];
    assert InitStep(c, s, ids, now, None, None).0 == CreateStep(s, batch, None).0;
    assert forall k :: 0 <= k < |batch| ==> batch[k].userId !in Owners(s.subs);
    BatchAddsListedOwners(s, ids, found.value, now);
    CreateAddsFreshRows(s, batch, now);
  }

  /** The owners after creating the built batch are the old owners and the listed users. */
  lemma BatchAddsListedOwners(s: Tables, ids: seq<nat>, existing: seq<nat>, now: int)
    requires Valid(s)
    requires NewBatch(ids, existing, now) != []
    requires forall x :: x in existing <==> x in ids && x in Owners(s.subs)
    ensures Owners(CreateStep(s, NewBatch(ids, existing, now), None).0.subs) == Owners(s.subs) + (set u | u in ids)
  {
    var batch := NewBatch(ids, existing, now);
    assert UsersIn(batch) == (set k | 0 <= k < |batch| :: batch[k].userId);
    forall u | u in ids && u !in Owners(s.subs) ensures u in UsersIn(batch) {
      assert u !in existing;
    }
  }

  /** Creating a batch keeps every old row and adds only unchecked rows for the batch's users and expiries. */
  lemma CreateAddsFreshRows(s: Tables, batch: seq<SubscriptionValue>, now: int)
    requires Valid(s)
    requires batch != []
    requires forall k :: 0 <= k < |batch| ==> batch[k].userId !in Owners(s.subs) && batch[k].expiredAt == now
    ensures var t := CreateStep(s, batch, None).0;
      && (forall id :: id in s.subs ==> id in t.subs && t.subs[id] == s.subs[id])
      && (forall id :: id in t.subs && id !in s.subs ==>
            t.subs[id].userId !in Owners(s.subs) && t.subs[id].expiredAt == now && t.subs[id].checkedAt.None?)
      && t.checkedOutbox == s.checkedOutbox && t.expiredOutbox == s.expiredOutbox
  {
    var t := CreateStep(s, batch, None).0;
    var rows := RowsOf(batch);
    forall id | id in t.subs && id !in s.subs
      ensures t.subs[id].userId !in Owners(s.subs) && t.subs[id].expiredAt == now && t.subs[id].checkedAt.None?
    {
      var k := id - s.nextSub;
      assert 0 <= k < |rows|;
      assert t.subs[s.nextSub + k] == rows[k];
    }
  }

  /**
   * Redelivery: once `Init` has succeeded for a list, running it again on
   * the same list, at any time, creates nothing. The create is still
   * attempted, with nothing to add, and reports an error.
   */
  lemma RedeliveryCreatesNothing(c: Copy, s: Tables, ids: seq<nat>, now: int, later: int, createFail: Option<Fault>)
    requires Valid(s)
    requires InitStep(c, s, ids, now, None, None).1.None?
    ensures var t := InitStep(c, s, ids, now, None, None).0;
      var again := InitStep(c, t, ids, later, None, createFail);
      again.0 == t && again.1 == Some(Wrap(InitContext(c), EmptyBatch))
  {
    InitSubscribesListedUsers(c, s, ids, now);
    var t := InitStep(c, s, ids, now, None, None).0;
    var found := CheckManyByOwner(t, ids, None);
    NothingNewForKnownUsers(ids, found.value, later);
  }

  /**
   * `InferPerks`: the perks of the user's subscription at `now`; a failed
   * lookup, a missing subscription included, gives a zero lifetime and a
   * zero limit. The pair is chosen by `SubscriptionPerks.Infer` as written,
   * which hands out the premium pair once the subscription is no longer
   * active.
   */
  function InferPerks(q: PairInferer, s: Tables, user: nat, scan: seq<nat>, fail: Option<Fault>, now: int): (r: PerkPair)
    requires IsScanOf(scan, s.subs)
    ensures fail.Some? || user !in Owners(s.subs) ==> r == PerkPair(0, 0)
    ensures fail.None? && user in Owners(s.subs) ==> r == q.premium || r == q.basic
  {
    var found := GetByOwner(s, user, scan, fail);
    if found.Err? then PerkPair(0, 0) else InferPairAsWritten(q, found.value.expiredAt, now)
  }

  /** `InferPerks` as intended: the same lookup, with the corrected inference. */
  function InferPerksIntended(q: PairInferer, s: Tables, user: nat, scan: seq<nat>, fail: Option<Fault>, now: int)
    : (r: PerkPair)
    requires IsScanOf(scan, s.subs)
    ensures fail.Some? || user !in Owners(s.subs) ==> r == PerkPair(0, 0)
    ensures fail.None? && user in Owners(s.subs) ==> r == q.premium || r == q.basic
  {
    var found := GetByOwner(s, user, scan, fail);
    if found.Err? then PerkPair(0, 0) else InferPair(q, found.value.expiredAt, now)
  }

  /**
   * As written, a subscriber is granted the premium pair exactly while the
   * subscription the lookup finds is NOT active.
   */
  lemma SubscriberPerksFollowExpiry(q: PairInferer, s: Tables, user: nat, scan: seq<nat>, now: int)
    requires IsScanOf(scan, s.subs)
    requires user in Owners(s.subs)
    requires q.basic != q.premium
    ensures var found := GetByOwner(s, user, scan, None);
      && found.Ok?
      && (InferPerks(q, s, user, scan, None, now) == q.premium <==> !Active(found.value.expiredAt, now, q.deviation))
  {
  }

  /** As intended, a subscriber is granted the premium pair exactly while its subscription is active. */
  lemma IntendedPerksFollowExpiry(q: PairInferer, s: Tables, user: nat, scan: seq<nat>, now: int)
    requires IsScanOf(scan, s.subs)
    requires user in Owners(s.subs)
    requires q.basic != q.premium
    ensures var found := GetByOwner(s, user, scan, None);
      && found.Ok?
      && (InferPerksIntended(q, s, user, scan, None, now) == q.premium <==> Active(found.value.expiredAt, now, q.deviation))
  {
  }

  /**
   * The input that shows the inversion at the service: one nanosecond
   * before the deviation starts, the subscriber's subscription is active,
   * yet `InferPerks` answers with the basic pair; the intended lookup
   * answers with the premium pair.
   */
  lemma ActiveSubscriberServedBasic(q: PairInferer, s: Tables, user: nat, scan: seq<nat>)
    requires IsScanOf(scan, s.subs)
    requires user in Owners(s.subs)
    requires q.basic != q.premium
    ensures var found := GetByOwner(s, user, scan, None);
      var now := found.value.expiredAt - q.deviation - 1;
      && Active(found.value.expiredAt, now, q.deviation)
      && InferPerks(q, s, user, scan, None, now) == q.basic
      && InferPerksIntended(q, s, user, scan, None, now) == q.premium
  {
    var found := GetByOwner(s, user, scan, None);
    ActiveSubscriberGetsBasic(q, found.value.expiredAt - q.deviation - 1);
  }
}
