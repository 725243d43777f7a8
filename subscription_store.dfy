/**
 * The subscription tables of the subscription service
 * (subscription/internal/persistence/pg.subscription.go and the
 * repository copy the services call,
 * subscription/internal/repository/subscription.pg.go): `subscriptions`
 * and the two outbox tables `subscription_checked_outbox` and
 * `subscription_expired_outbox`.
 *
 * A statement's failure is a parameter, and so is the database clock
 * (`CURRENT_TIMESTAMP`, `now`). The order in which a statement meets the
 * rows is a parameter `scan`.
 */
module SubscriptionStore {
  import opened Wrappers
  import opened Oops
  import opened Outbox
  import opened Envelopes
  import opened SubscriptionDomain

  /** A row of `subscriptions`; `checkedAt` is set once the expiry watcher has seen it. */
  datatype Sub = Sub(userId: nat, expiredAt: int, checkedAt: Option<int>)

  /** Payload of a `subscription_checked_outbox` row. */
  datatype CheckedNote = CheckedNote(contextId: nat, usecase: string, lifetime: int, limit: nat, allowShortEdit: bool)

  datatype Tables = Tables(
    subs: map<nat, Sub>,
    checkedOutbox: Table<CheckedNote>,
    expiredOutbox: Table<nat>,
    nextSub: nat, nextChecked: nat, nextExpired: nat)

  /** Every serial stays ahead of the ids it has handed out. */
  predicate Valid(s: Tables)
  {
    && (forall id :: id in s.subs ==> id < s.nextSub)
    && (forall id :: id in s.checkedOutbox ==> id < s.nextChecked)
    && (forall id :: id in s.expiredOutbox ==> id < s.nextExpired)
  }

  function Failed(op: string, cause: Fault): (f: Fault)
    ensures HttpStatusCode(Some(f)) == HttpStatusCode(Some(cause))
  {
    WrapKeepsStatus("persistence<pg." + op + ">: ", cause);
    Wrap("persistence<pg." + op + ">: ", cause)
  }

  /** What the database answers to `VALUES ` with no row after it. */
  const EmptyValues: Fault := Plain("syntax error at end of input")

  /**
   * What a named batch insert answers when given no rows. The library
   * follows this text with `: ` and the Go-syntax rendering of the empty
   * argument, which the model leaves out.
   */
  const EmptyBatch: Fault := Plain("length of array is 0")

  /** The users that hold a subscription. */
  function Owners(subs: map<nat, Sub>): set<nat>
  {
    set k | k in subs :: subs[k].userId
  }

  /** The entries of `ids`, in order and with repeats, that are not in `known`. */
  function Absent(ids: seq<nat>, known: set<nat>): (r: seq<nat>)
    ensures |r| <= |ids|
    ensures forall x :: x in r <==> x in ids && x !in known
  {
    if ids == [] then []
    else Absent(ids[..|ids| - 1], known) + (if ids[|ids| - 1] in known then [] else [ids[|ids| - 1]])
  }

  /**
   * `FilterExisting` as written: the listed ids that are not the PRIMARY
   * KEY of a subscription. An empty list makes the query text invalid.
   */
  function FilterExistingAsWritten(s: Tables, ids: seq<nat>, fail: Option<Fault>): (r: Result<seq<nat>>)
    ensures ids == [] ==> r == Err(Failed("CheckManyByOwner", EmptyValues))
    ensures r.Err? <==> ids == [] || fail.Some?
    ensures r.Ok? ==> forall x :: x in r.value <==> x in ids && x !in s.subs
  {
    if ids == [] then Err(Failed("CheckManyByOwner", EmptyValues))
    else if fail.Some? then Err(Failed("CheckManyByOwner", fail.value))
    else Ok(Absent(ids, s.subs.Keys))
  }

  /** `FilterExisting` as its callers use it: the listed users that hold no subscription. */
  function FilterExisting(s: Tables, ids: seq<nat>, fail: Option<Fault>): (r: Result<seq<nat>>)
    ensures ids == [] ==> r == Err(Failed("CheckManyByOwner", EmptyValues))
    ensures r.Err? <==> ids == [] || fail.Some?
    ensures r.Ok? ==> forall x :: x in r.value <==> x in ids && x !in Owners(s.subs)
  {
    if ids == [] then Err(Failed("CheckManyByOwner", EmptyValues))
    else if fail.Some? then Err(Failed("CheckManyByOwner", fail.value))
    else Ok(Absent(ids, Owners(s.subs)))
  }

  /**
   * The input that shows the mix-up: user 5 holds subscription 1, yet the
   * written filter reports 5 as new and hides user 1, who has none.
   */
  lemma FilterComparesSubscriptionIds()
    ensures var s := Tables(map[1 := Sub(5, 0, None)], map[], map[], 2, 1, 1);
      && FilterExistingAsWritten(s, [5, 1], None) == Ok([5])
      && FilterExisting(s, [5, 1], None) == Ok([1])
  {
    var subs := map[1 := Sub(5, 0, None)];
    assert subs[1].userId == 5;
    assert Owners(subs) == {5};
    assert subs.Keys == {1};
    var ids: seq<nat> := [5, 1];
    assert ids[..1] == [5] && [5][..0] == [];
    assert Absent([5], {1}) == [5];
    assert Absent(ids, {1}) == [5];
    assert Absent([5], {5}) == [];
    assert Absent(ids, {5}) == [1];
  }

  /** The listed ids that are in `known`, in order. */
  function Present(ids: seq<nat>, known: set<nat>): (r: seq<nat>)
    ensures |r| <= |ids|
    ensures forall x :: x in r <==> x in ids && x in known
  {
    if ids == [] then []
    else Present(ids[..|ids| - 1], known) + (if ids[|ids| - 1] in known then [ids[|ids| - 1]] else [])
  }

  /**
   * `CheckManyByOwner` of the repository the services use: the listed
   * users that hold a subscription. An empty list fails in `sqlx.In`;
   * errors are returned as they are.
   */
  function CheckManyByOwner(s: Tables, ids: seq<nat>, fail: Option<Fault>): (r: Result<seq<nat>>)
    ensures ids == [] ==> r == Err(EmptyIn)
    ensures r.Err? <==> ids == [] || fail.Some?
    ensures r.Ok? ==> forall x :: x in r.value <==> x in ids && x in Owners(s.subs)
  {
    if ids == [] then Err(EmptyIn)
    else if fail.Some? then Err(fail.value)
    else Ok(Present(ids, Owners(s.subs)))
  }

  /** The written filter and the owner lookup partition the listed users once ids are read as users. */
  lemma FilterComplementsCheck(s: Tables, ids: seq<nat>)
    requires ids != []
    ensures forall x :: x in ids ==>
      (x in FilterExisting(s, ids, None).value <==> x !in CheckManyByOwner(s, ids, None).value)
  {
  }

  /** `GetByOwner`: the first subscription of `user` the scan meets; none is `sql.ErrNoRows`. */
  function GetByOwner(s: Tables, user: nat, scan: seq<nat>, fail: Option<Fault>): (r: Result<SubscriptionValue>)
    requires IsScanOf(scan, s.subs)
    ensures r.Err? <==> fail.Some? || user !in Owners(s.subs)
    ensures r.Ok? ==> r.value.id in s.subs && r.value.userId == user && r.value.expiredAt == s.subs[r.value.id].expiredAt
  {
    if fail.Some? then Err(Failed("GetByOwner", fail.value))
    else
      var found := FirstOwned(s.subs, user, scan);
      if found.None? then Err(Failed("GetByOwner", NoRows))
      else Ok(SubscriptionValue(found.value, user, s.subs[found.value].expiredAt))
  }

  const NoRows: Fault := Plain("sql: no rows in result set")

  function FirstOwned(subs: map<nat, Sub>, user: nat, scan: seq<nat>): (r: Option<nat>)
    requires forall id :: id in scan ==> id in subs
    ensures r.Some? ==> r.value in scan && subs[r.value].userId == user
    ensures r.Some? ==> exists i :: 0 <= i < |scan| && scan[i] == r.value
                          && forall j :: 0 <= j < i ==> subs[scan[j]].userId != user
    ensures r.None? ==> forall id :: id in scan ==> subs[id].userId != user
  {
    if scan == [] then None
    else if subs[scan[0]].userId == user then Some(scan[0])
    else
      var rest := FirstOwned(subs, user, scan[1..]);
      assert rest.Some? ==> exists i :: 0 <= i < |scan| && scan[i] == rest.value
                              && forall j :: 0 <= j < i ==> subs[scan[j]].userId != user by {
        if rest.Some? {
          var i :| 0 <= i < |scan[1..]| && scan[1..][i] == rest.value
                   && forall j :: 0 <= j < i ==> subs[scan[1..][j]].userId != user;
          assert scan[i + 1] == rest.value;
          forall j | 0 <= j < i + 1 ensures subs[scan[j]].userId != user {
            if j > 0 { assert scan[j] == scan[1..][j - 1]; }
          }
        }
      }
      rest
  }

  /** `newPgSubscriptionRow`: the stored row of a new subscription; it has not been checked yet. */
  function NewRow(v: SubscriptionValue): Sub
  {
    Sub(v.userId, v.expiredAt, None)
  }

  /** The rows built for a batch, in order. */
  function RowsOf(batch: seq<SubscriptionValue>): (rows: seq<Sub>)
  {
    seq(|batch|, k requires 0 <= k < |batch| => NewRow(batch[k]))
  }

  /** Build the rows of a batch, one per subscription, as the insert will bind them. */
  method NewRows(batch: seq<SubscriptionValue>) returns (rows: seq<Sub>)
    ensures |rows| == |batch|
    ensures forall k :: 0 <= k < |batch| ==> rows[k].userId == batch[k].userId && rows[k].expiredAt == batch[k].expiredAt
    ensures forall k :: 0 <= k < |batch| ==> rows[k].checkedAt.None?
    ensures rows == RowsOf(batch)
  {
    rows := [];
    var i := 0;
    while i < |batch|
      invariant 0 <= i <= |batch|
      invariant rows == RowsOf(batch[..i])
    {
      assert RowsOf(batch[..i + 1]) == RowsOf(batch[..i]) + [NewRow(batch[i])];
      rows := rows + [NewRow(batch[i])];
      i := i + 1;
    }
    assert batch[..|batch|] == batch;
  }

  /** The rows a batch insert adds, under consecutive serial ids from `next`. */
  function InsertSubs(m: map<nat, Sub>, next: nat, rows: seq<Sub>): (r: map<nat, Sub>)
    ensures forall id :: id in r <==> id in m || next <= id < next + |rows|
    ensures forall k :: 0 <= k < |rows| ==> next + k in r && r[next + k] == rows[k]
    ensures forall id :: id in m && id < next ==> r[id] == m[id]
    decreases |rows|
  {
    if rows == [] then m
    else
      var n := |rows| - 1;
      var prefix := InsertSubs(m, next, rows[..n]);
      assert forall k :: 0 <= k < n ==> rows[..n][k] == rows[k];
      prefix[next + n := rows[n]]
  }

  /** A batch insert adds exactly the new rows' users to the owners. */
  lemma InsertAddsOwners(m: map<nat, Sub>, next: nat, rows: seq<Sub>)
    requires forall id :: id in m ==> id < next
    ensures Owners(InsertSubs(m, next, rows)) == Owners(m) + (set k | 0 <= k < |rows| :: rows[k].userId)
  {
    var r := InsertSubs(m, next, rows);
    var added := set k | 0 <= k < |rows| :: rows[k].userId;
    forall u | u in Owners(r) ensures u in Owners(m) + added {
      var id :| id in r && r[id].userId == u;
      if id !in m {
        var k := id - next;
        assert r[next + k] == rows[k];
      }
    }
    forall u | u in Owners(m) + added ensures u in Owners(r) {
      if u in Owners(m) {
        var id :| id in m && m[id].userId == u;
        assert r[id] == m[id];
      } else {
        var k :| 0 <= k < |rows| && rows[k].userId == u;
        assert r[next + k].userId == u;
      }
    }
  }

  /** The owners a batch brings are the batch's users. */
  lemma RowsKeepOwners(batch: seq<SubscriptionValue>)
    ensures (set k | 0 <= k < |RowsOf(batch)| :: RowsOf(batch)[k].userId) == (set k | 0 <= k < |batch| :: batch[k].userId)
  {
    var rows := RowsOf(batch);
    assert forall k :: 0 <= k < |batch| ==> rows[k].userId == batch[k].userId;
  }

  /** `Create`: one batch insert; the batch's ids are ignored and every row is new and unchecked. An empty batch is refused. */
  function CreateStep(s: Tables, batch: seq<SubscriptionValue>, fail: Option<Fault>): (r: (Tables, Option<Fault>))
    requires Valid(s)
    ensures Valid(r.0)
    ensures r.1.Some? <==> batch == [] || fail.Some?
    ensures batch == [] ==> r == (s, Some(Failed("Create", EmptyBatch)))
    ensures r.1.Some? ==> r.0 == s
    ensures r.1.None? ==>
      && r.0 == s.(subs := InsertSubs(s.subs, s.nextSub, RowsOf(batch)), nextSub := s.nextSub + |batch|)
      && Owners(r.0.subs) == Owners(s.subs) + (set k | 0 <= k < |batch| :: batch[k].userId)
  {
    if batch == [] then (s, Some(Failed("Create", EmptyBatch)))
    else if fail.Some? then (s, Some(Failed("Create", fail.value)))
    else
      InsertAddsOwners(s.subs, s.nextSub, RowsOf(batch));
      RowsKeepOwners(batch);
      (s.(subs := InsertSubs(s.subs, s.nextSub, RowsOf(batch)), nextSub := s.nextSub + |batch|), None)
  }

  /**
   * `Create` of the repository the services call: the same single batch
   * insert, but its errors are returned as they are.
   */
  function RepositoryCreate(s: Tables, batch: seq<SubscriptionValue>, fail: Option<Fault>): (r: (Tables, Option<Fault>))
    requires Valid(s)
    ensures r.0 == CreateStep(s, batch, fail).0
    ensures batch == [] ==> r.1 == Some(EmptyBatch)
    ensures batch != [] ==> r.1 == fail
  {
    if batch == [] then (s, Some(EmptyBatch))
    else (CreateStep(s, batch, fail).0, fail)
  }

  /** `CreateSubscriptionChecked`: one pending outbox row carrying the context, use case and perk. */
  function CreateSubscriptionCheckedStep(s: Tables, contextId: nat, usecase: string, perk: Perk, fail: Option<Fault>): (r: (Tables, Option<Fault>))
    requires Valid(s)
    ensures Valid(r.0)
    ensures r.1.Some? <==> fail.Some?
    ensures r.1.Some? ==> r == (s, Some(Failed("CreateSubscriptionChecked", fail.value)))
    ensures r.1.None? ==>
      && s.nextChecked !in s.checkedOutbox
      && r.0.checkedOutbox == Inserted(s.checkedOutbox, s.nextChecked,
                                       CheckedNote(contextId, usecase, perk.lifetime, perk.limit, perk.allowShortEdit))
      && r.0.subs == s.subs && r.0.expiredOutbox == s.expiredOutbox
  {
    if fail.Some? then (s, Some(Failed("CreateSubscriptionChecked", fail.value)))
    else
      (s.(checkedOutbox := Inserted(s.checkedOutbox, s.nextChecked,
                                    CheckedNote(contextId, usecase, perk.lifetime, perk.limit, perk.allowShortEdit)),
          nextChecked := s.nextChecked + 1), None)
  }

  function CheckedMessage(id: nat, n: CheckedNote): (m: SubscriptionChecked)
    ensures m.id == id && m.contextId == n.contextId && m.usecase == n.usecase
    ensures m.lifetime == n.lifetime && m.limit == n.limit && m.allowEdit == n.allowShortEdit
  {
    SubscriptionChecked(id, n.contextId, n.usecase, n.lifetime, n.limit, n.allowShortEdit)
  }

  function CheckedMessages(t: Table<CheckedNote>, ids: seq<nat>): (ms: seq<SubscriptionChecked>)
    requires forall i :: 0 <= i < |ids| ==> ids[i] in t
    ensures |ms| == |ids|
    ensures forall i :: 0 <= i < |ids| ==> ms[i] == CheckedMessage(ids[i], t[ids[i]].payload)
  {
    if ids == [] then []
    else CheckedMessages(t, ids[..|ids| - 1]) + [CheckedMessage(ids[|ids| - 1], t[ids[|ids| - 1]].payload)]
  }

  /** `GetSubscriptionChecked`: at most `limit` pending rows as messages keyed by outbox id; a limit of 0 gives none. */
  function GetSubscriptionChecked(s: Tables, scan: seq<nat>, limit: nat, fail: Option<Fault>): (r: Result<seq<SubscriptionChecked>>)
    ensures r.Err? <==> fail.Some?
    ensures r.Err? ==> r.fault == Failed("GetSubscriptionChecked", fail.value)
    ensures r.Ok? ==> |r.value| <= limit
    ensures r.Ok? ==> forall m :: m in r.value ==>
      Pending(s.checkedOutbox, m.id) && m == CheckedMessage(m.id, s.checkedOutbox[m.id].payload)
  {
    if fail.Some? then Err(Failed("GetSubscriptionChecked", fail.value))
    else Ok(CheckedMessages(s.checkedOutbox, FetchPending(s.checkedOutbox, scan, limit)))
  }

  /** `ResolveSubscriptionChecked`: flip the flag of the listed outbox ids; an empty list fails. */
  function ResolveSubscriptionCheckedStep(s: Tables, ids: seq<nat>, fail: Option<Fault>): (r: (Tables, Option<Fault>))
    requires Valid(s)
    ensures Valid(r.0)
    ensures r.1.Some? <==> ids == [] || fail.Some?
    ensures ids == [] ==> r == (s, Some(Failed("ResolveSubscriptionChecked", EmptyIn)))
    ensures r.1.Some? ==> r.0 == s
    ensures r.0.subs == s.subs && r.0.expiredOutbox == s.expiredOutbox
    ensures r.1.None? ==> r.0.checkedOutbox == ResolveIds(s.checkedOutbox, ids)
  {
    if ids == [] then (s, Some(Failed("ResolveSubscriptionChecked", EmptyIn)))
    else if fail.Some? then (s, Some(Failed("ResolveSubscriptionChecked", fail.value)))
    else (s.(checkedOutbox := ResolveIds(s.checkedOutbox, ids)), None)
  }

  /** `GetSubscriptionExpired`: at most `limit` pending rows as messages keyed by outbox id. */
  function GetSubscriptionExpired(s: Tables, scan: seq<nat>, limit: nat, fail: Option<Fault>): (r: Result<seq<SubscriptionExpired>>)
    ensures r.Err? <==> fail.Some?
    ensures r.Err? ==> r.fault == Failed("GetSubscriptionExpired", fail.value)
    ensures r.Ok? ==> |r.value| <= limit
    ensures r.Ok? ==> forall m :: m in r.value ==>
      Pending(s.expiredOutbox, m.id) && m.userId == s.expiredOutbox[m.id].payload
  {
    if fail.Some? then Err(Failed("GetSubscriptionExpired", fail.value))
    else Ok(ExpiredMessages(s.expiredOutbox, FetchPending(s.expiredOutbox, scan, limit)))
  }

  function ExpiredMessages(t: Table<nat>, ids: seq<nat>): (ms: seq<SubscriptionExpired>)
    requires forall i :: 0 <= i < |ids| ==> ids[i] in t
    ensures |ms| == |ids|
    ensures forall i :: 0 <= i < |ids| ==> ms[i] == SubscriptionExpired(ids[i], t[ids[i]].payload)
  {
    if ids == [] then []
    else ExpiredMessages(t, ids[..|ids| - 1]) + [SubscriptionExpired(ids[|ids| - 1], t[ids[|ids| - 1]].payload)]
  }

  /** `ResolveSubscriptionExpired`: flip the flag of the listed outbox ids; an empty list fails. */
  function ResolveSubscriptionExpiredStep(s: Tables, ids: seq<nat>, fail: Option<Fault>): (r: (Tables, Option<Fault>))
    requires Valid(s)
    ensures Valid(r.0)
    ensures r.1.Some? <==> ids == [] || fail.Some?
    ensures ids == [] ==> r == (s, Some(Failed("ResolveSubscriptionExpired", EmptyIn)))
    ensures r.1.Some? ==> r.0 == s
    ensures r.0.subs == s.subs && r.0.checkedOutbox == s.checkedOutbox
    ensures r.1.None? ==> r.0.expiredOutbox == ResolveIds(s.expiredOutbox, ids)
  {
    if ids == [] then (s, Some(Failed("ResolveSubscriptionExpired", EmptyIn)))
    else if fail.Some? then (s, Some(Failed("ResolveSubscriptionExpired", fail.value)))
    else (s.(expiredOutbox := ResolveIds(s.expiredOutbox, ids)), None)
  }

  /** Resolving a fetched batch of expiries closes exactly its rows, deletes none, and is idempotent. */
  lemma ResolveExpiredClosesBatch(s: Tables, scan: seq<nat>, limit: nat)
    requires Valid(s)
    ensures var batch := FetchPending(s.expiredOutbox, scan, limit);
      var t := ResolveSubscriptionExpiredStep(s, batch, None).0;
      && t.expiredOutbox.Keys == s.expiredOutbox.Keys
      && (forall id :: id in batch ==> !Pending(t.expiredOutbox, id))
      && (forall id :: id in s.expiredOutbox && id !in batch ==> t.expiredOutbox[id] == s.expiredOutbox[id])
      && ResolveSubscriptionExpiredStep(t, batch, None).0 == t
  {
    ResolveFetched(s.expiredOutbox, scan, limit);
    var batch := FetchPending(s.expiredOutbox, scan, limit);
    if batch != [] {
      ResolveIdsIdempotent(s.expiredOutbox, batch);
    }
  }

  // ------------------------------------------------ the expiry watcher

  /** A subscription the watcher picks up: expired before `now` and never checked. */
  predicate Due(subs: map<nat, Sub>, id: nat, now: int)
  {
    id in subs && subs[id].expiredAt < now && subs[id].checkedAt.None?
  }

  /** The first `limit` due subscriptions the scan meets. */
  function Expiring(subs: map<nat, Sub>, scan: seq<nat>, limit: nat, now: int): (r: seq<nat>)
    ensures |r| <= limit
    ensures forall i :: 0 <= i < |r| ==> Due(subs, r[i], now)
    ensures forall id :: id in r ==> id in scan
    decreases |scan|
  {
    if scan == [] || limit == 0 then []
    else if Due(subs, scan[0], now) then [scan[0]] + Expiring(subs, scan[1..], limit - 1, now)
    else Expiring(subs, scan[1..], limit, now)
  }

  /** The owners of the listed subscriptions, in order. */
  function UsersOf(subs: map<nat, Sub>, ids: seq<nat>): (us: seq<nat>)
    requires forall i :: 0 <= i < |ids| ==> ids[i] in subs
    ensures |us| == |ids|
    ensures forall i :: 0 <= i < |ids| ==> us[i] == subs[ids[i]].userId
  {
    if ids == [] then [] else UsersOf(subs, ids[..|ids| - 1]) + [subs[ids[|ids| - 1]].userId]
  }

  /** `SET checked_at = now WHERE user_id IN users`: every subscription of those users, due or not. */
  function MarkChecked(subs: map<nat, Sub>, users: seq<nat>, now: int): map<nat, Sub>
  {
    map id | id in subs :: if subs[id].userId in users then subs[id].(checkedAt := Some(now)) else subs[id]
  }

  /** One pending expiry row per listed user, under consecutive ids from `next`. */
  function InsertNotes(t: Table<nat>, next: nat, users: seq<nat>): Table<nat>
    decreases |users|
  {
    if users == [] then t
    else InsertNotes(t, next, users[..|users| - 1])[next + |users| - 1 := Entry(users[|users| - 1], false)]
  }

  /** The expiry table after the insert holds the old rows and one new row per user. */
  lemma {:induction false} NotesKeys(t: Table<nat>, next: nat, users: seq<nat>)
    ensures forall id :: id in InsertNotes(t, next, users) <==> id in t || next <= id < next + |users|
    decreases |users|
  {
    if users != [] {
      NotesKeys(t, next, users[..|users| - 1]);
    }
  }

  /**
   * `WatchExpiringSubscription`: select at most `limit` due subscriptions;
   * if there are none, stop without a transaction. Otherwise one
   * transaction writes an expiry row per selected subscription (its owner)
   * and marks every subscription of those owners as checked.
   */
  function WatchStep(s: Tables, scan: seq<nat>, limit: nat, now: int, selectFail: Option<Fault>, txFail: Option<Fault>): (r: (Tables, Option<Fault>))
    requires Valid(s)
    ensures Valid(r.0)
    ensures selectFail.Some? ==> r == (s, Some(Failed("WatchExpiringSubscription", selectFail.value)))
    ensures selectFail.None? && Expiring(s.subs, scan, limit, now) == [] ==> r == (s, None)
    ensures r.1.Some? ==> r.0 == s
    ensures selectFail.None? && Expiring(s.subs, scan, limit, now) != [] ==> (r.1.Some? <==> txFail.Some?)
  {
    if selectFail.Some? then (s, Some(Failed("WatchExpiringSubscription", selectFail.value)))
    else
      var picked := Expiring(s.subs, scan, limit, now);
      if picked == [] then (s, None)
      else if txFail.Some? then (s, Some(Failed("WatchExpiringSubscription", txFail.value)))
      else
        var users := UsersOf(s.subs, picked);
        NotesKeys(s.expiredOutbox, s.nextExpired, users);
        (s.(subs := MarkChecked(s.subs, users, now),
            expiredOutbox := InsertNotes(s.expiredOutbox, s.nextExpired, users),
            nextExpired := s.nextExpired + |users|), None)
  }

  /** No subscription is due twice: after a successful watch, nothing it picked is picked again, at any later time. */
  lemma WatchNeverRepeats(s: Tables, scan: seq<nat>, limit: nat, now: int, scan2: seq<nat>, limit2: nat, later: int)
    requires Valid(s)
    ensures var picked := Expiring(s.subs, scan, limit, now);
      var t := WatchStep(s, scan, limit, now, None, None).0;
      forall id :: id in picked ==> id !in Expiring(t.subs, scan2, limit2, later)
  {
    var picked := Expiring(s.subs, scan, limit, now);
    var t := WatchStep(s, scan, limit, now, None, None).0;
    if picked != [] {
      var users := UsersOf(s.subs, picked);
      forall id | id in picked ensures !Due(t.subs, id, later) {
        var i :| 0 <= i < |picked| && picked[i] == id;
        assert users[i] == s.subs[id].userId;
      }
    }
  }

  lemma UsersOfGrows(subs: map<nat, Sub>, ids: seq<nat>, id: nat)
    requires forall i :: 0 <= i < |ids| ==> ids[i] in subs
    requires id in subs
    ensures UsersOf(subs, ids + [id]) == UsersOf(subs, ids) + [subs[id].userId]
  {
    assert (ids + [id])[..|ids|] == ids;
  }

  /**
   * A successful watch with something due marks every subscription of the
   * picked owners, appends their expiry rows and touches nothing else.
   */
  lemma WatchStepWrites(s: Tables, scan: seq<nat>, limit: nat, now: int, users: seq<nat>)
    requires Valid(s)
    requires Expiring(s.subs, scan, limit, now) != []
    requires users == UsersOf(s.subs, Expiring(s.subs, scan, limit, now))
    ensures var r := WatchStep(s, scan, limit, now, None, None);
      && r.1 == None
      && r.0.subs == MarkChecked(s.subs, users, now)
      && r.0.expiredOutbox == InsertNotes(s.expiredOutbox, s.nextExpired, users)
      && r.0.nextExpired == s.nextExpired + |users|
      && r.0.checkedOutbox == s.checkedOutbox
      && r.0.nextSub == s.nextSub && r.0.nextChecked == s.nextChecked
  {
  }

  /** The `k`-th user's row sits at `next + k`, pending; later rows of the same insert do not overwrite it. */
  lemma {:induction false} NoteAt(t: Table<nat>, next: nat, users: seq<nat>, k: nat)
    requires k < |users|
    ensures next + k in InsertNotes(t, next, users)
    ensures InsertNotes(t, next, users)[next + k] == Entry(users[k], false)
    decreases |users|
  {
    var n := |users| - 1;
    if k < n {
      NoteAt(t, next, users[..n], k);
    }
  }

  /** Earlier rows survive the insert unchanged. */
  lemma {:induction false} NotesKeepOld(t: Table<nat>, next: nat, users: seq<nat>, id: nat)
    requires id in t && id < next
    ensures id in InsertNotes(t, next, users) && InsertNotes(t, next, users)[id] == t[id]
    decreases |users|
  {
    if users != [] {
      NotesKeepOld(t, next, users[..|users| - 1], id);
    }
  }

  /**
   * The expiry insert appends one pending row per user, in order, under
   * ids no earlier row holds, and leaves every earlier row as it was.
   */
  lemma NotesAppend(t: Table<nat>, next: nat, users: seq<nat>)
    requires forall id :: id in t ==> id < next
    ensures forall id :: id in InsertNotes(t, next, users) <==> id in t || next <= id < next + |users|
    ensures forall k :: 0 <= k < |users| ==> next + k !in t && InsertNotes(t, next, users)[next + k] == Entry(users[k], false)
    ensures forall id :: id in t ==> InsertNotes(t, next, users)[id] == t[id]
  {
    NotesKeys(t, next, users);
    forall k | 0 <= k < |users|
      ensures InsertNotes(t, next, users)[next + k] == Entry(users[k], false)
    {
      NoteAt(t, next, users, k);
    }
    forall id | id in t
      ensures InsertNotes(t, next, users)[id] == t[id]
    {
      NotesKeepOld(t, next, users, id);
    }
  }

  /** Collect the owner of each picked row, in order, as the rows are read. */
  method OwnersOf(subs: map<nat, Sub>, picked: seq<nat>) returns (users: seq<nat>)
    requires forall j :: 0 <= j < |picked| ==> picked[j] in subs
    ensures users == UsersOf(subs, picked)
  {
    users := [];
    var i := 0;
    while i < |picked|
      invariant 0 <= i <= |picked|
      invariant users == UsersOf(subs, picked[..i])
    {
      assert picked[..i + 1] == picked[..i] + [picked[i]];
      UsersOfGrows(subs, picked[..i], picked[i]);
      users := users + [subs[picked[i]].userId];
      i := i + 1;
    }
    assert picked[..|picked|] == picked;
  }

  /** The subscription tables; each method is one statement or one transaction. */
  class Subscriptions {
    var subs: map<nat, Sub>
    var checkedOutbox: Table<CheckedNote>
    var expiredOutbox: Table<nat>
    var nextSub: nat
    var nextChecked: nat
    var nextExpired: nat

    function State(): Tables
      reads this
    {
      Tables(subs, checkedOutbox, expiredOutbox, nextSub, nextChecked, nextExpired)
    }

    constructor ()
      ensures State() == Tables(map[], map[], map[], 1, 1, 1) && Valid(State())
    {
      subs, checkedOutbox, expiredOutbox := map[], map[], map[];
      nextSub, nextChecked, nextExpired := 1, 1, 1;
    }

    /** `Create`: build the rows, then insert them in one statement under fresh serial ids. */
    method Create(batch: seq<SubscriptionValue>, fail: Option<Fault>) returns (err: Option<Fault>)
      requires Valid(State())
      modifies this
      ensures (State(), err) == CreateStep(old(State()), batch, fail)
    {
      var rows := NewRows(batch);
      if rows == [] {
        return Some(Failed("Create", EmptyBatch));
      }
      if fail.Some? {
        return Some(Failed("Create", fail.value));
      }
      subs, nextSub := InsertSubs(subs, nextSub, rows), nextSub + |rows|;
      err := None;
      ghost var r := CreateStep(old(State()), batch, None);
      assert r.0.subs == subs && r.0.nextSub == nextSub;
      assert r.0 == State();
    }

    method CreateSubscriptionChecked(contextId: nat, usecase: string, perk: Perk, fail: Option<Fault>) returns (err: Option<Fault>)
      requires Valid(State())
      modifies this
      ensures (State(), err) == CreateSubscriptionCheckedStep(old(State()), contextId, usecase, perk, fail)
    {
      if fail.Some? {
        return Some(Failed("CreateSubscriptionChecked", fail.value));
      }
      checkedOutbox := Inserted(checkedOutbox, nextChecked,
                                CheckedNote(contextId, usecase, perk.lifetime, perk.limit, perk.allowShortEdit));
      nextChecked := nextChecked + 1;
      err := None;
    }

    method ResolveSubscriptionChecked(ids: seq<nat>, fail: Option<Fault>) returns (err: Option<Fault>)
      requires Valid(State())
      modifies this
      ensures (State(), err) == ResolveSubscriptionCheckedStep(old(State()), ids, fail)
    {
      if ids == [] {
        return Some(Failed("ResolveSubscriptionChecked", EmptyIn));
      }
      if fail.Some? {
        return Some(Failed("ResolveSubscriptionChecked", fail.value));
      }
      checkedOutbox := ResolveIds(checkedOutbox, ids);
      err := None;
    }

    method ResolveSubscriptionExpired(ids: seq<nat>, fail: Option<Fault>) returns (err: Option<Fault>)
      requires Valid(State())
      modifies this
      ensures (State(), err) == ResolveSubscriptionExpiredStep(old(State()), ids, fail)
    {
      if ids == [] {
        return Some(Failed("ResolveSubscriptionExpired", EmptyIn));
      }
      if fail.Some? {
        return Some(Failed("ResolveSubscriptionExpired", fail.value));
      }
      expiredOutbox := ResolveIds(expiredOutbox, ids);
      err := None;
    }

    /** `WatchExpiringSubscription`: collect the owners of the picked rows, then write the transaction. */
    method WatchExpiringSubscription(scan: seq<nat>, limit: nat, now: int, selectFail: Option<Fault>, txFail: Option<Fault>)
      returns (err: Option<Fault>)
      requires Valid(State())
      modifies this
      ensures (State(), err) == WatchStep(old(State()), scan, limit, now, selectFail, txFail)
    {
      if selectFail.Some? {
        return Some(Failed("WatchExpiringSubscription", selectFail.value));
      }
      var picked := Expiring(subs, scan, limit, now);
      if picked == [] {
        return None;
      }
      if txFail.Some? {
        return Some(Failed("WatchExpiringSubscription", txFail.value));
      }
      var users := OwnersOf(subs, picked);
      WatchStepWrites(old(State()), scan, limit, now, users);
      subs, expiredOutbox, nextExpired :=
        MarkChecked(subs, users, now), InsertNotes(expiredOutbox, nextExpired, users), nextExpired + |users|;
      err := None;
      ghost var r := WatchStep(old(State()), scan, limit, now, None, None);
      assert r.0 == State();
    }
  }
}
