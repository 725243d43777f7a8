/**
 * Transactional outbox tables. Each table maps a row id to a payload and
 * an `is_done` flag: producers insert pending rows in the same
 * transaction as their entity, a publisher fetches a bounded batch of
 * pending rows, and a resolve step flips the flag of the rows it sent.
 * Rows are never deleted.
 */
module Outbox {
  import opened Wrappers
  import opened Oops

  datatype Entry<P> = Entry(payload: P, isDone: bool)

  type Table<P> = map<nat, Entry<P>>

  predicate Pending<P>(t: Table<P>, id: nat)
  {
    id in t && !t[id].isDone
  }

  /** No id occurs twice in `ids`. */
  predicate Distinct(ids: seq<nat>)
  {
    forall i, j :: 0 <= i < j < |ids| ==> ids[i] != ids[j]
  }

  /** `scan` lists every row id of `t` exactly once: an order the database may return rows in. */
  predicate IsScanOf<V>(scan: seq<nat>, t: map<nat, V>)
  {
    && Distinct(scan)
    && (forall id :: id in scan ==> id in t)
    && (forall id :: id in t ==> id in scan)
  }

  /** The fresh pending row a producer inserts in the same transaction as its entity. */
  function Inserted<P>(t: Table<P>, id: nat, payload: P): (u: Table<P>)
    requires id !in t
    ensures u.Keys == t.Keys + {id}
    ensures Pending(u, id) && u[id].payload == payload
    ensures forall k :: k in t ==> u[k] == t[k]
  {
    t[id := Entry(payload, false)]
  }

  /**
   * `SELECT … WHERE is_done = false LIMIT count`: the first `count`
   * pending rows met while the database walks `scan`.
   */
  function FetchPending<P>(t: Table<P>, scan: seq<nat>, count: nat): (r: seq<nat>)
    ensures |r| <= count
    ensures forall i :: 0 <= i < |r| ==> Pending(t, r[i])
    ensures forall id :: id in r ==> id in scan
    decreases |scan|
  {
    if scan == [] || count == 0 then []
    else if Pending(t, scan[0]) then [scan[0]] + FetchPending(t, scan[1..], count - 1)
    else FetchPending(t, scan[1..], count)
  }

  /** A batch that is not full holds every pending row the scan met. */
  lemma {:induction false} FetchComplete<P>(t: Table<P>, scan: seq<nat>, count: nat)
    ensures |FetchPending(t, scan, count)| < count ==>
              forall id :: id in scan && Pending(t, id) ==> id in FetchPending(t, scan, count)
    decreases |scan|
  {
    if scan != [] && count != 0 {
      FetchComplete(t, scan[1..], if Pending(t, scan[0]) then count - 1 else count);
      forall id | id in scan && Pending(t, id) && |FetchPending(t, scan, count)| < count
        ensures id in FetchPending(t, scan, count)
      {
        if id != scan[0] {
          assert id in scan[1..];
        }
      }
    }
  }

  /** Over a scan without repeats, a batch holds no row twice. */
  lemma {:induction false} FetchDistinct<P>(t: Table<P>, scan: seq<nat>, count: nat)
    requires Distinct(scan)
    ensures Distinct(FetchPending(t, scan, count))
    decreases |scan|
  {
    if scan != [] && count != 0 {
      var rest := scan[1..];
      var c: nat := if Pending(t, scan[0]) then count - 1 else count;
      FetchDistinct(t, rest, c);
      if Pending(t, scan[0]) {
        var tail := FetchPending(t, rest, c);
        assert scan[0] !in tail;
        var r := [scan[0]] + tail;
        assert FetchPending(t, scan, count) == r;
        forall i, j | 0 <= i < j < |r| ensures r[i] != r[j] {
          if i == 0 {
            assert r[j] == tail[j - 1] && tail[j - 1] in tail;
          } else {
            assert r[i] == tail[i - 1] && r[j] == tail[j - 1];
            assert tail[i - 1] != tail[j - 1];
          }
        }
      }
    }
  }

  /** Once every row is pending-or-fetched, a short batch is the whole pending set. */
  lemma FetchAllPending<P>(t: Table<P>, scan: seq<nat>, count: nat)
    requires IsScanOf(scan, t)
    ensures var r := FetchPending(t, scan, count);
      |r| < count ==> forall id :: Pending(t, id) <==> id in r
  {
    FetchComplete(t, scan, count);
  }

  /** The error `sqlx.In` gives for an empty id list. */
  const EmptyIn: Fault := Plain("empty slice passed to 'in' query")

  /** `UPDATE … SET is_done = true WHERE id IN (ids)`. */
  function ResolveIds<P>(t: Table<P>, ids: seq<nat>): (u: Table<P>)
    ensures u.Keys == t.Keys
    ensures forall id :: id in t ==> u[id].payload == t[id].payload
    ensures forall id :: id in t ==> u[id].isDone == (t[id].isDone || id in ids)
  {
    map id | id in t :: if id in ids then t[id].(isDone := true) else t[id]
  }

  /** `UPDATE … SET is_done = true WHERE user_id IN (users)`, for tables whose payload is the user id. */
  function ResolveUsers(t: Table<nat>, users: seq<nat>): (u: Table<nat>)
    ensures u.Keys == t.Keys
    ensures forall id :: id in t ==> u[id].payload == t[id].payload
    ensures forall id :: id in t ==> u[id].isDone == (t[id].isDone || t[id].payload in users)
  {
    map id | id in t :: if t[id].payload in users then t[id].(isDone := true) else t[id]
  }

  /** Resolving twice is resolving once. */
  lemma ResolveIdsIdempotent<P>(t: Table<P>, ids: seq<nat>)
    ensures ResolveIds(ResolveIds(t, ids), ids) == ResolveIds(t, ids)
  {
  }

  lemma ResolveUsersIdempotent(t: Table<nat>, users: seq<nat>)
    ensures ResolveUsers(ResolveUsers(t, users), users) == ResolveUsers(t, users)
  {
  }

  /** Resolving a fetched batch leaves none of its rows pending and touches no other row. */
  lemma ResolveFetched<P>(t: Table<P>, scan: seq<nat>, count: nat)
    ensures var r := FetchPending(t, scan, count);
      var u := ResolveIds(t, r);
      && (forall id :: id in r ==> !Pending(u, id))
      && (forall id :: id in t && id !in r ==> u[id] == t[id])
  {
  }

  /**
   * The two keyings disagree: an outbox row whose id differs from its
   * user id is resolved by one and left pending by the other.
   */
  lemma KeyingsDisagree()
    ensures var t := map[1 := Entry(2, false)];
      && Pending(ResolveIds(t, [2]), 1) && !Pending(ResolveUsers(t, [2]), 1)
      && !Pending(ResolveIds(t, [1]), 1) && Pending(ResolveUsers(t, [1]), 1)
  {
    var t := map[1 := Entry(2, false)];
    assert 1 in t;
  }

  /** A register-outbox row as the account service sees it. */
  datatype RegisterValue = RegisterValue(id: nat, userId: nat, isDone: bool)

  function RowOf(t: Table<nat>, id: nat): (v: RegisterValue)
    requires id in t
    ensures v.id == id && v.userId == t[id].payload && v.isDone == t[id].isDone
  {
    RegisterValue(id, t[id].payload, t[id].isDone)
  }

  /** The row with its flag set. */
  function Marked(v: RegisterValue): (w: RegisterValue)
    ensures w.isDone && w.id == v.id && w.userId == v.userId
  {
    v.(isDone := true)
  }

  /** Marking is idempotent. */
  lemma MarkedIdempotent(v: RegisterValue)
    ensures Marked(Marked(v)) == Marked(v)
  {
  }

  /** A register-outbox row (`Register`, `UserRegistered`); `Done` sets its flag in place. */
  class Register {
    const id: nat
    const userId: nat
    var isDone: bool

    function Value(): RegisterValue
      reads this
    {
      RegisterValue(id, userId, isDone)
    }

    /** `NewRegister` stores exactly what it is given. */
    constructor (id: nat, userId: nat, isDone: bool)
      ensures Value() == RegisterValue(id, userId, isDone)
    {
      this.id := id;
      this.userId := userId;
      this.isDone := isDone;
    }

    method Done()
      modifies this
      ensures Value() == Marked(old(Value()))
    {
      isDone := true;
    }
  }
}
