/**
 * The account service's user store over PostgreSQL: the `users` table and
 * the `register_outbox` table whose pending rows announce new users.
 *
 * Three copies exist. `pgAccount` resolves outbox rows by outbox id and
 * prefixes errors with "persistence<pgAccount.X>: "; `pgUser` resolves by
 * user id with "persistence<pgUser.X>: "; the repository copy resolves by
 * user id and returns driver errors unwrapped. Driver failures are
 * parameters (`fail`), and the order in which the database returns rows
 * is a parameter (`scan`).
 */
module AccountStore {
  import opened Wrappers
  import opened Oops
  import opened Strconv
  import opened Outbox

  datatype Copy = PgAccount | PgUser | Repository

  datatype User = User(id: nat, username: string, password: string, email: string)

  /** The driver's `sql.ErrNoRows`. */
  const NoRows: Fault := Plain("sql: no rows in result set")

  /** The error a copy returns for `cause` inside operation `op`. */
  function Failed(copy: Copy, op: string, cause: Fault): (f: Fault)
    ensures copy == Repository ==> f == cause
    ensures copy == PgAccount ==> f == Wrap("persistence<pgAccount." + op + ">: ", cause)
    ensures copy == PgUser ==> f == Wrap("persistence<pgUser." + op + ">: ", cause)
  {
    match copy
    case PgAccount => Wrap("persistence<pgAccount." + op + ">: ", cause)
    case PgUser => Wrap("persistence<pgUser." + op + ">: ", cause)
    case Repository => cause
  }

  /** The wrapping never hides the cause from `errors.As`. */
  lemma FailedKeepsStatus(copy: Copy, op: string, cause: Fault)
    ensures HttpStatusCode(Some(Failed(copy, op, cause))) == HttpStatusCode(Some(cause))
  {
    WrapKeepsStatus("persistence<pgAccount." + op + ">: ", cause);
    WrapKeepsStatus("persistence<pgUser." + op + ">: ", cause);
  }

  datatype StoreState = StoreState(users: map<nat, User>, outbox: Table<nat>, nextUser: nat, nextOutbox: nat)

  /** Serial ids stay ahead of the rows, users carry their own key, and every outbox row names a stored user. */
  predicate Valid(s: StoreState)
  {
    && (forall id :: id in s.users ==> id < s.nextUser && s.users[id].id == id)
    && (forall o :: o in s.outbox ==> o < s.nextOutbox && s.outbox[o].payload in s.users)
  }

  /**
   * `Create`: one transaction inserts the user (its own id is ignored; the
   * serial assigns one) and a pending register_outbox row for that id.
   * Any failing statement rolls both back.
   */
  function CreateStep(copy: Copy, s: StoreState, u: User, fail: Option<Fault>): (r: (StoreState, Option<Fault>))
    requires Valid(s)
    ensures Valid(r.0)
    ensures r.1.Some? <==> fail.Some?
    ensures fail.Some? ==> r.0 == s && r.1 == Some(Failed(copy, "Create", fail.value))
    ensures fail.None? ==>
      var id := s.nextUser;
      && id !in s.users && s.nextOutbox !in s.outbox
      && r.0.users == s.users[id := u.(id := id)]
      && r.0.outbox == Inserted(s.outbox, s.nextOutbox, id)
  {
    if fail.Some? then (s, Some(Failed(copy, "Create", fail.value)))
    else
      var id := s.nextUser;
      (StoreState(s.users[id := u.(id := id)], Inserted(s.outbox, s.nextOutbox, id), id + 1, s.nextOutbox + 1), None)
  }

  /** `Create` is all or nothing: the users table changes exactly when the outbox does. */
  lemma CreateAtomic(copy: Copy, s: StoreState, u: User, fail: Option<Fault>)
    requires Valid(s)
    ensures var t := CreateStep(copy, s, u, fail).0;
      (t.users == s.users <==> t.outbox == s.outbox)
  {
    if fail.None? {
      var t := CreateStep(copy, s, u, fail).0;
      assert s.nextUser in t.users && s.nextUser !in s.users;
      assert s.nextOutbox in t.outbox && s.nextOutbox !in s.outbox;
    }
  }

  /** A successful `Create` adds exactly one user and one outbox row. */
  lemma CreateAddsOne(copy: Copy, s: StoreState, u: User)
    requires Valid(s)
    ensures var t := CreateStep(copy, s, u, None).0;
      |t.users.Keys| == |s.users.Keys| + 1 && |t.outbox.Keys| == |s.outbox.Keys| + 1
  {
    var id := s.nextUser;
    OneMoreKey(s.users, id, u.(id := id));
    OneMoreKey(s.outbox, s.nextOutbox, Entry(id, false));
  }

  lemma OneMoreKey<V>(m: map<nat, V>, k: nat, v: V)
    requires k !in m
    ensures |m[k := v].Keys| == |m.Keys| + 1
  {
    assert m[k := v].Keys == m.Keys + {k};
  }

  /** `Update`: rewrite the user's columns where the id matches; no outbox row is written. */
  function UpdateStep(copy: Copy, s: StoreState, u: User, fail: Option<Fault>): (r: (StoreState, Option<Fault>))
    requires Valid(s)
    ensures Valid(r.0)
    ensures r.1.Some? <==> fail.Some?
    ensures r.1.Some? ==> r.1.value == Failed(copy, "Update", fail.value)
    ensures r.0.outbox == s.outbox && r.0.nextUser == s.nextUser && r.0.nextOutbox == s.nextOutbox
    ensures r.0.users.Keys == s.users.Keys
    ensures forall id :: id in s.users && id != u.id ==> r.0.users[id] == s.users[id]
    ensures fail.None? && u.id in s.users ==> r.0.users[u.id] == u
    ensures fail.Some? || u.id !in s.users ==> r.0 == s
  {
    if fail.Some? then (s, Some(Failed(copy, "Update", fail.value)))
    else if u.id in s.users then (s.(users := s.users[u.id := u]), None)
    else (s, None)
  }

  /** The message of the NotFound a lookup by id reports. */
  function IdNotFound(id: nat): string
  {
    "user(id:" + NatDigits(id) + ") not found"
  }

  /** How a lookup that met no row fails in each copy. */
  function NotFoundIn(copy: Copy, op: string, msg: string): (f: Fault)
    ensures HttpStatusCode(Some(f)) == 404
  {
    var nf := Typed(NotFound, msg, Some(NoRows));
    FailedKeepsStatus(copy, op, nf);
    Failed(copy, op, nf)
  }

  /**
   * `GetById` as written: `WHERE id = $1 OR 1 = 1` matches every row, so
   * the first row of the scan is returned whatever id is asked for, and
   * NotFound is reported only for an empty table.
   */
  function GetByIdAsWritten(copy: Copy, s: StoreState, id: nat, scan: seq<nat>, fail: Option<Fault>): (r: Result<User>)
    requires Valid(s) && IsScanOf(scan, s.users)
    ensures fail.Some? ==> r == Err(Failed(copy, "GetById", fail.value))
    ensures fail.None? ==> (r.Err? <==> s.users == map[])
    ensures fail.None? && r.Err? ==> r.fault == NotFoundIn(copy, "GetById", IdNotFound(id))
    ensures r.Ok? ==> r.value.id in s.users && s.users[r.value.id] == r.value
  {
    if fail.Some? then Err(Failed(copy, "GetById", fail.value))
    else if scan == [] then
      assert s.users.Keys == {};
      Err(NotFoundIn(copy, "GetById", IdNotFound(id)))
    else
      assert scan[0] in scan;
      Ok(s.users[scan[0]])
  }

  /** The lookup by id with the predicate it evidently meant: `WHERE id = $1`. */
  function GetById(copy: Copy, s: StoreState, id: nat, fail: Option<Fault>): (r: Result<User>)
    requires Valid(s)
    ensures fail.Some? ==> r == Err(Failed(copy, "GetById", fail.value))
    ensures fail.None? ==> (r.Ok? <==> id in s.users)
    ensures fail.None? && r.Err? ==> r.fault == NotFoundIn(copy, "GetById", IdNotFound(id))
    ensures r.Ok? ==> r.value.id == id && r.value == s.users[id]
  {
    if fail.Some? then Err(Failed(copy, "GetById", fail.value))
    else if id in s.users then Ok(s.users[id])
    else Err(NotFoundIn(copy, "GetById", IdNotFound(id)))
  }

  /** The input that shows it: with two users, asking for the second returns the first. */
  lemma GetByIdReturnsAnotherUser(copy: Copy)
    ensures var a := User(1, "a", "p", "a@x");
      var b := User(2, "b", "q", "b@x");
      var s := StoreState(map[1 := a, 2 := b], map[], 3, 1);
      && Valid(s) && IsScanOf([1, 2], s.users)
      && GetByIdAsWritten(copy, s, 2, [1, 2], None) == Ok(a)
      && GetById(copy, s, 2, None) == Ok(b)
  {
    var a := User(1, "a", "p", "a@x");
    var b := User(2, "b", "q", "b@x");
    var s := StoreState(map[1 := a, 2 := b], map[], 3, 1);
    assert [1, 2][0] == 1;
    assert forall id :: id in s.users ==> id in [1, 2];
  }

  /** The first user met in `scan` whose username is `name`. */
  function FirstNamed(users: map<nat, User>, scan: seq<nat>, name: string): (r: Option<nat>)
    requires forall id :: id in scan ==> id in users
    ensures r.Some? ==> r.value in scan && users[r.value].username == name
    ensures r.Some? ==> exists i :: 0 <= i < |scan| && scan[i] == r.value
                          && forall j :: 0 <= j < i ==> users[scan[j]].username != name
    ensures r.None? ==> forall id :: id in scan ==> users[id].username != name
  {
    if scan == [] then None
    else if users[scan[0]].username == name then Some(scan[0])
    else
      var rest := FirstNamed(users, scan[1..], name);
      assert rest.Some? ==> exists i :: 0 <= i < |scan| && scan[i] == rest.value
                              && forall j :: 0 <= j < i ==> users[scan[j]].username != name by {
        if rest.Some? {
          var i :| 0 <= i < |scan[1..]| && scan[1..][i] == rest.value
                   && forall j :: 0 <= j < i ==> users[scan[1..][j]].username != name;
          assert scan[i + 1] == rest.value;
          forall j | 0 <= j < i + 1 ensures users[scan[j]].username != name {
            if j > 0 { assert scan[j] == scan[1..][j - 1]; }
          }
        }
      }
      rest
  }

  /**
   * `GetByUsername` (the two copies that define it). `pgUser` reports a
   * wrapped NotFound when no row matches; the repository copy returns the
   * driver's no-rows error as is.
   */
  function GetByUsername(copy: Copy, s: StoreState, name: string, scan: seq<nat>, fail: Option<Fault>): (r: Result<User>)
    requires copy != PgAccount
    requires Valid(s) && IsScanOf(scan, s.users)
    ensures fail.Some? ==> r == Err(Failed(copy, "GetByUsername", fail.value))
    ensures fail.None? ==> (r.Ok? <==> exists id :: id in s.users && s.users[id].username == name)
    ensures r.Ok? ==> r.value.username == name && r.value.id in s.users && s.users[r.value.id] == r.value
    ensures fail.None? && r.Err? && copy == PgUser ==>
              r.fault == NotFoundIn(copy, "GetByUsername", "user(username:" + name + ") not found")
    ensures fail.None? && r.Err? && copy == Repository ==> r.fault == NoRows
  {
    if fail.Some? then Err(Failed(copy, "GetByUsername", fail.value))
    else
      match FirstNamed(s.users, scan, name)
      case Some(id) => Ok(s.users[id])
      case None =>
        assert forall id :: id in s.users ==> id in scan;
        if copy == PgUser then Err(NotFoundIn(copy, "GetByUsername", "user(username:" + name + ") not found"))
        else Err(NoRows)
  }

  /** The register_outbox rows named by `ids`, in order. */
  function Rows(t: Table<nat>, ids: seq<nat>): (rows: seq<RegisterValue>)
    requires forall i :: 0 <= i < |ids| ==> ids[i] in t
    ensures |rows| == |ids|
    ensures forall i :: 0 <= i < |ids| ==> rows[i] == RowOf(t, ids[i])
  {
    if ids == [] then [] else [RowOf(t, ids[0])] + Rows(t, ids[1..])
  }

  /** What `GetRegisterOutbox` returns: at most `count` rows, none done, each the stored row. */
  function PendingBatch(t: Table<nat>, scan: seq<nat>, count: nat): (rows: seq<RegisterValue>)
    ensures |rows| == |FetchPending(t, scan, count)| <= count
    ensures forall i :: 0 <= i < |rows| ==> !rows[i].isDone && rows[i].id in t && t[rows[i].id].payload == rows[i].userId
    ensures forall i :: 0 <= i < |rows| ==> rows[i].id == FetchPending(t, scan, count)[i]
  {
    Rows(t, FetchPending(t, scan, count))
  }

  /** The outbox ids of a batch (`o.Id()` for each row). */
  function Ids(rows: seq<RegisterValue>): (ids: seq<nat>)
    ensures |ids| == |rows|
    ensures forall i :: 0 <= i < |rows| ==> ids[i] == rows[i].id
  {
    if rows == [] then [] else [rows[0].id] + Ids(rows[1..])
  }

  /** The ids of a fetched batch are exactly the rows the fetch selected. */
  lemma BatchIds(t: Table<nat>, scan: seq<nat>, count: nat)
    ensures Ids(PendingBatch(t, scan, count)) == FetchPending(t, scan, count)
  {
  }

  /** `ResolveRegisterOutbox`: the copy's keying applied to the table. */
  function ResolveStep(copy: Copy, s: StoreState, ids: seq<nat>, fail: Option<Fault>): (r: (StoreState, Option<Fault>))
    requires Valid(s)
    ensures Valid(r.0)
    ensures r.1.Some? <==> ids == [] || fail.Some?
    ensures ids == [] ==> r == (s, Some(Failed(copy, "ResolveRegisterOutbox", EmptyIn)))
    ensures ids != [] && fail.Some? ==> r == (s, Some(Failed(copy, "ResolveRegisterOutbox", fail.value)))
    ensures r.0.users == s.users && r.0.nextUser == s.nextUser && r.0.nextOutbox == s.nextOutbox
    ensures r.1.None? && copy == PgAccount ==> r.0.outbox == ResolveIds(s.outbox, ids)
    ensures r.1.None? && copy != PgAccount ==> r.0.outbox == ResolveUsers(s.outbox, ids)
  {
    if ids == [] then (s, Some(Failed(copy, "ResolveRegisterOutbox", EmptyIn)))
    else if fail.Some? then (s, Some(Failed(copy, "ResolveRegisterOutbox", fail.value)))
    else if copy == PgAccount then (s.(outbox := ResolveIds(s.outbox, ids)), None)
    else (s.(outbox := ResolveUsers(s.outbox, ids)), None)
  }

  /** Resolving never deletes a row, never reopens one, and a second identical resolve changes nothing. */
  lemma ResolveMonotoneIdempotent(copy: Copy, s: StoreState, ids: seq<nat>, fail: Option<Fault>)
    requires Valid(s)
    ensures var t := ResolveStep(copy, s, ids, fail).0;
      && t.outbox.Keys == s.outbox.Keys
      && (forall o :: o in s.outbox && s.outbox[o].isDone ==> t.outbox[o].isDone)
      && ResolveStep(copy, t, ids, None).0 == ResolveStep(copy, s, ids, None).0
  {
    ResolveIdsIdempotent(s.outbox, ids);
    ResolveUsersIdempotent(s.outbox, ids);
  }

  /** The user store; each method is one statement or one transaction against the tables. */
  class UserStore {
    const copy: Copy
    var users: map<nat, User>
    var outbox: Table<nat>
    var nextUser: nat
    var nextOutbox: nat

    function State(): StoreState
      reads this
    {
      StoreState(users, outbox, nextUser, nextOutbox)
    }

    constructor (copy: Copy)
      ensures this.copy == copy
      ensures State() == StoreState(map[], map[], 1, 1) && Valid(State())
    {
      this.copy := copy;
      users := map[];
      outbox := map[];
      nextUser := 1;
      nextOutbox := 1;
    }

    method Create(u: User, fail: Option<Fault>) returns (err: Option<Fault>)
      requires Valid(State())
      modifies this
      ensures (State(), err) == CreateStep(copy, old(State()), u, fail)
    {
      if fail.Some? {
        return Some(Failed(copy, "Create", fail.value));
      }
      var id := nextUser;
      users := users[id := u.(id := id)];
      outbox := Inserted(outbox, nextOutbox, id);
      nextUser := nextUser + 1;
      nextOutbox := nextOutbox + 1;
      err := None;
    }

    method Update(u: User, fail: Option<Fault>) returns (err: Option<Fault>)
      requires Valid(State())
      modifies this
      ensures (State(), err) == UpdateStep(copy, old(State()), u, fail)
    {
      if fail.Some? {
        return Some(Failed(copy, "Update", fail.value));
      }
      if u.id in users {
        users := users[u.id := u];
      }
      err := None;
    }

    /** `GetRegisterOutbox`: select the pending rows, then convert them one by one. */
    method GetRegisterOutbox(count: nat, scan: seq<nat>, fail: Option<Fault>) returns (r: Result<seq<RegisterValue>>)
      ensures fail.Some? ==> r == Err(Failed(copy, "GetRegisterOutbox", fail.value))
      ensures fail.None? ==> r == Ok(PendingBatch(outbox, scan, count))
    {
      if fail.Some? {
        return Err(Failed(copy, "GetRegisterOutbox", fail.value));
      }
      var selected := FetchPending(outbox, scan, count);
      var rows: seq<RegisterValue> := [];
      var i := 0;
      while i < |selected|
        invariant 0 <= i <= |selected|
        invariant rows == Rows(outbox, selected[..i])
      {
        assert selected[..i + 1][..i] == selected[..i];
        RowsSnoc(outbox, selected[..i], selected[i]);
        assert selected[..i + 1] == selected[..i] + [selected[i]];
        rows := rows + [RowOf(outbox, selected[i])];
        i := i + 1;
      }
      assert selected[..i] == selected;
      r := Ok(rows);
    }

    method ResolveRegisterOutbox(ids: seq<nat>, fail: Option<Fault>) returns (err: Option<Fault>)
      requires Valid(State())
      modifies this
      ensures (State(), err) == ResolveStep(copy, old(State()), ids, fail)
    {
      if ids == [] {
        return Some(Failed(copy, "ResolveRegisterOutbox", EmptyIn));
      }
      if fail.Some? {
        return Some(Failed(copy, "ResolveRegisterOutbox", fail.value));
      }
      if copy == PgAccount {
        outbox := ResolveIds(outbox, ids);
      } else {
        outbox := ResolveUsers(outbox, ids);
      }
      err := None;
    }
  }

  lemma RowsSnoc(t: Table<nat>, ids: seq<nat>, id: nat)
    requires forall i :: 0 <= i < |ids| ==> ids[i] in t
    requires id in t
    ensures Rows(t, ids + [id]) == Rows(t, ids) + [RowOf(t, id)]
  {
  }
}
