/**
 * The account service (account/internal/service/account.go): registration
 * and the publisher step that drains the register outbox into one
 * "create subscription" command on the broker.
 *
 * The hasher, the serializer and the broker are collaborators: their
 * outcomes are parameters. A message the broker accepted is returned as
 * `Sent`.
 */
module AccountService {
  import opened Wrappers
  import opened Oops
  import opened Json
  import opened AmqpOpts
  import opened Outbox
  import opened AccountStore

  const CreateSubscriptionQueue: string := "subscription.creator"
  const PublishChannel: string := "default"
  const RegisterContext: string := "service<Account.Register>: "
  const HandleContext: string := "service<Account.HandleNewUsers>: "

  /** A message handed to the broker. */
  datatype Sent = Sent(channel: string, payload: Bytes, opts: PublishOpts)

  /** The publish options of the create-subscription command. */
  function CommandOpts(): (o: PublishOpts)
    ensures o.exchange == "" && o.key == CreateSubscriptionQueue && o.contentType == "application/json"
    ensures !o.mandatory && !o.immediate
  {
    NewDefaultPublishOpts("", CreateSubscriptionQueue, "application/json")
  }

  /**
   * `Register`: hash the password, then create the user with the digest.
   * A hashing failure never reaches the store.
   */
  function RegisterStep(s: StoreState, copy: Copy, username: string, email: string, digest: Result<string>, fail: Option<Fault>)
    : (r: (StoreState, Option<Fault>))
    requires Valid(s)
    ensures Valid(r.0)
    ensures r.1.None? <==> digest.Ok? && fail.None?
    ensures digest.Err? ==> r == (s, Some(Wrap(RegisterContext, digest.fault)))
    ensures digest.Ok? && fail.Some? ==> r == (s, Some(Wrap(RegisterContext, Failed(copy, "Create", fail.value))))
    ensures r.1.None? ==>
      && s.nextUser in r.0.users
      && r.0.users[s.nextUser] == User(s.nextUser, username, digest.value, email)
      && Pending(r.0.outbox, s.nextOutbox) && r.0.outbox[s.nextOutbox].payload == s.nextUser
  {
    if digest.Err? then (s, Some(Wrap(RegisterContext, digest.fault)))
    else
      var (t, e) := CreateStep(copy, s, User(0, username, digest.value, email), fail);
      (t, if e.Some? then Some(Wrap(RegisterContext, e.value)) else None)
  }

  method Register(store: UserStore, username: string, email: string, digest: Result<string>, fail: Option<Fault>)
    returns (err: Option<Fault>)
    requires Valid(store.State())
    modifies store
    ensures (store.State(), err) == RegisterStep(old(store.State()), store.copy, username, email, digest, fail)
  {
    if digest.Err? {
      return Some(Wrap(RegisterContext, digest.fault));
    }
    var user := User(0, username, digest.value, email);
    var e := store.Create(user, fail);
    if e.Some? {
      return Some(Wrap(RegisterContext, e.value));
    }
    err := None;
  }

  /** The collaborators' outcomes during one publisher tick. */
  datatype Tick = Tick(
    scan: seq<nat>,                                // the order the outbox rows come back in
    fetch: Option<Fault>,                          // failure of GetRegisterOutbox
    serialize: seq<RegisterValue> -> Result<Bytes>,
    publish: Option<Fault>,                        // the broker's refusal, if any
    resolve: Option<Fault>)                        // failure of ResolveRegisterOutbox

  /**
   * `HandleRegisteredUsers`: fetch at most `maxCount` pending rows, send
   * them as one command, and only then resolve their outbox ids.
   */
  function HandleStep(s: StoreState, copy: Copy, maxCount: nat, k: Tick): (r: (StoreState, Option<Sent>, Option<Fault>))
    requires Valid(s)
    ensures Valid(r.0)
    ensures var batch := PendingBatch(s.outbox, k.scan, maxCount);
      && (k.fetch.Some? ==> r == (s, None, Some(Wrap(HandleContext, Failed(copy, "GetRegisterOutbox", k.fetch.value)))))
      && (k.fetch.None? && batch == [] ==> r == (s, None, None))
      && (k.fetch.None? && batch != [] && k.serialize(batch).Err? ==>
            r == (s, None, Some(Wrap(HandleContext, k.serialize(batch).fault))))
      && (k.fetch.None? && batch != [] && k.serialize(batch).Ok? && k.publish.Some? ==>
            r == (s, None, Some(Wrap(HandleContext, k.publish.value))))
      && (r.1.Some? <==> k.fetch.None? && batch != [] && k.serialize(batch).Ok? && k.publish.None?)
      && (r.1.Some? ==> r.1.value == Sent(PublishChannel, k.serialize(batch).value, CommandOpts()))
      && (r.1.Some? ==> (r.0, r.2) == (var (t, e) := ResolveStep(copy, s, Ids(batch), k.resolve);
                                       (t, if e.Some? then Some(Wrap(HandleContext, e.value)) else None)))
    ensures r.1.None? ==> r.0 == s
  {
    if k.fetch.Some? then (s, None, Some(Wrap(HandleContext, Failed(copy, "GetRegisterOutbox", k.fetch.value))))
    else
      var batch := PendingBatch(s.outbox, k.scan, maxCount);
      if batch == [] then (s, None, None)
      else
        var payload := k.serialize(batch);
        if payload.Err? then (s, None, Some(Wrap(HandleContext, payload.fault)))
        else if k.publish.Some? then (s, None, Some(Wrap(HandleContext, k.publish.value)))
        else
          var (t, e) := ResolveStep(copy, s, Ids(batch), k.resolve);
          (t, Some(Sent(PublishChannel, payload.value, CommandOpts())), if e.Some? then Some(Wrap(HandleContext, e.value)) else None)
  }

  /**
   * Against the store keyed by outbox id, a tick that sent its batch and
   * resolved it leaves none of the sent rows pending and every other row
   * as it was; a tick that sent nothing leaves every row pending.
   */
  lemma SentRowsResolved(s: StoreState, maxCount: nat, k: Tick)
    requires Valid(s)
    ensures var (t, sent, err) := HandleStep(s, PgAccount, maxCount, k);
      var fetched := FetchPending(s.outbox, k.scan, maxCount);
      && (sent.Some? && err.None? ==>
            && (forall id :: id in fetched ==> id in t.outbox && t.outbox[id].isDone)
            && (forall id :: id in s.outbox && id !in fetched ==> t.outbox[id] == s.outbox[id]))
      && (sent.None? ==> t.outbox == s.outbox)
  {
    BatchIds(s.outbox, k.scan, maxCount);
  }

  /** A serializer that never fails. */
  function Blank(batch: seq<RegisterValue>): Result<Bytes>
  {
    Ok(NoBytes)
  }

  /**
   * The same tick against a store keyed by user id resolves the rows whose
   * user id happens to equal a sent outbox id, so a sent row can stay
   * pending and an unsent one can be closed.
   */
  lemma SentRowsMisresolvedByUserKey()
    ensures var s := StoreState(map[1 := User(1, "a", "p", "a@x"), 2 := User(2, "b", "q", "b@x"), 3 := User(3, "c", "r", "c@x")],
                                map[3 := Entry(1, false), 4 := Entry(3, false)], 4, 5);
      var k := Tick([3], None, Blank, None, None);
      var (t, sent, err) := HandleStep(s, PgUser, 1, k);
      && Valid(s) && sent.Some? && err.None?
      && Pending(t.outbox, 3) && !Pending(t.outbox, 4)
  {
    var s := StoreState(map[1 := User(1, "a", "p", "a@x"), 2 := User(2, "b", "q", "b@x"), 3 := User(3, "c", "r", "c@x")],
                        map[3 := Entry(1, false), 4 := Entry(3, false)], 4, 5);
    var k := Tick([3], None, Blank, None, None);
    assert FetchPending(s.outbox, [3], 1) == [3];
    BatchIds(s.outbox, [3], 1);
    assert Ids(PendingBatch(s.outbox, [3], 1)) == [3];
    var t := ResolveUsers(s.outbox, [3]);
    assert t[3] == s.outbox[3] && t[4].isDone;
  }

  /** The publisher step as the service runs it: the resolved ids are collected one row at a time. */
  method HandleRegisteredUsers(store: UserStore, maxCount: nat, k: Tick) returns (sent: Option<Sent>, err: Option<Fault>)
    requires Valid(store.State())
    modifies store
    ensures (store.State(), sent, err) == HandleStep(old(store.State()), store.copy, maxCount, k)
  {
    var outbox := store.GetRegisterOutbox(maxCount, k.scan, k.fetch);
    if outbox.Err? {
      return None, Some(Wrap(HandleContext, outbox.fault));
    }
    var batch := outbox.value;
    if |batch| == 0 {
      return None, None;
    }
    var payload := k.serialize(batch);
    if payload.Err? {
      return None, Some(Wrap(HandleContext, payload.fault));
    }
    if k.publish.Some? {
      return None, Some(Wrap(HandleContext, k.publish.value));
    }
    sent := Some(Sent(PublishChannel, payload.value, CommandOpts()));
    var resolved: seq<nat> := [];
    var i := 0;
    while i < |batch|
      invariant 0 <= i <= |batch|
      invariant resolved == Ids(batch[..i])
      invariant store.State() == old(store.State())
    {
      assert batch[..i + 1] == batch[..i] + [batch[i]];
      IdsSnoc(batch[..i], batch[i]);
      resolved := resolved + [batch[i].id];
      i := i + 1;
    }
    assert batch[..i] == batch;
    var e := store.ResolveRegisterOutbox(resolved, k.resolve);
    err := if e.Some? then Some(Wrap(HandleContext, e.value)) else None;
  }

  lemma IdsSnoc(rows: seq<RegisterValue>, row: RegisterValue)
    ensures Ids(rows + [row]) == Ids(rows) + [row.id]
  {
    assert (rows + [row])[..|rows|] == rows;
  }
}
