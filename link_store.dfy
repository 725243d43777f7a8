/**
 * The link tables of the link service (link/internal/persistence): the
 * `links` table and its two outbox tables, `link_shortened_outbox` and
 * `short_configured_outbox`. `pg` (pg.shortening.go) writes an outbox row
 * in the same transaction as the link; the older `pgLink`
 * (shortening.pg.go) writes the link alone.
 *
 * Each statement's failure is a parameter; a transaction that fails at any
 * statement leaves every table as it was. The database clock
 * (`CURRENT_TIMESTAMP`) is the parameter `now`.
 */
module LinkStore {
  import opened Wrappers
  import opened Oops
  import opened Strconv
  import opened Outbox
  import opened LinkDomain
  import opened Envelopes

  /** A row of `links`. The table has no alias column. */
  datatype Row = Row(userId: nat, shortened: string, destination: string, isOpen: bool, updatedAt: int, expiredAt: int)

  /** Payload of a `link_shortened_outbox` row. */
  datatype ShortenedNote = ShortenedNote(userId: nat, linkId: nat)

  /** Payload of a `short_configured_outbox` row. */
  datatype ConfiguredNote = ConfiguredNote(userId: nat, linkId: nat, destination: string, shortened: string)

  datatype Tables = Tables(
    links: map<nat, Row>,
    shortenedOutbox: Table<ShortenedNote>,
    configuredOutbox: Table<ConfiguredNote>,
    nextLink: nat, nextShortened: nat, nextConfigured: nat)

  /** Every serial stays ahead of the ids it has handed out. */
  predicate Valid(s: Tables)
  {
    && (forall id :: id in s.links ==> id < s.nextLink)
    && (forall id :: id in s.shortenedOutbox ==> id < s.nextShortened)
    && (forall id :: id in s.configuredOutbox ==> id < s.nextConfigured)
  }

  const NoRows: Fault := Plain("sql: no rows in result set")

  function Failed(op: string, cause: Fault): (f: Fault)
    ensures HttpStatusCode(Some(f)) == HttpStatusCode(Some(cause))
  {
    WrapKeepsStatus("persistence<pg." + op + ">: ", cause);
    Wrap("persistence<pg." + op + ">: ", cause)
  }

  /** `newPgLink`: the row a link is stored as; its id and alias are not columns. */
  function StoredRow(l: LinkValue): (r: Row)
    ensures r.userId == l.userId && r.shortened == l.shortened && r.destination == l.destination
    ensures r.isOpen == l.isOpen && r.updatedAt == l.updatedAt && r.expiredAt == l.expiredAt
  {
    Row(l.userId, l.shortened, l.destination, l.isOpen, l.updatedAt, l.expiredAt)
  }

  /** `toShortening`: a row is re-validated through `NewLink`; with no alias column the alias is the shortened text. */
  function ToLink(id: nat, r: Row): (res: Result<LinkValue>)
    ensures res.Ok? ==> StoredRow(res.value) == r && res.value.id == id && !res.value.HasCustomAlias()
  {
    NewLink(Some(id), r.userId, r.shortened, r.shortened, r.destination, r.isOpen, r.updatedAt, r.expiredAt)
  }

  /** Storing a link that `NewLink` accepted and reading it back gives the same link, except that the alias becomes the shortened text. */
  lemma StoredLinkReadsBack(l: LinkValue)
    requires NewLink(Some(l.id), l.userId, l.shortened, l.alias, l.destination, l.isOpen, l.updatedAt, l.expiredAt).Ok?
    ensures ToLink(l.id, StoredRow(l)) == Ok(l.(alias := l.shortened))
  {
  }

  /**
   * `pg.Create`: one transaction inserts the link under a fresh serial id
   * and a pending `link_shortened_outbox` row naming its owner and that id.
   */
  function CreateStep(s: Tables, l: LinkValue, fail: Option<Fault>): (r: (Tables, Option<Fault>))
    requires Valid(s)
    ensures Valid(r.0)
    ensures r.1.Some? <==> fail.Some?
    ensures fail.Some? ==> r == (s, Some(Failed("Create", fail.value)))
    ensures fail.None? ==>
      && s.nextLink !in s.links && r.0.links == s.links[s.nextLink := StoredRow(l)]
      && s.nextShortened !in s.shortenedOutbox
      && r.0.shortenedOutbox == Inserted(s.shortenedOutbox, s.nextShortened, ShortenedNote(l.userId, s.nextLink))
      && r.0.configuredOutbox == s.configuredOutbox
  {
    if fail.Some? then (s, Some(Failed("Create", fail.value)))
    else
      var id := s.nextLink;
      (s.(links := s.links[id := StoredRow(l)],
          shortenedOutbox := Inserted(s.shortenedOutbox, s.nextShortened, ShortenedNote(l.userId, id)),
          nextLink := id + 1, nextShortened := s.nextShortened + 1), None)
  }

  /**
   * `pg.Configure`: one transaction closes the link (if a row has its id)
   * and inserts a pending `short_configured_outbox` row with its owner, id,
   * destination and shortened text. An id with no row still gets the
   * outbox row: the update then matches nothing, which is not an error.
   */
  function ConfigureStep(s: Tables, l: LinkValue, fail: Option<Fault>): (r: (Tables, Option<Fault>))
    requires Valid(s)
    ensures Valid(r.0)
    ensures r.1.Some? <==> fail.Some?
    ensures fail.Some? ==> r == (s, Some(Failed("Configure", fail.value)))
    ensures fail.None? ==>
      && r.0.links.Keys == s.links.Keys
      && (l.id in s.links ==> r.0.links[l.id] == s.links[l.id].(isOpen := false))
      && (forall id :: id in s.links && id != l.id ==> r.0.links[id] == s.links[id])
      && s.nextConfigured !in s.configuredOutbox
      && r.0.configuredOutbox == Inserted(s.configuredOutbox, s.nextConfigured,
                                          ConfiguredNote(l.userId, l.id, l.destination, l.shortened))
      && r.0.shortenedOutbox == s.shortenedOutbox
  {
    if fail.Some? then (s, Some(Failed("Configure", fail.value)))
    else
      var links := if l.id in s.links then s.links[l.id := s.links[l.id].(isOpen := false)] else s.links;
      (s.(links := links,
          configuredOutbox := Inserted(s.configuredOutbox, s.nextConfigured,
                                       ConfiguredNote(l.userId, l.id, l.destination, l.shortened)),
          nextConfigured := s.nextConfigured + 1), None)
  }

  /** A failed `Create` or `Configure` writes neither the link nor the outbox; a successful one writes both. */
  lemma LinkWritesAreAtomic(s: Tables, l: LinkValue, fail: Option<Fault>)
    requires Valid(s)
    ensures var t := CreateStep(s, l, fail).0;
      (t.links == s.links <==> t.shortenedOutbox == s.shortenedOutbox)
    ensures var t := ConfigureStep(s, l, fail).0;
      fail.Some? <==> t.configuredOutbox == s.configuredOutbox
    ensures var t := ConfigureStep(s, l, fail).0;
      fail.Some? ==> t.links == s.links
  {
    if fail.None? {
      var t := CreateStep(s, l, fail).0;
      assert s.nextLink in t.links && s.nextShortened in t.shortenedOutbox;
      var u := ConfigureStep(s, l, fail).0;
      assert s.nextConfigured in u.configuredOutbox;
    }
  }

  /**
   * `Update`: rewrite the columns of the row with the link's id (the owner
   * column is not among them); no outbox row is written.
   */
  function UpdateStep(s: Tables, l: LinkValue, fail: Option<Fault>): (r: (Tables, Option<Fault>))
    requires Valid(s)
    ensures Valid(r.0)
    ensures r.1.Some? <==> fail.Some?
    ensures r.1.Some? ==> r.1.value == Failed("Update", fail.value)
    ensures r.0.shortenedOutbox == s.shortenedOutbox && r.0.configuredOutbox == s.configuredOutbox
    ensures r.0.links.Keys == s.links.Keys
    ensures forall id :: id in s.links && id != l.id ==> r.0.links[id] == s.links[id]
    ensures fail.None? && l.id in s.links ==> r.0.links[l.id] == StoredRow(l).(userId := s.links[l.id].userId)
    ensures fail.Some? || l.id !in s.links ==> r.0 == s
  {
    if fail.Some? then (s, Some(Failed("Update", fail.value)))
    else if l.id in s.links then (s.(links := s.links[l.id := StoredRow(l).(userId := s.links[l.id].userId)]), None)
    else (s, None)
  }

  /** `DeleteById`: remove the row if there is one; no outbox row is written or removed. */
  function DeleteStep(s: Tables, id: nat, fail: Option<Fault>): (r: (Tables, Option<Fault>))
    requires Valid(s)
    ensures Valid(r.0)
    ensures r.1.Some? <==> fail.Some?
    ensures r.1.Some? ==> r == (s, Some(Failed("DeleteById", fail.value)))
    ensures r.0.shortenedOutbox == s.shortenedOutbox && r.0.configuredOutbox == s.configuredOutbox
    ensures fail.None? ==> r.0.links.Keys == s.links.Keys - {id}
    ensures forall k :: k in r.0.links ==> r.0.links[k] == s.links[k]
  {
    if fail.Some? then (s, Some(Failed("DeleteById", fail.value)))
    else (s.(links := s.links - {id}), None)
  }

  /** The links of `user`, other than `except`, that are still live at `now`. */
  function LiveOthers(links: map<nat, Row>, user: nat, except: nat, now: int): set<nat>
  {
    set id | id in links && links[id].userId == user && id != except && now < links[id].expiredAt
  }

  /** `CountByUserIdExcept`: the number of the owner's other links that have not expired yet. */
  function CountByUserIdExcept(s: Tables, user: nat, except: nat, now: int, fail: Option<Fault>): (r: Result<Stats>)
    ensures r.Err? <==> fail.Some?
    ensures r.Err? ==> r.fault == Failed("CountByUserIdExcept", fail.value)
    ensures r.Ok? ==> r.value.activeLinks == |LiveOthers(s.links, user, except, now)|
  {
    if fail.Some? then Err(Failed("CountByUserIdExcept", fail.value))
    else Ok(Stats(|LiveOthers(s.links, user, except, now)|))
  }

  /** Whatever happens to the excepted link itself, the count of the others is the same. */
  lemma CountIgnoresExcepted(s: Tables, l: LinkValue, user: nat, now: int)
    requires Valid(s)
    ensures var t := UpdateStep(s, l, None).0;
      LiveOthers(t.links, user, l.id, now) == LiveOthers(s.links, user, l.id, now)
    ensures var t := DeleteStep(s, l.id, None).0;
      LiveOthers(t.links, user, l.id, now) == LiveOthers(s.links, user, l.id, now)
  {
  }

  /** A link stops being counted once its expiry is reached. */
  lemma CountShrinksWithTime(links: map<nat, Row>, user: nat, except: nat, now: int, later: int)
    requires now <= later
    ensures LiveOthers(links, user, except, later) <= LiveOthers(links, user, except, now)
    ensures |LiveOthers(links, user, except, later)| <= |LiveOthers(links, user, except, now)|
  {
    SubsetCard(LiveOthers(links, user, except, later), LiveOthers(links, user, except, now));
  }

  lemma {:induction false} SubsetCard(a: set<nat>, b: set<nat>)
    requires a <= b
    ensures |a| <= |b|
    decreases b
  {
    if a != {} {
      var x :| x in a;
      SubsetCard(a - {x}, b - {x});
    }
  }

  /** The NotFound a lookup by id reports, as `%d` prints the id. */
  function LinkNotFound(table: string, id: nat): (f: Fault)
    ensures HttpStatusCode(Some(f)) == 404
  {
    StatusOfOopsValue(NotFound, table + "(id:" + NatDigits(id) + ") not found", Some(NoRows));
    Typed(NotFound, table + "(id:" + NatDigits(id) + ") not found", Some(NoRows))
  }

  /** `GetById`: NotFound without a row, otherwise the re-validated link. */
  function GetById(s: Tables, id: nat, fail: Option<Fault>): (r: Result<LinkValue>)
    ensures fail.Some? ==> r == Err(Failed("GetById", fail.value))
    ensures fail.None? && id !in s.links ==> r == Err(Failed("GetById", LinkNotFound("link", id)))
    ensures fail.None? && id in s.links ==>
      match ToLink(id, s.links[id])
      case Ok(l) => r == Ok(l)
      case Err(e) => r == Err(Failed("GetById", e))
    ensures r.Ok? ==> r.value.id == id && id in s.links && StoredRow(r.value) == s.links[id]
  {
    if fail.Some? then Err(Failed("GetById", fail.value))
    else if id !in s.links then Err(Failed("GetById", LinkNotFound("link", id)))
    else match ToLink(id, s.links[id])
      case Ok(l) => Ok(l)
      case Err(e) => Err(Failed("GetById", e))
  }

  /** A missing link is reported as 404. */
  lemma MissingLinkIs404(s: Tables, id: nat)
    requires id !in s.links
    ensures GetById(s, id, None).Err? && HttpStatusCode(Some(GetById(s, id, None).fault)) == 404
  {
  }

  function ShortenedMessages(t: Table<ShortenedNote>, ids: seq<nat>): (ms: seq<LinkShortened>)
    requires forall i :: 0 <= i < |ids| ==> ids[i] in t
    ensures |ms| == |ids|
    ensures forall i :: 0 <= i < |ids| ==>
      ms[i] == LinkShortened(ids[i], t[ids[i]].payload.userId, t[ids[i]].payload.linkId)
  {
    if ids == [] then []
    else ShortenedMessages(t, ids[..|ids| - 1]) + [var n := t[ids[|ids| - 1]].payload; LinkShortened(ids[|ids| - 1], n.userId, n.linkId)]
  }

  /**
   * `toMessage` of a `short_configured_outbox` row: the table has no
   * `is_open` column, so the message says the link is closed, which is
   * what `Configure` made it.
   */
  function ConfiguredMessage(id: nat, n: ConfiguredNote): (m: ShortConfigured)
    ensures m.id == id && m.userId == n.userId && m.linkId == n.linkId
    ensures m.alias == n.shortened && m.destination == n.destination && !m.isOpen
  {
    ShortConfigured(id, n.userId, n.linkId, n.shortened, n.destination, false)
  }

  function ConfiguredMessages(t: Table<ConfiguredNote>, ids: seq<nat>): (ms: seq<ShortConfigured>)
    requires forall i :: 0 <= i < |ids| ==> ids[i] in t
    ensures |ms| == |ids|
    ensures forall i :: 0 <= i < |ids| ==> ms[i] == ConfiguredMessage(ids[i], t[ids[i]].payload)
  {
    if ids == [] then []
    else ConfiguredMessages(t, ids[..|ids| - 1]) + [ConfiguredMessage(ids[|ids| - 1], t[ids[|ids| - 1]].payload)]
  }

  /** `GetLinkShortened`: at most `maxCount` pending rows, in the order the scan meets them, as messages keyed by outbox id. */
  function GetLinkShortened(s: Tables, scan: seq<nat>, maxCount: nat, fail: Option<Fault>): (r: Result<seq<LinkShortened>>)
    ensures r.Err? <==> fail.Some?
    ensures r.Err? ==> r.fault == Failed("GetLinkShortened", fail.value)
    ensures r.Ok? ==> |r.value| <= maxCount
    ensures r.Ok? ==> forall m :: m in r.value ==>
      Pending(s.shortenedOutbox, m.id) && s.shortenedOutbox[m.id].payload == ShortenedNote(m.userId, m.linkId)
  {
    if fail.Some? then Err(Failed("GetLinkShortened", fail.value))
    else Ok(ShortenedMessages(s.shortenedOutbox, FetchPending(s.shortenedOutbox, scan, maxCount)))
  }

  /** `GetShortConfigured`: at most `maxCount` pending rows as messages. */
  function GetShortConfigured(s: Tables, scan: seq<nat>, maxCount: nat, fail: Option<Fault>): (r: Result<seq<ShortConfigured>>)
    ensures r.Err? <==> fail.Some?
    ensures r.Err? ==> r.fault == Failed("GetShortConfigured", fail.value)
    ensures r.Ok? ==> |r.value| <= maxCount
    ensures r.Ok? ==> forall m :: m in r.value ==>
      Pending(s.configuredOutbox, m.id) && m == ConfiguredMessage(m.id, s.configuredOutbox[m.id].payload)
  {
    if fail.Some? then Err(Failed("GetShortConfigured", fail.value))
    else Ok(ConfiguredMessages(s.configuredOutbox, FetchPending(s.configuredOutbox, scan, maxCount)))
  }

  /** `GetLinkShortenedById`: one outbox row, pending or not. */
  function GetLinkShortenedById(s: Tables, id: nat, fail: Option<Fault>): (r: Result<LinkShortened>)
    ensures r.Err? <==> fail.Some? || id !in s.shortenedOutbox
    ensures fail.None? && id !in s.shortenedOutbox ==>
      r == Err(Failed("GetLinkShortenedById", LinkNotFound("link_shortened_outbox", id)))
    ensures r.Ok? ==> r.value.id == id && s.shortenedOutbox[id].payload == ShortenedNote(r.value.userId, r.value.linkId)
  {
    if fail.Some? then Err(Failed("GetLinkShortenedById", fail.value))
    else if id !in s.shortenedOutbox then Err(Failed("GetLinkShortenedById", LinkNotFound("link_shortened_outbox", id)))
    else Ok(LinkShortened(id, s.shortenedOutbox[id].payload.userId, s.shortenedOutbox[id].payload.linkId))
  }

  /** `GetShortConfiguredById`: one outbox row; its NotFound message names `link`, not the outbox table. */
  function GetShortConfiguredById(s: Tables, id: nat, fail: Option<Fault>): (r: Result<ShortConfigured>)
    ensures r.Err? <==> fail.Some? || id !in s.configuredOutbox
    ensures fail.None? && id !in s.configuredOutbox ==>
      r == Err(Failed("GetShortConfiguredById", LinkNotFound("link", id)))
    ensures r.Ok? ==> r.value == ConfiguredMessage(id, s.configuredOutbox[id].payload)
  {
    if fail.Some? then Err(Failed("GetShortConfiguredById", fail.value))
    else if id !in s.configuredOutbox then Err(Failed("GetShortConfiguredById", LinkNotFound("link", id)))
    else Ok(ConfiguredMessage(id, s.configuredOutbox[id].payload))
  }

  /**
   * `ResolveLinkShortened`: flip the flag of the listed outbox ids; an
   * empty list fails in `sqlx.In`. Its error context is the one of an
   * older name, `ResolveCheckSubscriptions`.
   */
  function ResolveLinkShortenedStep(s: Tables, ids: seq<nat>, fail: Option<Fault>): (r: (Tables, Option<Fault>))
    requires Valid(s)
    ensures Valid(r.0)
    ensures r.1.Some? <==> ids == [] || fail.Some?
    ensures ids == [] ==> r == (s, Some(Failed("ResolveCheckSubscriptions", EmptyIn)))
    ensures r.1.Some? ==> r.0 == s
    ensures r.0.links == s.links && r.0.configuredOutbox == s.configuredOutbox
    ensures r.1.None? ==> r.0.shortenedOutbox == ResolveIds(s.shortenedOutbox, ids)
  {
    if ids == [] then (s, Some(Failed("ResolveCheckSubscriptions", EmptyIn)))
    else if fail.Some? then (s, Some(Failed("ResolveCheckSubscriptions", fail.value)))
    else (s.(shortenedOutbox := ResolveIds(s.shortenedOutbox, ids)), None)
  }

  /** `ResolveShortConfigured`: flip the flag of the listed outbox ids; an empty list fails. */
  function ResolveShortConfiguredStep(s: Tables, ids: seq<nat>, fail: Option<Fault>): (r: (Tables, Option<Fault>))
    requires Valid(s)
    ensures Valid(r.0)
    ensures r.1.Some? <==> ids == [] || fail.Some?
    ensures ids == [] ==> r == (s, Some(Failed("ResolveShortConfigured", EmptyIn)))
    ensures r.1.Some? ==> r.0 == s
    ensures r.0.links == s.links && r.0.shortenedOutbox == s.shortenedOutbox
    ensures r.1.None? ==> r.0.configuredOutbox == ResolveIds(s.configuredOutbox, ids)
  {
    if ids == [] then (s, Some(Failed("ResolveShortConfigured", EmptyIn)))
    else if fail.Some? then (s, Some(Failed("ResolveShortConfigured", fail.value)))
    else (s.(configuredOutbox := ResolveIds(s.configuredOutbox, ids)), None)
  }

  /** Resolving a fetched batch closes exactly its rows, deletes none, and a second resolve changes nothing. */
  lemma ResolveClosesBatch(s: Tables, scan: seq<nat>, maxCount: nat)
    requires Valid(s)
    ensures var batch := FetchPending(s.shortenedOutbox, scan, maxCount);
      var t := ResolveLinkShortenedStep(s, batch, None).0;
      && t.shortenedOutbox.Keys == s.shortenedOutbox.Keys
      && (forall id :: id in batch ==> !Pending(t.shortenedOutbox, id))
      && (forall id :: id in s.shortenedOutbox && id !in batch ==> t.shortenedOutbox[id] == s.shortenedOutbox[id])
      && ResolveLinkShortenedStep(t, batch, None).0 == t
  {
    ResolveFetched(s.shortenedOutbox, scan, maxCount);
    var batch := FetchPending(s.shortenedOutbox, scan, maxCount);
    if batch != [] {
      ResolveIdsIdempotent(s.shortenedOutbox, batch);
    }
  }

  // ------------------------------------------------ the older `pgLink` copy

  /** `pgLink.Create`: insert the link alone and return its serial id. */
  function LegacyCreateStep(s: Tables, l: LinkValue, fail: Option<Fault>): (r: (Tables, Result<nat>))
    requires Valid(s)
    ensures Valid(r.0)
    ensures r.1.Err? <==> fail.Some?
    ensures fail.Some? ==> r == (s, Err(Wrap("repository<pgLink.Create>: ", fail.value)))
    ensures r.1.Ok? ==>
      && r.1.value !in s.links && r.0.links == s.links[r.1.value := StoredRow(l)]
      && r.0.shortenedOutbox == s.shortenedOutbox && r.0.configuredOutbox == s.configuredOutbox
  {
    if fail.Some? then (s, Err(Wrap("repository<pgLink.Create>: ", fail.value)))
    else (s.(links := s.links[s.nextLink := StoredRow(l)], nextLink := s.nextLink + 1), Ok(s.nextLink))
  }

  /** `pgLink.GetById`: as `pg.GetById`, under its own context. */
  function LegacyGetById(s: Tables, id: nat, fail: Option<Fault>): (r: Result<LinkValue>)
    ensures fail.Some? ==> r == Err(Wrap("persistence<pgLink.GetById>: ", fail.value))
    ensures fail.None? && id !in s.links ==>
      r == Err(Wrap("persistence<pgLink.GetById>: ", LinkNotFound("link", id)))
    ensures r.Ok? ==> r == GetById(s, id, None)
  {
    if fail.Some? then Err(Wrap("persistence<pgLink.GetById>: ", fail.value))
    else if id !in s.links then Err(Wrap("persistence<pgLink.GetById>: ", LinkNotFound("link", id)))
    else match ToLink(id, s.links[id])
      case Ok(l) => Ok(l)
      case Err(e) => Err(Wrap("persistence<pgLink.GetById>: ", e))
  }

  /**
   * `pgLink.CountByUserId` as written: the query has no placeholder for
   * the argument it is given and `Scan` receives the variable by value, not its address, so
   * one of the two always fails (`rejection` is the driver's text) and the
   * count is never read.
   */
  function CountByUserIdAsWritten(s: Tables, user: nat, rejection: Fault): (r: Result<nat>)
    ensures r == Err(Wrap("repository<pgLink.CountByUserId>: ", rejection))
  {
    Err(Wrap("repository<pgLink.CountByUserId>: ", rejection))
  }

  /** The links of `user`. */
  function Owned(links: map<nat, Row>, user: nat): set<nat>
  {
    set id | id in links && links[id].userId == user
  }

  /** The count the query evidently means: the number of the user's links. */
  function CountByUserId(s: Tables, user: nat, fail: Option<Fault>): (r: Result<nat>)
    ensures r.Err? <==> fail.Some?
    ensures r.Ok? ==> r.value == |Owned(s.links, user)|
  {
    if fail.Some? then Err(Wrap("repository<pgLink.CountByUserId>: ", fail.value))
    else Ok(|Owned(s.links, user)|)
  }

  /** The written count fails even on a table holding the user's link; the intended one reports it. */
  lemma CountNeverReported(rejection: Fault)
    ensures var s := Tables(map[1 := Row(7, "abc", "https://x", true, 0, 10)], map[], map[], 2, 1, 1);
      CountByUserIdAsWritten(s, 7, rejection).Err? && CountByUserId(s, 7, None) == Ok(1)
  {
    var links := map[1 := Row(7, "abc", "https://x", true, 0, 10)];
    assert Owned(links, 7) == {1};
  }

  /** Creating a link adds exactly one to its owner's count. */
  lemma CreateCountsOnce(s: Tables, l: LinkValue)
    requires Valid(s)
    ensures var t := CreateStep(s, l, None).0;
      Owned(t.links, l.userId) == Owned(s.links, l.userId) + {s.nextLink}
      && |Owned(t.links, l.userId)| == |Owned(s.links, l.userId)| + 1
  {
    OwnedGrows(s.links, s.nextLink, StoredRow(l), l.userId);
  }

  lemma OwnedGrows(links: map<nat, Row>, id: nat, r: Row, user: nat)
    requires id !in links && r.userId == user
    ensures Owned(links[id := r], user) == Owned(links, user) + {id}
    ensures |Owned(links[id := r], user)| == |Owned(links, user)| + 1
  {
    var a, b := Owned(links[id := r], user), Owned(links, user);
    forall k | k in a ensures k in b + {id} {
      if k != id { assert links[id := r][k] == links[k]; }
    }
    forall k | k in b + {id} ensures k in a {
      if k != id { assert links[id := r][k] == links[k]; }
    }
    assert a == b + {id};
    assert id !in b;
  }

  /** The link tables; each method is one statement or one transaction. */
  class Links {
    var links: map<nat, Row>
    var shortenedOutbox: Table<ShortenedNote>
    var configuredOutbox: Table<ConfiguredNote>
    var nextLink: nat
    var nextShortened: nat
    var nextConfigured: nat

    function State(): Tables
      reads this
    {
      Tables(links, shortenedOutbox, configuredOutbox, nextLink, nextShortened, nextConfigured)
    }

    constructor ()
      ensures State() == Tables(map[], map[], map[], 1, 1, 1) && Valid(State())
    {
      links, shortenedOutbox, configuredOutbox := map[], map[], map[];
      nextLink, nextShortened, nextConfigured := 1, 1, 1;
    }

    method Create(l: LinkValue, fail: Option<Fault>) returns (err: Option<Fault>)
      requires Valid(State())
      modifies this
      ensures (State(), err) == CreateStep(old(State()), l, fail)
    {
      if fail.Some? {
        return Some(Failed("Create", fail.value));
      }
      var id := nextLink;
      links := links[id := StoredRow(l)];
      shortenedOutbox := Inserted(shortenedOutbox, nextShortened, ShortenedNote(l.userId, id));
      nextLink := id + 1;
      nextShortened := nextShortened + 1;
      err := None;
    }

    method Configure(l: LinkValue, fail: Option<Fault>) returns (err: Option<Fault>)
      requires Valid(State())
      modifies this
      ensures (State(), err) == ConfigureStep(old(State()), l, fail)
    {
      if fail.Some? {
        return Some(Failed("Configure", fail.value));
      }
      if l.id in links {
        links := links[l.id := links[l.id].(isOpen := false)];
      }
      configuredOutbox := Inserted(configuredOutbox, nextConfigured, ConfiguredNote(l.userId, l.id, l.destination, l.shortened));
      nextConfigured := nextConfigured + 1;
      err := None;
    }

    method Update(l: LinkValue, fail: Option<Fault>) returns (err: Option<Fault>)
      requires Valid(State())
      modifies this
      ensures (State(), err) == UpdateStep(old(State()), l, fail)
    {
      if fail.Some? {
        return Some(Failed("Update", fail.value));
      }
      if l.id in links {
        links := links[l.id := StoredRow(l).(userId := links[l.id].userId)];
      }
      err := None;
    }

    method DeleteById(id: nat, fail: Option<Fault>) returns (err: Option<Fault>)
      requires Valid(State())
      modifies this
      ensures (State(), err) == DeleteStep(old(State()), id, fail)
    {
      if fail.Some? {
        return Some(Failed("DeleteById", fail.value));
      }
      links := links - {id};
      err := None;
    }

    method ResolveLinkShortened(ids: seq<nat>, fail: Option<Fault>) returns (err: Option<Fault>)
      requires Valid(State())
      modifies this
      ensures (State(), err) == ResolveLinkShortenedStep(old(State()), ids, fail)
    {
      if ids == [] {
        return Some(Failed("ResolveCheckSubscriptions", EmptyIn));
      }
      if fail.Some? {
        return Some(Failed("ResolveCheckSubscriptions", fail.value));
      }
      shortenedOutbox := ResolveIds(shortenedOutbox, ids);
      err := None;
    }

    method ResolveShortConfigured(ids: seq<nat>, fail: Option<Fault>) returns (err: Option<Fault>)
      requires Valid(State())
      modifies this
      ensures (State(), err) == ResolveShortConfiguredStep(old(State()), ids, fail)
    {
      if ids == [] {
        return Some(Failed("ResolveShortConfigured", EmptyIn));
      }
      if fail.Some? {
        return Some(Failed("ResolveShortConfigured", fail.value));
      }
      configuredOutbox := ResolveIds(configuredOutbox, ids);
      err := None;
    }

    /** `pgLink.Create` of the older copy. */
    method LegacyCreate(l: LinkValue, fail: Option<Fault>) returns (id: Result<nat>)
      requires Valid(State())
      modifies this
      ensures (State(), id) == LegacyCreateStep(old(State()), l, fail)
    {
      if fail.Some? {
        return Err(Wrap("repository<pgLink.Create>: ", fail.value));
      }
      id := Ok(nextLink);
      links := links[nextLink := StoredRow(l)];
      nextLink := nextLink + 1;
    }
  }
}
