/**
 * The link services: `Shortening` (link/internal/service/shortening.go),
 * `Link` (link/internal/service/link.go) and the older `linkService`
 * (link/internal/link.service.go), plus the redirect decision of
 * `Redirect.Go` (link/internal/service/redirect.go).
 *
 * A service call reads from its store and then issues at most one write.
 * What the store answers (the looked-up link, the count, whether the write
 * fails) is a parameter, and the write the service issues is part of the
 * result, so "nothing is updated" reads as `write == None`.
 * `Shortening` validates every link through `LinkDomain.NewLink`; the
 * other two build it with a constructor that never fails. The clock and the
 * random draws of the shortener are parameters.
 */
module LinkService {
  import opened Wrappers
  import opened Oops
  import opened Json
  import opened LinkDomain
  import LinkStore

  /** Which copy of the service: they differ in validation and in how errors are wrapped. */
  datatype Copy = ShorteningService | LinkService | LegacyService

  /** What the service asks its store to do. */
  datatype Write = CreateLink(link: LinkValue) | UpdateLink(link: LinkValue) | DeleteLink(id: nat)

  datatype Outcome = Outcome(write: Option<Write>, err: Option<Fault>)

  /** The two current copies wrap with their own context; the older copy returns errors as they are. */
  function Fail(c: Copy, op: string, e: Fault): (f: Fault)
    ensures HttpStatusCode(Some(f)) == HttpStatusCode(Some(e))
    ensures c == LegacyService ==> f == e
  {
    match c
    case ShorteningService => WrapKeepsStatus("service<Shortening." + op + ">: ", e); Wrap("service<Shortening." + op + ">: ", e)
    case LinkService => WrapKeepsStatus("service<Link." + op + ">: ", e); Wrap("service<Link." + op + ">: ", e)
    case LegacyService => e
  }

  /** The result of a write the store was asked to do. */
  function Written(c: Copy, op: string, w: Write, writeFail: Option<Fault>): (o: Outcome)
    ensures o.write == Some(w)
    ensures o.err.Some? <==> writeFail.Some?
  {
    Outcome(Some(w), if writeFail.Some? then Some(Fail(c, op, writeFail.value)) else None)
  }

  function Refused(c: Copy, op: string, e: Fault): (o: Outcome)
    ensures o.write.None? && o.err.Some?
  {
    Outcome(None, Some(Fail(c, op, e)))
  }

  const NoAccess: string := "You don't have access to this link"
  const QuotaExceeded: string := "Link quota had exceeded"

  /** The Forbidden a non-owner gets; its text is the default Forbidden message, since only `Err` is set. */
  const NotOwner: Fault := Typed(Forbidden, "", Some(Plain(NoAccess)))

  /**
   * The constructor each copy calls. The call sites pass seven arguments
   * and no alias, so the alias is the shortened text.
   */
  function Build(c: Copy, id: Option<nat>, userId: nat, shortened: string, destination: string,
                 isOpen: bool, updatedAt: int, expiredAt: int): (r: Result<LinkValue>)
    ensures c != ShorteningService ==> r.Ok?
    ensures r.Ok? ==> r.value == LinkValue(id.GetOr(0), userId, shortened, shortened, destination, isOpen, updatedAt, expiredAt)
    ensures c == ShorteningService ==> r == NewLink(id, userId, shortened, shortened, destination, isOpen, updatedAt, expiredAt)
  {
    if c == ShorteningService then NewLink(id, userId, shortened, shortened, destination, isOpen, updatedAt, expiredAt)
    else Ok(LinkValue(id.GetOr(0), userId, shortened, shortened, destination, isOpen, updatedAt, expiredAt))
  }

  /**
   * `Create`: a new open link, updated and expiring at `now`, with a fresh
   * shortened text drawn from `draws`; it is stored as a new row.
   */
  function Create(c: Copy, userId: nat, destination: string, now: int, draws: seq<nat>, writeFail: Option<Fault>): (o: Outcome)
    requires |draws| == ShortenedMaxLen
    ensures o.write.None? <==> Build(c, None, userId, "", destination, true, now, now).Err?
    ensures o.write.None? ==> o.err == Some(Fail(c, "Create", Build(c, None, userId, "", destination, true, now, now).fault))
    ensures o.write.Some? ==>
      && o.write.value.CreateLink?
      && var l := o.write.value.link;
      && l == LinkValue(0, userId, Drawn(draws), Drawn(draws), destination, true, now, now)
      && !l.HasCustomAlias() && |l.shortened| == ShortenedMaxLen
      && (o.err.Some? <==> writeFail.Some?)
  {
    match Build(c, None, userId, "", destination, true, now, now)
    case Err(e) => Refused(c, "Create", e)
    case Ok(l) => Written(c, "Create", CreateLink(l.(shortened := Drawn(draws), alias := Drawn(draws))), writeFail)
  }

  /** Only `Shortening` can refuse a destination: one without a scheme is refused as bad values, before any write. */
  lemma CreateRefusesSchemeless(userId: nat, destination: string, now: int, draws: seq<nat>, writeFail: Option<Fault>)
    requires |draws| == ShortenedMaxLen
    requires ByteLen(destination) <= DestinationMaxLen && ':' !in destination && !HasControl(BeforeFragment(destination))
    ensures var o := Create(ShorteningService, userId, destination, now, draws, writeFail);
      o.write.None? && HttpStatusCode(o.err) == 400
    ensures Create(LinkService, userId, destination, now, draws, writeFail).write.Some?
  {
    NoColonRefused(None, userId, "", "", destination, true, now, now);
  }

  /** `GetById`: the stored link, returned whoever asks; the caller's id is never compared with the owner. */
  function GetById(c: Copy, lookup: Result<LinkValue>): (r: Result<LinkValue>)
    ensures r.Ok? <==> lookup.Ok?
    ensures r.Ok? ==> r.value == lookup.value
    ensures r.Err? ==> r.fault == Fail(c, "GetById", lookup.fault)
  {
    match lookup
    case Err(e) => Err(Fail(c, "GetById", e))
    case Ok(l) => Ok(l)
  }

  /** The older copy returns the Forbidden itself; the others wrap it. Either way it is a 403. */
  function Forbid(c: Copy, op: string): (o: Outcome)
    ensures o.write.None? && o.err.Some? && HttpStatusCode(o.err) == 403
  {
    StatusOfOopsValue(Forbidden, "", Some(Plain(NoAccess)));
    Refused(c, op, NotOwner)
  }

  /**
   * `UpdateById`: only the owner may update, and only the destination
   * changes; the shortened text, the open flag and both timestamps are
   * copied from the stored link, so the `shortened` and `isOpen`
   * arguments are never read.
   */
  function UpdateById(c: Copy, userId: nat, id: nat, shortened: string, destination: string, isOpen: bool,
                      lookup: Result<LinkValue>, writeFail: Option<Fault>): (o: Outcome)
    ensures lookup.Err? ==> o == Refused(c, "UpdateById", lookup.fault)
    ensures lookup.Ok? && lookup.value.userId != userId ==> o.write.None? && HttpStatusCode(o.err) == 403
    ensures o.write.Some? ==>
      && lookup.Ok? && lookup.value.AccessibleBy(userId)
      && o.write.value == UpdateLink(lookup.value.(id := id, alias := lookup.value.shortened, destination := destination))
      && (o.err.Some? <==> writeFail.Some?)
    ensures lookup.Ok? && lookup.value.userId == userId ==>
      var prev := lookup.value;
      var b := Build(c, Some(id), userId, prev.shortened, destination, prev.isOpen, prev.updatedAt, prev.expiredAt);
      && (o.write.Some? <==> b.Ok?)
      && (b.Err? ==> o == Refused(c, "UpdateById", b.fault))
  {
    match lookup
    case Err(e) => Refused(c, "UpdateById", e)
    case Ok(prev) =>
      if prev.userId != userId then Forbid(c, "UpdateById")
      else match Build(c, Some(id), userId, prev.shortened, destination, prev.isOpen, prev.updatedAt, prev.expiredAt)
        case Err(e) => Refused(c, "UpdateById", e)
        case Ok(l) => Written(c, "UpdateById", UpdateLink(l), writeFail)
  }

  /** The `shortened` and `isOpen` arguments of `UpdateById` make no difference. */
  lemma UpdateIgnoresArguments(c: Copy, userId: nat, id: nat, destination: string,
                               s1: string, s2: string, o1: bool, o2: bool,
                               lookup: Result<LinkValue>, writeFail: Option<Fault>)
    ensures UpdateById(c, userId, id, s1, destination, o1, lookup, writeFail)
         == UpdateById(c, userId, id, s2, destination, o2, lookup, writeFail)
  {
  }

  /**
   * An owner's update of a link read from the store, applied by the store,
   * changes that row's destination and nothing else.
   */
  lemma UpdateChangesOnlyDestination(s: LinkStore.Tables, userId: nat, id: nat, shortened: string, destination: string,
                                     isOpen: bool)
    requires LinkStore.Valid(s)
    requires LinkStore.GetById(s, id, None).Ok?
    ensures var o := UpdateById(ShorteningService, userId, id, shortened, destination, isOpen, LinkStore.GetById(s, id, None), None);
      o.write.Some? ==>
        LinkStore.UpdateStep(s, o.write.value.link, None).0.links == s.links[id := s.links[id].(destination := destination)]
  {
    var prev := LinkStore.GetById(s, id, None).value;
    assert LinkStore.StoredRow(prev) == s.links[id];
  }

  /** `DeleteById`: only the owner may delete; the row is then removed. */
  function DeleteById(c: Copy, userId: nat, id: nat, lookup: Result<LinkValue>, writeFail: Option<Fault>): (o: Outcome)
    ensures lookup.Err? ==> o == Refused(c, "DeleteById", lookup.fault)
    ensures lookup.Ok? && lookup.value.userId != userId ==> o.write.None? && HttpStatusCode(o.err) == 403
    ensures o.write.Some? <==> lookup.Ok? && lookup.value.AccessibleBy(userId)
    ensures o.write.Some? ==> o.write.value == DeleteLink(id) && (o.err.Some? <==> writeFail.Some?)
  {
    match lookup
    case Err(e) => Refused(c, "DeleteById", e)
    case Ok(l) =>
      if l.userId != userId then Forbid(c, "DeleteById")
      else Written(c, "DeleteById", DeleteLink(id), writeFail)
  }

  /** The zero `Link` value: what `Initialize` writes when it drops a validation error. */
  const ZeroLink: LinkValue := LinkValue(0, 0, "", "", "", false, ZeroTime, ZeroTime)

  /**
   * `Initialize`: the quota gate, then the link is opened for `lifetime`.
   * A count above the limit refuses; a count equal to it passes. The
   * validation error of the rebuilt link is not checked: in `Shortening`
   * an invalid stored link makes it write the zero link instead.
   */
  function Initialize(c: Copy, lifetime: int, linkCountLimit: nat, lookup: Result<LinkValue>, count: Result<nat>,
                      now: int, writeFail: Option<Fault>): (o: Outcome)
    ensures lookup.Err? ==> o == Refused(c, "Initialize", lookup.fault)
    ensures lookup.Ok? && count.Err? ==> o == Refused(c, "Initialize", count.fault)
    ensures lookup.Ok? && count.Ok? && count.value > linkCountLimit ==>
      o == Refused(c, "Initialize", Plain(QuotaExceeded))
    ensures o.write.Some? <==> lookup.Ok? && count.Ok? && count.value <= linkCountLimit
    ensures o.write.Some? ==> o.write.value.UpdateLink? && (o.err.Some? <==> writeFail.Some?)
    ensures o.write.Some? ==>
      var l := lookup.value;
      var live := l.(alias := l.shortened, isOpen := true, updatedAt := now, expiredAt := now + lifetime);
      o.write.value.link == (if Build(c, Some(l.id), l.userId, l.shortened, l.destination, true, now, now + lifetime).Ok?
                             then live else ZeroLink)
  {
    match lookup
    case Err(e) => Refused(c, "Initialize", e)
    case Ok(l) =>
      match count
      case Err(e) => Refused(c, "Initialize", e)
      case Ok(n) =>
        if n > linkCountLimit then Refused(c, "Initialize", Plain(QuotaExceeded))
        else
          var built := Build(c, Some(l.id), l.userId, l.shortened, l.destination, true, now, now + lifetime);
          Written(c, "Initialize", UpdateLink(if built.Ok? then built.value else ZeroLink), writeFail)
  }

  /**
   * A link read back from the store is valid, so `Initialize` opens that
   * very link: it keeps the id, owner, shortened text and destination and
   * is live until `now + lifetime`.
   */
  lemma InitializeOpensStoredLink(s: LinkStore.Tables, id: nat, c: Copy, lifetime: int, linkCountLimit: nat,
                                  count: nat, now: int)
    requires LinkStore.GetById(s, id, None).Ok? && count <= linkCountLimit
    ensures var l := LinkStore.GetById(s, id, None).value;
      var o := Initialize(c, lifetime, linkCountLimit, Ok(l), Ok(count), now, None);
      && o.err.None? && o.write.Some?
      && var w := o.write.value.link;
      && w.id == id && w.userId == l.userId && w.shortened == l.shortened && w.destination == l.destination
      && w.isOpen && w.updatedAt == now && w.expiredAt == now + lifetime
  {
    var l := LinkStore.GetById(s, id, None).value;
    assert l == LinkStore.ToLink(id, s.links[id]).value;
    assert NewLink(Some(id), l.userId, l.shortened, l.shortened, l.destination, l.isOpen, l.updatedAt, l.expiredAt).Ok?;
  }

  /** With a link that fails validation, `Shortening.Initialize` reports success and writes the zero link. */
  lemma InitializeMayWriteZero(lifetime: int, now: int)
    ensures var l := LinkValue(3, 4, "", "", "x", false, 0, 0);
      Initialize(ShorteningService, lifetime, 5, Ok(l), Ok(5), now, None) == Outcome(Some(UpdateLink(ZeroLink)), None)
  {
    assert BeforeFragment("x") == "x";
    assert ByteLen("x") == 1;
    NoColonRefused(Some(3), 4, "", "", "x", true, now, now + lifetime);
    assert Build(ShorteningService, Some(3), 4, "", "x", true, now, now + lifetime).Err?;
  }

  /** Which redirect decision: the `Link` and `Redirect` services wrap, the older copy does not. */
  datatype Redirector = LinkRedirect | RedirectGo | LegacyRedirect

  const NotOpened: string := "This link is not opened by the owner"
  const AlreadyExpired: string := "This link had already expired"

  function RedirectFail(r: Redirector, e: Fault): (f: Fault)
    ensures HttpStatusCode(Some(f)) == HttpStatusCode(Some(e))
  {
    match r
    case LinkRedirect => WrapKeepsStatus("service<Link.Redirect>: ", e); Wrap("service<Link.Redirect>: ", e)
    case RedirectGo => WrapKeepsStatus("service<Redirect.Go>: ", e); Wrap("service<Redirect.Go>: ", e)
    case LegacyRedirect => e
  }

  /** A Forbidden whose message and cause carry the same text. */
  function Refusal(text: string): (f: Fault)
    ensures HttpStatusCode(Some(f)) == 403 && Oops.Text(f) == Message(Forbidden, text)
  {
    StatusOfOopsValue(Forbidden, text, Some(Plain(text)));
    Typed(Forbidden, text, Some(Plain(text)))
  }

  /**
   * `Redirect`: a closed link is refused whatever its expiry; an open
   * link is refused once `now` is strictly after its expiry; otherwise the
   * stored destination is returned.
   */
  function Redirect(r: Redirector, lookup: Result<RedirectLink>, now: int): (res: Result<string>)
    ensures res.Ok? <==> lookup.Ok? && lookup.value.isOpen && now <= lookup.value.expiredAt
    ensures res.Ok? ==> res.value == lookup.value.destination
    ensures lookup.Err? ==> res == Err(RedirectFail(r, lookup.fault))
    ensures lookup.Ok? && !lookup.value.isOpen ==> res == Err(RedirectFail(r, Refusal(NotOpened)))
    ensures lookup.Ok? && lookup.value.isOpen && now > lookup.value.expiredAt ==>
      res == Err(RedirectFail(r, Refusal(AlreadyExpired)))
    ensures lookup.Ok? && res.Err? ==> HttpStatusCode(Some(res.fault)) == 403
  {
    match lookup
    case Err(e) => Err(RedirectFail(r, e))
    case Ok(l) =>
      if !l.isOpen then Err(RedirectFail(r, Refusal(NotOpened)))
      else if now - l.expiredAt > 0 then Err(RedirectFail(r, Refusal(AlreadyExpired)))
      else Ok(l.destination)
  }

  /**
   * The services redirect every link the domain calls redirectable, and
   * one more instant: the expiry itself, which the domain already refuses.
   */
  lemma RedirectAgreesWithDomain(r: Redirector, l: RedirectLink, now: int)
    ensures l.IsRedirectable(now) ==> Redirect(r, Ok(l), now) == Ok(l.destination)
    ensures Redirect(r, Ok(l), now).Ok? <==> l.IsRedirectable(now) || (l.isOpen && now == l.expiredAt)
    ensures l.isOpen ==> Redirect(r, Ok(l), l.expiredAt).Ok? && !l.IsRedirectable(l.expiredAt)
  {
  }
}
