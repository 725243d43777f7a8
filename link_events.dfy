/**
 * The event side of the link service's `Shortening` controller
 * (link/internal/controller/shortening.go): what it calls on the service
 * for a finish-shortening or subscription-expired message, and the error
 * it returns, which decides whether the delivery is acked.
 *
 * Decoding the message body is not part of this model: the decoded
 * payload (or the decoding error) is a parameter. The service calls are
 * collaborators: each call's error is a parameter and the calls made are
 * part of the result.
 */
module LinkEvents {
  import opened Wrappers
  import opened Oops
  import opened Strconv
  import opened Envelopes

  /** The decoded finish-shortening message. */
  datatype FinishShortening = FinishShortening(
    version: nat, id: nat, contextId: nat, usecase: string, limit: nat, lifetime: int, allowShortEdit: bool)

  /** The decoded subscription-expired message; its perk has no lifetime. */
  datatype ExpiredNotice = ExpiredNotice(version: nat, id: nat, userId: nat, limit: nat, allowShortEdit: bool)

  /** A call the controller makes on the `Shortening` service. */
  datatype Call =
    | HandleLinkShortened(contextId: nat, lifetime: int, limit: nat)
    | CompensateLinkShortened(contextId: nat)
    | HandleShortConfigured(contextId: nat, allowShortEdit: bool)
    | HandleSubscriptionExpired(userId: nat, limit: nat, allowShortEdit: bool)

  /** The versions of the three messengers the controller holds. */
  datatype Controller = Controller(checkVersion: nat, finishVersion: nat, expiredVersion: nat)

  /** What a delivery leads to: the service calls, in order, and the returned error (none means ack). */
  datatype Reaction = Reaction(calls: seq<Call>, err: Option<Fault>)

  /** `NewShortening`: every messenger at version 1. */
  function NewShortening(): (c: Controller)
    ensures c.checkVersion == 1 && c.finishVersion == 1 && c.expiredVersion == 1
  {
    Controller(1, 1, 1)
  }

  const FinishContext: string := "controller<Shortening.ListenFinishShortening>: "
  const ExpiredContext: string := "controller<Shortening.ListenSubscriptionExpired>: "

  /** How `%w` prints a nil error. */
  const NilOperand: Fault := Plain("%!w(<nil>)")

  function VersionMismatch(context: string, mine: nat, theirs: nat): (f: Fault)
    ensures HttpStatusCode(Some(f)) == 500
  {
    Plain(context + "incompatible version between messenger(v:" + NatDigits(mine) + ") and message(v:" + NatDigits(theirs) + ")")
  }

  /**
   * `ListenFinishShortening`: an undecodable message or one of another
   * version calls nothing. "link.shortened" runs the handler and then,
   * whatever the handler did, the compensation; the compensation's error
   * only shows when the handler failed, joined in front of the handler's.
   * "short.configured" runs only its handler; any other use case is
   * accepted without a call.
   */
  function ListenFinishShortening(c: Controller, decoded: Result<FinishShortening>,
                                  handled: Option<Fault>, compensated: Option<Fault>, configured: Option<Fault>): (r: Reaction)
    ensures decoded.Err? ==> r == Reaction([], Some(Wrap(FinishContext, decoded.fault)))
    ensures decoded.Ok? && decoded.value.version != c.finishVersion ==>
      r == Reaction([], Some(VersionMismatch(FinishContext, c.finishVersion, decoded.value.version)))
    ensures r.calls != [] ==> decoded.Ok? && decoded.value.version == c.finishVersion
    ensures decoded.Ok? && decoded.value.version == c.finishVersion ==>
      var p := decoded.value;
      && (p.usecase == LinkShortenedName ==>
           && r.calls == [HandleLinkShortened(p.contextId, p.lifetime, p.limit), CompensateLinkShortened(p.contextId)]
           && (r.err.Some? <==> handled.Some?)
           && (handled.Some? ==> r.err.value == Wrap(FinishContext, Join(compensated.GetOr(NilOperand), handled.value))))
      && (p.usecase == ShortConfiguredName ==>
           && r.calls == [HandleShortConfigured(p.contextId, p.allowShortEdit)]
           && (r.err.Some? <==> configured.Some?)
           && (configured.Some? ==> r.err.value == Wrap(FinishContext, configured.value)))
      && (p.usecase != LinkShortenedName && p.usecase != ShortConfiguredName ==> r == Reaction([], None))
  {
    match decoded
    case Err(e) => Reaction([], Some(Wrap(FinishContext, e)))
    case Ok(p) =>
      if p.version != c.finishVersion then
        Reaction([], Some(VersionMismatch(FinishContext, c.finishVersion, p.version)))
      else if p.usecase == LinkShortenedName then
        var calls := [HandleLinkShortened(p.contextId, p.lifetime, p.limit), CompensateLinkShortened(p.contextId)];
        if handled.None? then Reaction(calls, None)
        else Reaction(calls, Some(Wrap(FinishContext, Join(compensated.GetOr(NilOperand), handled.value))))
      else if p.usecase == ShortConfiguredName then
        var calls := [HandleShortConfigured(p.contextId, p.allowShortEdit)];
        if configured.None? then Reaction(calls, None) else Reaction(calls, Some(Wrap(FinishContext, configured.value)))
      else Reaction([], None)
  }

  /**
   * A failed shortening keeps the handler's error reachable: its status is
   * what the handler's error alone would give, unless the compensation
   * failed with a kind earlier in the classification order.
   */
  lemma FailedShorteningStatus(c: Controller, p: FinishShortening, handled: Fault, compensated: Option<Fault>,
                               configured: Option<Fault>)
    requires p.version == c.finishVersion && p.usecase == LinkShortenedName
    ensures var r := ListenFinishShortening(c, Ok(p), Some(handled), compensated, configured);
      compensated.None? ==> HttpStatusCode(r.err) == HttpStatusCode(Some(handled))
    ensures var r := ListenFinishShortening(c, Ok(p), Some(handled), compensated, configured);
      r.err.Some? && Has(r.err.value, Forbidden) == (Has(handled, Forbidden) || (compensated.Some? && Has(compensated.value, Forbidden)))
  {
    var r := ListenFinishShortening(c, Ok(p), Some(handled), compensated, configured);
    JoinTakesEarliestCase(compensated.GetOr(NilOperand), handled);
    WrapKeepsStatus(FinishContext, Join(compensated.GetOr(NilOperand), handled));
  }

  /** The payload the controller decodes from what the subscription service's `FromSubscriptionChecked` sealed. */
  function Received(m: FinishShorteningMessenger, msg: SubscriptionChecked): (p: FinishShortening)
    ensures p.version == m.version && p.id == msg.id && p.contextId == msg.contextId && p.usecase == msg.usecase
    ensures p.limit == msg.limit && p.lifetime == msg.lifetime && p.allowShortEdit == msg.allowEdit
  {
    FinishShortening(m.version, msg.id, msg.contextId, msg.usecase, msg.limit, msg.lifetime, msg.allowEdit)
  }

  /**
   * Between the two services at their shipped versions, a checked
   * "link.shortened" subscription reaches the handler with the message's
   * context, lifetime and limit, and is then compensated; with the other
   * use case only the configuration handler runs.
   */
  lemma CheckedShorteningReachesHandler(msg: SubscriptionChecked, handled: Option<Fault>, compensated: Option<Fault>,
                                        configured: Option<Fault>)
    ensures msg.usecase == LinkShortenedName ==>
      ListenFinishShortening(NewShortening(), Ok(Received(FinishShorteningMessenger(1), msg)), handled, compensated, configured).calls
        == [HandleLinkShortened(msg.contextId, msg.lifetime, msg.limit), CompensateLinkShortened(msg.contextId)]
    ensures msg.usecase == ShortConfiguredName ==>
      ListenFinishShortening(NewShortening(), Ok(Received(FinishShorteningMessenger(1), msg)), handled, compensated, configured).calls
        == [HandleShortConfigured(msg.contextId, msg.allowEdit)]
    ensures ListenFinishShortening(NewShortening(), Ok(Received(FinishShorteningMessenger(2), msg)), handled, compensated, configured)
        == Reaction([], Some(VersionMismatch(FinishContext, 1, 2)))
  {
  }

  /**
   * `ListenSubscriptionExpired`: after the decode and version checks,
   * the expiry handler runs with the owner, limit and edit flag. The
   * version-mismatch text names the finish-shortening listener and its
   * messenger's version, not the expired messenger's.
   */
  function ListenSubscriptionExpired(c: Controller, decoded: Result<ExpiredNotice>, handled: Option<Fault>): (r: Reaction)
    ensures decoded.Err? ==> r == Reaction([], Some(Wrap(ExpiredContext, decoded.fault)))
    ensures decoded.Ok? && decoded.value.version != c.expiredVersion ==>
      r == Reaction([], Some(VersionMismatch(FinishContext, c.finishVersion, decoded.value.version)))
    ensures decoded.Ok? && decoded.value.version == c.expiredVersion ==>
      && r.calls == [HandleSubscriptionExpired(decoded.value.userId, decoded.value.limit, decoded.value.allowShortEdit)]
      && (r.err.Some? <==> handled.Some?)
      && (handled.Some? ==> r.err.value == Wrap(ExpiredContext, handled.value))
    ensures r.calls != [] <==> decoded.Ok? && decoded.value.version == c.expiredVersion
  {
    match decoded
    case Err(e) => Reaction([], Some(Wrap(ExpiredContext, e)))
    case Ok(p) =>
      if p.version != c.expiredVersion then
        Reaction([], Some(VersionMismatch(FinishContext, c.finishVersion, p.version)))
      else
        var calls := [HandleSubscriptionExpired(p.userId, p.limit, p.allowShortEdit)];
        if handled.None? then Reaction(calls, None) else Reaction(calls, Some(Wrap(ExpiredContext, handled.value)))
  }

  /** The payload decoded from what `FromSubscriptionExpired` sealed: the perk comes from the sender's argument. */
  function ReceivedExpiry(m: SubscriptionExpiredMessenger, msg: SubscriptionExpired, perk: SubscriptionDomain.Perk): (p: ExpiredNotice)
    ensures p.version == m.version && p.id == msg.id && p.userId == msg.userId
    ensures p.limit == perk.limit && p.allowShortEdit == perk.allowShortEdit
  {
    ExpiredNotice(m.version, msg.id, msg.userId, perk.limit, perk.allowShortEdit)
  }

  /** An expiry sent at version 1 reaches the handler of a controller built by `NewShortening`, and its error is what decides the ack. */
  lemma ExpiryReachesHandler(msg: SubscriptionExpired, perk: SubscriptionDomain.Perk, handled: Option<Fault>)
    ensures var r := ListenSubscriptionExpired(NewShortening(), Ok(ReceivedExpiry(SubscriptionExpiredMessenger(1), msg, perk)), handled);
      r.calls == [HandleSubscriptionExpired(msg.userId, perk.limit, perk.allowShortEdit)]
      && (r.err.None? <==> handled.None?)
  {
  }
}
