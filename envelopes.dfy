/**
 * Event envelopes: the `{meta, data}` records the services put on the
 * broker, built from outbox messages. `now` stands for the `time.Now()`
 * each envelope is stamped with.
 */
module Envelopes {
  import opened Wrappers
  import opened Oops
  import opened Json
  import opened SubscriptionDomain

  /** Outbox message: a link was shortened. `id` is the outbox row id. */
  datatype LinkShortened = LinkShortened(id: nat, userId: nat, linkId: nat)

  /** Outbox message: a shortened link was configured. */
  datatype ShortConfigured = ShortConfigured(
    id: nat, userId: nat, linkId: nat, alias: string, destination: string, isOpen: bool)

  /** Outbox message: a subscription was checked for a link use case. */
  datatype SubscriptionChecked = SubscriptionChecked(
    id: nat, contextId: nat, usecase: string, lifetime: int, limit: nat, allowEdit: bool)

  /** Outbox message: a user's subscription expired. */
  datatype SubscriptionExpired = SubscriptionExpired(id: nat, userId: nat)

  const LinkShortenedName: string := "link.shortened"
  const ShortConfiguredName: string := "short.configured"

  /** The result of a `From…` conversion: the bytes and the error. */
  datatype Sealed = Sealed(bytes: Bytes, err: Option<Fault>)

  const MarshalTimeError: string :=
    "json: error calling MarshalJSON for type time.Time: Time.MarshalJSON: year outside of range [0,9999]"

  /** The value at `path` inside the JSON text `b`, if `b` is JSON at all. */
  function Read(b: Bytes, path: seq<string>): Option<Value>
  {
    match Parse(b)
    case None => None
    case Some(v) => At(v, path)
  }

  /** Marshal a payload; a failure gives empty bytes and the wrapped error. */
  function Seal(payload: Value, context: string): (s: Sealed)
    ensures s.err.None? <==> Encodable(payload)
    ensures s.err.None? ==> Parse(s.bytes) == Some(payload)
    ensures s.err.Some? ==> s.bytes == NoBytes && Oops.Text(s.err.value) == context + MarshalTimeError
  {
    match Marshal(payload)
    case Some(b) => Sealed(b, None)
    case None => Sealed(NoBytes, Some(Wrap(context, Plain(MarshalTimeError))))
  }

  /** The link service's `meta`: `source` is dropped when empty (`omitempty`). */
  function LinkMeta(version: nat, issuedAt: int, source: string): Value
  {
    Obj([Member("version", Num(version)), Member("issuedAt", Instant(issuedAt))]
        + (if source == [] then [] else [Member("source", Str(source))]))
  }

  /** The subscription service's `meta`: a version and the issue time. */
  function SubscriptionMeta(version: nat, issuedAt: int): Value
  {
    Obj([Member("version", Num(version)), Member("issuedAt", Instant(issuedAt))])
  }

  function CheckSubscriptionPayload(version: nat, now: int, id: nat, userId: nat, usecase: string): Value
  {
    Obj([Member("meta", LinkMeta(version, now, "")),
         Member("data", Obj([Member("id", Num(id)), Member("userId", Num(userId)), Member("usecase", Str(usecase))]))])
  }

  /** What every check-subscription envelope carries. */
  predicate CheckSubscriptionShape(b: Bytes, version: nat, id: nat, userId: nat, usecase: string)
  {
    && Read(b, ["meta", "version"]) == Some(Num(version))
    && Read(b, ["meta", "source"]) == None
    && Read(b, ["data", "id"]) == Some(Num(id))
    && Read(b, ["data", "userId"]) == Some(Num(userId))
    && Read(b, ["data", "usecase"]) == Some(Str(usecase))
    && Read(b, ["data", "contextId"]) == None
    && Read(b, ["data"]).Some? && Keys(Read(b, ["data"]).value) == ["id", "userId", "usecase"]
  }

  lemma CheckSubscriptionPayloadShape(version: nat, now: int, id: nat, userId: nat, usecase: string)
    ensures Encodable(CheckSubscriptionPayload(version, now, id, userId, usecase)) <==> InYearRange(now)
    ensures CheckSubscriptionShape(Text(CheckSubscriptionPayload(version, now, id, userId, usecase)),
                                   version, id, userId, usecase)
  {
    var v := CheckSubscriptionPayload(version, now, id, userId, usecase);
    var b := Text(v);
    var metaV, metaT := Member("version", Num(version)), Member("issuedAt", Instant(now));
    var meta := Obj([metaV, metaT]);
    var dId, dUser, dUse := Member("id", Num(id)), Member("userId", Num(userId)), Member("usecase", Str(usecase));
    var data := Obj([dId, dUser, dUse]);
    assert LinkMeta(version, now, "") == meta;
    assert v == Obj([Member("meta", meta), Member("data", data)]);
    EncodablePair(metaV, metaT);
    EncodableTriple(dId, dUser, dUse);
    EncodablePair(Member("meta", meta), Member("data", data));
    GetPair(Member("meta", meta), Member("data", data), "meta");
    GetPair(Member("meta", meta), Member("data", data), "data");
    GetPair(metaV, metaT, "version");
    GetPair(metaV, metaT, "source");
    GetTriple(dId, dUser, dUse, "id");
    GetTriple(dId, dUser, dUse, "userId");
    GetTriple(dId, dUser, dUse, "usecase");
    GetTriple(dId, dUser, dUse, "contextId");
    AtTwo(v, "meta", "version");
    AtTwo(v, "meta", "source");
    AtTwo(v, "data", "id");
    AtTwo(v, "data", "userId");
    AtTwo(v, "data", "usecase");
    AtTwo(v, "data", "contextId");
    assert ["data"][1..] == [];
    assert Read(b, ["data"]) == Some(data);
    assert Keys(data) == ["id", "userId", "usecase"];
  }

  /** The link service's check-subscription messenger. */
  datatype CheckSubscriptionMessenger = CheckSubscriptionMessenger(version: nat)

  function FromLinkShortened(m: CheckSubscriptionMessenger, msg: LinkShortened, now: int): (s: Sealed)
    ensures s.err.None? <==> InYearRange(now)
    ensures s.err.Some? ==> s.bytes == NoBytes
    ensures s.err.None? ==> CheckSubscriptionShape(s.bytes, m.version, msg.id, msg.userId, LinkShortenedName)
  {
    var payload := CheckSubscriptionPayload(m.version, now, msg.id, msg.userId, LinkShortenedName);
    CheckSubscriptionPayloadShape(m.version, now, msg.id, msg.userId, LinkShortenedName);
    Seal(payload, "messaging<CheckSubscriptionMessenger.SerLinkShortened>: ")
  }

  function FromShortConfigured(m: CheckSubscriptionMessenger, msg: ShortConfigured, now: int): (s: Sealed)
    ensures s.err.None? <==> InYearRange(now)
    ensures s.err.Some? ==> s.bytes == NoBytes
    ensures s.err.None? ==> CheckSubscriptionShape(s.bytes, m.version, msg.id, msg.userId, ShortConfiguredName)
  {
    var payload := CheckSubscriptionPayload(m.version, now, msg.id, msg.userId, ShortConfiguredName);
    CheckSubscriptionPayloadShape(m.version, now, msg.id, msg.userId, ShortConfiguredName);
    Seal(payload, "messaging<CheckSubscriptionMessenger.SerShortConfigured>: ")
  }

  /** The two link events give envelopes that differ only in their use case. */
  lemma LinkEventsDifferInUsecase(m: CheckSubscriptionMessenger, a: LinkShortened, b: ShortConfigured, now: int)
    requires InYearRange(now) && a.id == b.id && a.userId == b.userId
    ensures FromLinkShortened(m, a, now).bytes != FromShortConfigured(m, b, now).bytes
  {
    var x := FromLinkShortened(m, a, now).bytes;
    var y := FromShortConfigured(m, b, now).bytes;
    assert Read(x, ["data", "usecase"]) == Some(Str(LinkShortenedName));
    assert Read(y, ["data", "usecase"]) == Some(Str(ShortConfiguredName));
    assert LinkShortenedName[0] != ShortConfiguredName[0];
  }

  /** The subscription service's finish-shortening messenger. */
  datatype FinishShorteningMessenger = FinishShorteningMessenger(version: nat)

  function FinishShorteningPayload(version: nat, now: int, msg: SubscriptionChecked): Value
  {
    Obj([Member("meta", SubscriptionMeta(version, now)),
         Member("data", Obj([
           Member("id", Num(msg.id)),
           Member("contextId", Num(msg.contextId)),
           Member("usecase", Str(msg.usecase)),
           Member("perk", Obj([
             Member("limit", Num(msg.limit)),
             Member("lifetime", Num(msg.lifetime)),
             Member("allowShortEdit", Bool(msg.allowEdit))]))]))])
  }

  function FromSubscriptionChecked(m: FinishShorteningMessenger, msg: SubscriptionChecked, now: int): (s: Sealed)
    ensures s.err.None? <==> InYearRange(now)
    ensures s.err.Some? ==> s.bytes == NoBytes
    ensures s.err.None? ==>
      && Read(s.bytes, ["meta", "version"]) == Some(Num(m.version))
      && Read(s.bytes, ["data", "id"]) == Some(Num(msg.id))
      && Read(s.bytes, ["data", "contextId"]) == Some(Num(msg.contextId))
      && Read(s.bytes, ["data", "usecase"]) == Some(Str(msg.usecase))
      && Read(s.bytes, ["data", "perk", "limit"]) == Some(Num(msg.limit))
      && Read(s.bytes, ["data", "perk", "lifetime"]) == Some(Num(msg.lifetime))
      && Read(s.bytes, ["data", "perk", "allowShortEdit"]) == Some(Bool(msg.allowEdit))
  {
    var payload := FinishShorteningPayload(m.version, now, msg);
    FinishShorteningPayloadShape(m.version, now, msg);
    Seal(payload, "messaging<finishShorteningMessenger.DeFinishShortening>: ")
  }

  lemma FinishShorteningPayloadShape(version: nat, now: int, msg: SubscriptionChecked)
    ensures Encodable(FinishShorteningPayload(version, now, msg)) <==> InYearRange(now)
    ensures var v := FinishShorteningPayload(version, now, msg);
      && At(v, ["meta", "version"]) == Some(Num(version))
      && At(v, ["data", "id"]) == Some(Num(msg.id))
      && At(v, ["data", "contextId"]) == Some(Num(msg.contextId))
      && At(v, ["data", "usecase"]) == Some(Str(msg.usecase))
      && At(v, ["data", "perk", "limit"]) == Some(Num(msg.limit))
      && At(v, ["data", "perk", "lifetime"]) == Some(Num(msg.lifetime))
      && At(v, ["data", "perk", "allowShortEdit"]) == Some(Bool(msg.allowEdit))
  {
    var v := FinishShorteningPayload(version, now, msg);
    var metaV, metaT := Member("version", Num(version)), Member("issuedAt", Instant(now));
    var meta := Obj([metaV, metaT]);
    var pL, pT, pE := Member("limit", Num(msg.limit)), Member("lifetime", Num(msg.lifetime)),
      Member("allowShortEdit", Bool(msg.allowEdit));
    var perk := Obj([pL, pT, pE]);
    var dId, dCtx, dUse, dPerk := Member("id", Num(msg.id)), Member("contextId", Num(msg.contextId)),
      Member("usecase", Str(msg.usecase)), Member("perk", perk);
    var data := Obj([dId, dCtx, dUse, dPerk]);
    assert SubscriptionMeta(version, now) == meta;
    assert v == Obj([Member("meta", meta), Member("data", data)]);
    EncodablePair(metaV, metaT);
    EncodableTriple(pL, pT, pE);
    EncodableQuad(dId, dCtx, dUse, dPerk);
    EncodablePair(Member("meta", meta), Member("data", data));
    GetPair(Member("meta", meta), Member("data", data), "meta");
    GetPair(Member("meta", meta), Member("data", data), "data");
    GetPair(metaV, metaT, "version");
    GetQuad(dId, dCtx, dUse, dPerk, "id");
    GetQuad(dId, dCtx, dUse, dPerk, "contextId");
    GetQuad(dId, dCtx, dUse, dPerk, "usecase");
    GetQuad(dId, dCtx, dUse, dPerk, "perk");
    GetTriple(pL, pT, pE, "limit");
    GetTriple(pL, pT, pE, "lifetime");
    GetTriple(pL, pT, pE, "allowShortEdit");
    AtTwo(v, "meta", "version");
    AtTwo(v, "data", "id");
    AtTwo(v, "data", "contextId");
    AtTwo(v, "data", "usecase");
    AtThree(v, "data", "perk", "limit");
    AtThree(v, "data", "perk", "lifetime");
    AtThree(v, "data", "perk", "allowShortEdit");
    AtTwo(data, "perk", "limit");
    AtTwo(data, "perk", "lifetime");
    AtTwo(data, "perk", "allowShortEdit");
  }

  /** The subscription service's subscription-expired messenger. */
  datatype SubscriptionExpiredMessenger = SubscriptionExpiredMessenger(version: nat)

  function SubscriptionExpiredPayload(version: nat, now: int, msg: SubscriptionExpired, perk: Perk): Value
  {
    Obj([Member("meta", SubscriptionMeta(version, now)),
         Member("data", Obj([
           Member("id", Num(msg.id)),
           Member("userId", Num(msg.userId)),
           Member("perk", Obj([
             Member("limit", Num(perk.limit)),
             Member("allowShortEdit", Bool(perk.allowShortEdit))]))]))])
  }

  lemma SubscriptionExpiredPayloadShape(version: nat, now: int, msg: SubscriptionExpired, perk: Perk)
    ensures Encodable(SubscriptionExpiredPayload(version, now, msg, perk)) <==> InYearRange(now)
    ensures var v := SubscriptionExpiredPayload(version, now, msg, perk);
      && At(v, ["meta", "version"]) == Some(Num(version))
      && At(v, ["data", "id"]) == Some(Num(msg.id))
      && At(v, ["data", "userId"]) == Some(Num(msg.userId))
      && At(v, ["data", "perk", "limit"]) == Some(Num(perk.limit))
      && At(v, ["data", "perk", "allowShortEdit"]) == Some(Bool(perk.allowShortEdit))
      && At(v, ["data", "perk", "lifetime"]) == None
  {
    var v := SubscriptionExpiredPayload(version, now, msg, perk);
    var metaV, metaT := Member("version", Num(version)), Member("issuedAt", Instant(now));
    var meta := Obj([metaV, metaT]);
    var pL, pE := Member("limit", Num(perk.limit)), Member("allowShortEdit", Bool(perk.allowShortEdit));
    var perkV := Obj([pL, pE]);
    var dId, dUser, dPerk := Member("id", Num(msg.id)), Member("userId", Num(msg.userId)), Member("perk", perkV);
    var data := Obj([dId, dUser, dPerk]);
    assert SubscriptionMeta(version, now) == meta;
    assert v == Obj([Member("meta", meta), Member("data", data)]);
    EncodablePair(metaV, metaT);
    EncodablePair(pL, pE);
    EncodableTriple(dId, dUser, dPerk);
    EncodablePair(Member("meta", meta), Member("data", data));
    GetPair(Member("meta", meta), Member("data", data), "meta");
    GetPair(Member("meta", meta), Member("data", data), "data");
    GetPair(metaV, metaT, "version");
    GetTriple(dId, dUser, dPerk, "id");
    GetTriple(dId, dUser, dPerk, "userId");
    GetTriple(dId, dUser, dPerk, "perk");
    GetPair(pL, pE, "limit");
    GetPair(pL, pE, "allowShortEdit");
    GetPair(pL, pE, "lifetime");
    AtTwo(v, "meta", "version");
    AtTwo(v, "data", "id");
    AtTwo(v, "data", "userId");
    AtThree(v, "data", "perk", "limit");
    AtThree(v, "data", "perk", "allowShortEdit");
    AtThree(v, "data", "perk", "lifetime");
    AtTwo(data, "perk", "limit");
    AtTwo(data, "perk", "allowShortEdit");
    AtTwo(data, "perk", "lifetime");
  }

  /** The perk comes from the argument; the message only gives the ids. */
  function FromSubscriptionExpired(m: SubscriptionExpiredMessenger, msg: SubscriptionExpired, perk: Perk, now: int): (s: Sealed)
    ensures s.err.None? <==> InYearRange(now)
    ensures s.err.Some? ==> s.bytes == NoBytes
    ensures s.err.None? ==>
      && Read(s.bytes, ["meta", "version"]) == Some(Num(m.version))
      && Read(s.bytes, ["data", "id"]) == Some(Num(msg.id))
      && Read(s.bytes, ["data", "userId"]) == Some(Num(msg.userId))
      && Read(s.bytes, ["data", "perk", "limit"]) == Some(Num(perk.limit))
      && Read(s.bytes, ["data", "perk", "allowShortEdit"]) == Some(Bool(perk.allowShortEdit))
      && Read(s.bytes, ["data", "perk", "lifetime"]) == None
  {
    var payload := SubscriptionExpiredPayload(m.version, now, msg, perk);
    SubscriptionExpiredPayloadShape(m.version, now, msg, perk);
    Seal(payload, "messaging<finishShorteningMessenger.DeFinishShortening>: ")
  }

  // ---------------------------------------------------------------------
  // The create-subscription command: a serializer and its decoder.

  /** The decoded command: the issue time and the user ids (Go `uint64`s). */
  datatype CreateSubscription = CreateSubscription(issuedAt: int, users: seq<nat>)

  /** `&createSubscription{}`: the zero time and no users. */
  const EmptyCommand: CreateSubscription := CreateSubscription(ZeroTime, [])

  predicate AllUint64(us: seq<nat>)
  {
    forall i :: 0 <= i < |us| ==> us[i] < Uint64Limit
  }

  function Numbers(us: seq<nat>): (vs: seq<Value>)
    ensures |vs| == |us|
    ensures forall i :: 0 <= i < |us| ==> vs[i] == Num(us[i])
  {
    seq(|us|, i requires 0 <= i < |us| => Num(us[i]))
  }

  /** The command's JSON: the data key is spelled "Data", the list key "users". */
  function CreateSubscriptionPayload(users: seq<nat>, now: int): Value
  {
    Obj([Member("meta", Obj([Member("issuedAt", Instant(now))])),
         Member("Data", Obj([Member("users", Arr(Numbers(users)))]))])
  }

  lemma CreateSubscriptionPayloadShape(users: seq<nat>, now: int)
    ensures var v := CreateSubscriptionPayload(users, now);
      && At(v, ["Data", "users"]) == Some(Arr(Numbers(users)))
      && At(v, ["meta", "issuedAt"]) == Some(Instant(now))
  {
    var v := CreateSubscriptionPayload(users, now);
    var meta := Obj([Member("issuedAt", Instant(now))]);
    var data := Obj([Member("users", Arr(Numbers(users)))]);
    GetPair(Member("meta", meta), Member("Data", data), "meta");
    GetPair(Member("meta", meta), Member("Data", data), "Data");
    AtTwo(v, "Data", "users");
    AtTwo(v, "meta", "issuedAt");
  }

  /** `SerCreateSubscription`: the marshal error is returned unwrapped. */
  function SerCreateSubscription(users: seq<nat>, now: int): (s: Sealed)
    ensures s.err.None? <==> InYearRange(now)
    ensures s.err.None? ==>
      && Read(s.bytes, ["Data", "users"]) == Some(Arr(Numbers(users)))
      && Read(s.bytes, ["meta", "issuedAt"]) == Some(Instant(now))
  {
    var payload := CreateSubscriptionPayload(users, now);
    CreateSubscriptionPayloadShape(users, now);
    if InYearRange(now) then Sealed(Text(payload), None)
    else Sealed(NoBytes, Some(Plain(MarshalTimeError)))
  }

  const SyntaxError: string := "invalid character looking for beginning of value"
  const TypeError: string := "json: cannot unmarshal value into Go struct field"
  const RangeError: string := "json: cannot unmarshal number into Go struct field createSubscriptionData.Data.users of type uint64"

  /** One `uint64` element; `null` leaves the zero value in place. */
  function DecodeUint64(v: Value): (r: Result<nat>)
    ensures r.Ok? <==> v.Null? || (v.Num? && 0 <= v.n < Uint64Limit)
    ensures r.Ok? && v.Num? ==> r.value == v.n
  {
    match v
    case Null => Ok(0)
    case Num(n) => if 0 <= n < Uint64Limit then Ok(n as nat) else Err(Plain(RangeError))
    case _ => Err(Plain(TypeError))
  }

  function DecodeUint64s(items: seq<Value>): (r: Result<seq<nat>>)
    ensures r.Ok? ==> |r.value| == |items|
    decreases |items|
  {
    if items == [] then Ok([])
    else match DecodeUint64(items[0])
      case Err(f) => Err(f)
      case Ok(x) =>
        match DecodeUint64s(items[1..])
        case Err(f) => Err(f)
        case Ok(xs) => Ok([x] + xs)
  }

  /** A `[]uint64` field: `null` resets it to nil, an array replaces it. */
  function DecodeUsers(v: Value): Result<seq<nat>>
  {
    match v
    case Null => Ok([])
    case Arr(items) => DecodeUint64s(items)
    case _ => Err(Plain(TypeError))
  }

  /** A `time.Time` field: `null` leaves it alone, anything but a timestamp fails. */
  function DecodeTime(v: Value, cur: int): Result<int>
  {
    match v
    case Null => Ok(cur)
    case Instant(t) => Ok(t)
    case _ => Err(Plain(TypeError))
  }

  /** The members of `meta`, in order; keys match without regard to ASCII case. */
  function DecodeMetaMembers(ms: seq<Member>, t: int): Result<int>
    decreases |ms|
  {
    if ms == [] then Ok(t)
    else
      var step := if EqualFold(ms[0].key, "issuedAt") then DecodeTime(ms[0].value, t) else Ok(t);
      match step
      case Err(f) => Err(f)
      case Ok(t') => DecodeMetaMembers(ms[1..], t')
  }

  function DecodeDataMembers(ms: seq<Member>, us: seq<nat>): Result<seq<nat>>
    decreases |ms|
  {
    if ms == [] then Ok(us)
    else
      var step := if EqualFold(ms[0].key, "users") then DecodeUsers(ms[0].value) else Ok(us);
      match step
      case Err(f) => Err(f)
      case Ok(us') => DecodeDataMembers(ms[1..], us')
  }

  /** A nested struct: `null` leaves it alone, an object is decoded member by member. */
  function DecodeMeta(v: Value, t: int): Result<int>
  {
    match v
    case Null => Ok(t)
    case Obj(ms) => DecodeMetaMembers(ms, t)
    case _ => Err(Plain(TypeError))
  }

  function DecodeData(v: Value, us: seq<nat>): Result<seq<nat>>
  {
    match v
    case Null => Ok(us)
    case Obj(ms) => DecodeDataMembers(ms, us)
    case _ => Err(Plain(TypeError))
  }

  function DecodeTopMembers(ms: seq<Member>, c: CreateSubscription): Result<CreateSubscription>
    decreases |ms|
  {
    if ms == [] then Ok(c)
    else
      var step :=
        if EqualFold(ms[0].key, "meta") then
          (match DecodeMeta(ms[0].value, c.issuedAt)
           case Err(f) => Err(f)
           case Ok(t) => Ok(c.(issuedAt := t)))
        else if EqualFold(ms[0].key, "Data") then
          (match DecodeData(ms[0].value, c.users)
           case Err(f) => Err(f)
           case Ok(us) => Ok(c.(users := us)))
        else Ok(c);
      match step
      case Err(f) => Err(f)
      case Ok(c') => DecodeTopMembers(ms[1..], c')
  }

  /** `DecodeCreateSubscription` into a fresh (zero) command. */
  function Unmarshal(b: Bytes): Result<CreateSubscription>
  {
    match Parse(b)
    case None => Err(Plain(SyntaxError))
    case Some(Null) => Ok(EmptyCommand)
    case Some(Obj(ms)) => DecodeTopMembers(ms, EmptyCommand)
    case Some(_) => Err(Plain(TypeError))
  }

  /** `DeCreateSubscription`: any decoding error gives the empty command and the error. */
  function DeCreateSubscription(b: Bytes): (r: (CreateSubscription, Option<Fault>))
    ensures r.1.Some? ==> r.0 == EmptyCommand
    ensures r.1.None? <==> Unmarshal(b).Ok?
    ensures b.Garbage? ==> r.1.Some?
  {
    match Unmarshal(b)
    case Ok(c) => (c, None)
    case Err(f) => (EmptyCommand, Some(f))
  }

  lemma {:induction false} DecodeNumbers(us: seq<nat>)
    requires AllUint64(us)
    ensures DecodeUint64s(Numbers(us)) == Ok(us)
    decreases |us|
  {
    if us != [] {
      assert Numbers(us)[1..] == Numbers(us[1..]);
      DecodeNumbers(us[1..]);
      assert [us[0]] + us[1..] == us;
    }
  }

  lemma EqualFoldDistinct()
    ensures !EqualFold("meta", "Data") && !EqualFold("Data", "meta")
    ensures !EqualFold("users", "issuedAt")
  {
    assert LowerAscii("meta"[0]) != LowerAscii("Data"[0]);
  }

  /** Decoding what `SerCreateSubscription` produced gives back the same users and time. */
  lemma CreateSubscriptionRoundTrip(users: seq<nat>, now: int)
    requires AllUint64(users) && InYearRange(now)
    ensures DeCreateSubscription(SerCreateSubscription(users, now).bytes) == (CreateSubscription(now, users), None)
  {
    EqualFoldDistinct();
    assert EqualFold("meta", "meta") && EqualFold("Data", "Data");
    assert EqualFold("users", "users") && EqualFold("issuedAt", "issuedAt");
    DecodeNumbers(users);
    var tm := Member("issuedAt", Instant(now));
    var um := Member("users", Arr(Numbers(users)));
    assert [tm][1..] == [] && [um][1..] == [];
    assert DecodeMetaMembers([tm], ZeroTime) == DecodeMetaMembers([], now) == Ok(now);
    assert DecodeDataMembers([um], []) == DecodeDataMembers([], users) == Ok(users);
    var mm := Member("meta", Obj([tm]));
    var dm := Member("Data", Obj([um]));
    assert CreateSubscriptionPayload(users, now).members == [mm, dm];
    assert [mm, dm][1..] == [dm] && [dm][1..] == [];
    var afterMeta := CreateSubscription(now, []);
    assert DecodeTopMembers([mm, dm], EmptyCommand) == DecodeTopMembers([dm], afterMeta);
    assert DecodeTopMembers([dm], afterMeta) == DecodeTopMembers([], CreateSubscription(now, users));
  }
}
