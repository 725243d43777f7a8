/**
 * The link domain of the link service: link validation and shortening
 * (`shortening.Link`), the active-link quota (`shortening.Stats`) and the
 * redirect view of a link (`redirect.Link`).
 *
 * Times are integer nanoseconds; the clock and the random source are
 * parameters. Lengths are Go byte lengths, i.e. UTF-8 lengths of the text.
 */
module LinkDomain {
  import opened Wrappers
  import opened Oops

  const ShortenedMaxLen: nat := 15
  const Lower: string := "abcdefghijklmnopqrstuvwxyz"
  const Upper: string := "ABCDEFGHIJKLMNOPQRSTUVWXYZ"
  const Digits: string := "0123456789"
  /** The 62 characters a shortened link is drawn from. */
  const Charset: string := Lower + Upper + Digits
  const DestinationMaxLen: nat := 255

  const NewLinkContext: string := "domain<NewLink>: "
  const ShortenedTooLong: string := "Shortened could only be 15 chars long at maximum"
  const DestinationTooLong: string := "Destination could only be 255 chars long at maximum"
  const SchemeMissing: string := "destination should contain URL scheme"

  /** Bytes of the UTF-8 encoding of one character. */
  function CharBytes(c: char): (n: nat)
    ensures 1 <= n <= 4
    ensures n == 1 <==> c < 128 as char
  {
    if c < 128 as char then 1
    else if c < 0x800 as char then 2
    else if c < 0x1_0000 as char then 3
    else 4
  }

  /** Go's `len` of a string: its length in UTF-8 bytes. */
  function ByteLen(s: string): (n: nat)
    ensures n >= |s|
    ensures (forall i :: 0 <= i < |s| ==> s[i] < 128 as char) ==> n == |s|
  {
    if s == [] then 0 else CharBytes(s[0]) + ByteLen(s[1..])
  }

  // ---------------------------------------------------------------- URLs

  predicate IsLetter(c: char) { 'a' <= c <= 'z' || 'A' <= c <= 'Z' }

  /** Characters allowed in a URL scheme after its first letter. */
  predicate SchemeChar(c: char) { IsLetter(c) || '0' <= c <= '9' || c == '+' || c == '-' || c == '.' }

  /** `v` is a well-formed scheme: a letter followed by scheme characters. */
  predicate IsScheme(v: string)
  {
    |v| > 0 && IsLetter(v[0]) && forall j :: 0 <= j < |v| ==> SchemeChar(v[j])
  }

  /** `s` starts with the scheme `v` and a colon. */
  predicate IsSchemeOf(v: string, s: string)
  {
    IsScheme(v) && |v| < |s| && s[..|v|] == v && s[|v|] == ':'
  }

  const MissingProtocolScheme: string := "missing protocol scheme"

  /**
   * The scheme split of `net/url`: walking from position `i`, a run of
   * scheme characters closed by ':' is the scheme; a ':' first is an error;
   * anything else means there is no scheme (the empty one).
   */
  function SchemeScan(s: string, i: nat): (r: Result<string>)
    requires i <= |s|
    requires forall j :: 0 <= j < i ==> SchemeChar(s[j])
    requires i > 0 ==> IsLetter(s[0])
    ensures r.Err? <==> i == 0 && |s| > 0 && s[0] == ':'
    ensures r.Err? ==> r.fault == Plain(MissingProtocolScheme)
    ensures r.Ok? && r.value != "" ==> IsSchemeOf(r.value, s)
    ensures ':' !in s ==> r == Ok("")
    decreases |s| - i
  {
    if i == |s| then Ok("")
    else
      var c := s[i];
      if IsLetter(c) then SchemeScan(s, i + 1)
      else if SchemeChar(c) then (if i == 0 then Ok("") else SchemeScan(s, i + 1))
      else if c == ':' then (if i == 0 then Err(Plain(MissingProtocolScheme)) else Ok(s[..i]))
      else Ok("")
  }

  /** The text before the first '#': `url.Parse` cuts the fragment off first. */
  function BeforeFragment(s: string): (u: string)
    ensures |u| <= |s| && u == s[..|u|]
    ensures '#' !in u
    ensures |u| < |s| ==> s[|u|] == '#'
  {
    if s == [] || s[0] == '#' then "" else [s[0]] + BeforeFragment(s[1..])
  }

  predicate HasControl(s: string)
  {
    exists i :: 0 <= i < |s| && (s[i] < ' ' || s[i] == 0x7f as char)
  }

  /** A lower-case hexadecimal digit. */
  function HexDigit(n: nat): char
    requires n < 16
  {
    "0123456789abcdef"[n]
  }

  /** A control character as `net/url` sees one: below space, or DEL. */
  predicate IsControl(c: char)
  {
    c < ' ' || c == 0x7f as char
  }

  /**
   * One character as `strconv.Quote` writes it: the quote and the
   * backslash escaped, printable ASCII kept, the seven C escapes, other
   * ASCII controls as `\x..` and the C1 controls as `\u00..`.
   */
  function QuoteChar(c: char): (q: string)
    ensures |q| >= 1
    ensures forall i :: 0 <= i < |q| ==> !IsControl(q[i])
  {
    if c == '"' then "\\\""
    else if c == '\\' then "\\\\"
    else if ' ' <= c < 0x7f as char then [c]
    else if c == 7 as char then "\\a"
    else if c == 8 as char then "\\b"
    else if c == 12 as char then "\\f"
    else if c == 10 as char then "\\n"
    else if c == 13 as char then "\\r"
    else if c == 9 as char then "\\t"
    else if c == 11 as char then "\\v"
    else if c < ' ' || c == 0x7f as char then "\\x" + [HexDigit(c as int / 16), HexDigit(c as int % 16)]
    else if 0x80 as char <= c < 0xa0 as char then "\\u00" + [HexDigit(c as int / 16), HexDigit(c as int % 16)]
    else [c]
  }

  /** The text between the quotes of `%q`. */
  function QuoteBody(s: string): (q: string)
    ensures |q| >= |s|
  {
    if s == [] then "" else QuoteChar(s[0]) + QuoteBody(s[1..])
  }

  /** `%q` of a string. */
  function Quote(s: string): string
  {
    "\"" + QuoteBody(s) + "\""
  }

  /** Printable ASCII without quote or backslash is quoted as itself. */
  lemma {:induction false} QuoteKeepsPlain(s: string)
    requires forall i :: 0 <= i < |s| ==> ' ' <= s[i] < 0x7f as char && s[i] != '"' && s[i] != '\\'
    ensures Quote(s) == "\"" + s + "\""
  {
    BodyKeepsPlain(s);
  }

  lemma {:induction false} BodyKeepsPlain(s: string)
    requires forall i :: 0 <= i < |s| ==> ' ' <= s[i] < 0x7f as char && s[i] != '"' && s[i] != '\\'
    ensures QuoteBody(s) == s
  {
    if s != [] {
      BodyKeepsPlain(s[1..]);
      assert s == [s[0]] + s[1..];
    }
  }

  /** Whatever the URL holds, the quoted text has no control character. */
  lemma {:induction false} QuotedHasNoControl(s: string)
    ensures forall i :: 0 <= i < |Quote(s)| ==> !IsControl(Quote(s)[i])
  {
    BodyHasNoControl(s);
  }

  lemma {:induction false} BodyHasNoControl(s: string)
    ensures forall i :: 0 <= i < |QuoteBody(s)| ==> !IsControl(QuoteBody(s)[i])
  {
    if s != [] {
      BodyHasNoControl(s[1..]);
      var q, r := QuoteChar(s[0]), QuoteBody(s[1..]);
      forall i | 0 <= i < |q + r| ensures !IsControl((q + r)[i]) {
        if i >= |q| { assert (q + r)[i] == r[i - |q|]; }
      }
    }
  }

  /** The text of a `url.Error` for the "parse" operation: the URL is written with `%q`. */
  function ParseError(u: string, reason: string): Fault
  {
    Plain("parse " + Quote(u) + ": " + reason)
  }

  /**
   * The scheme `url.Parse` finds in a destination, or its error: a control
   * character before the fragment, or a leading ':'.
   */
  function UrlScheme(raw: string): (r: Result<string>)
    ensures var u := BeforeFragment(raw);
      && (HasControl(u) ==> r == Err(ParseError(u, "net/url: invalid control character in URL")))
      && (!HasControl(u) && |u| > 0 && u[0] == ':' ==> r == Err(ParseError(u, MissingProtocolScheme)))
      && (r.Ok? ==> !HasControl(u) && (r.value == "" || IsSchemeOf(r.value, u)))
      && (!HasControl(u) && ':' !in u ==> r == Ok(""))
  {
    var u := BeforeFragment(raw);
    if HasControl(u) then Err(ParseError(u, "net/url: invalid control character in URL"))
    else match SchemeScan(u, 0)
      case Err(_) => Err(ParseError(u, MissingProtocolScheme))
      case Ok(v) => Ok(v)
  }

  lemma {:induction false} ScanFindsScheme(s: string, v: string, i: nat)
    requires IsSchemeOf(v, s) && i <= |v|
    ensures SchemeScan(s, i) == Ok(v)
    decreases |v| - i
  {
    if i < |v| {
      assert s[i] == v[i];
      ScanFindsScheme(s, v, i + 1);
    } else {
      assert s[..i] == v;
    }
  }

  /** Conversely, a destination that starts with a scheme and a colon, with no control character before any '#', parses with that scheme. */
  lemma SchemeFound(v: string, rest: string)
    requires IsScheme(v) && '#' !in v
    requires !HasControl(BeforeFragment(v + ":" + rest))
    ensures UrlScheme(v + ":" + rest) == Ok(v)
  {
    var s := v + ":" + rest;
    var u := BeforeFragment(s);
    assert s[..|v|] == v;
    BeforeFragmentKeeps(s, |v| + 1);
    assert u[..|v|] == v;
    ScanFindsScheme(u, v, 0);
  }

  lemma {:induction false} BeforeFragmentKeeps(s: string, n: nat)
    requires n <= |s| && '#' !in s[..n]
    ensures |BeforeFragment(s)| >= n && BeforeFragment(s)[..n] == s[..n]
  {
    if n > 0 {
      assert s[0] == s[..n][0];
      assert s[1..][..n - 1] == s[..n][1..];
      BeforeFragmentKeeps(s[1..], n - 1);
    }
  }

  // ---------------------------------------------------------------- links

  /** A shortened link; `alias` differs from `shortened` when a custom alias was chosen. */
  datatype LinkValue = LinkValue(
    id: nat, userId: nat, shortened: string, alias: string, destination: string,
    isOpen: bool, updatedAt: int, expiredAt: int)
  {
    predicate HadExpired(now: int) { now > expiredAt }
    predicate AccessibleBy(user: nat) { userId == user }
    predicate HasCustomAlias() { shortened != alias }
  }

  /** A validation failure as `NewLink` reports it: a wrapped BadValues with the reason as its cause. */
  function Invalid(reason: string): (f: Fault)
    ensures HttpStatusCode(Some(f)) == 400
  {
    WrapKeepsStatus(NewLinkContext, Typed(BadValues, "", Some(Plain(reason))));
    StatusOfOopsValue(BadValues, "", Some(Plain(reason)));
    Wrap(NewLinkContext, Typed(BadValues, "", Some(Plain(reason))))
  }

  /**
   * `NewLink`: the shortened length is checked first, then the destination
   * length, then the URL; a missing id becomes 0 and every field is kept.
   */
  function NewLink(id: Option<nat>, userId: nat, shortened: string, alias: string, destination: string,
                   isOpen: bool, updatedAt: int, expiredAt: int): (r: Result<LinkValue>)
    ensures r.Ok? <==>
      && ByteLen(shortened) <= ShortenedMaxLen && ByteLen(destination) <= DestinationMaxLen
      && UrlScheme(destination).Ok? && UrlScheme(destination).value != ""
    ensures r.Ok? ==> r.value == LinkValue(id.GetOr(0), userId, shortened, alias, destination, isOpen, updatedAt, expiredAt)
    ensures ByteLen(shortened) > ShortenedMaxLen ==> r == Err(Invalid(ShortenedTooLong))
    ensures ByteLen(shortened) <= ShortenedMaxLen && ByteLen(destination) > DestinationMaxLen ==>
      r == Err(Invalid(DestinationTooLong))
    ensures ByteLen(shortened) <= ShortenedMaxLen && ByteLen(destination) <= DestinationMaxLen ==>
      && (UrlScheme(destination).Err? ==> r == Err(Wrap(NewLinkContext, UrlScheme(destination).fault)))
      && (UrlScheme(destination) == Ok("") ==> r == Err(Invalid(SchemeMissing)))
  {
    if ByteLen(shortened) > ShortenedMaxLen then Err(Invalid(ShortenedTooLong))
    else if ByteLen(destination) > DestinationMaxLen then Err(Invalid(DestinationTooLong))
    else match UrlScheme(destination)
      case Err(e) => Err(Wrap(NewLinkContext, e))
      case Ok(scheme) =>
        if scheme == "" then Err(Invalid(SchemeMissing))
        else Ok(LinkValue(id.GetOr(0), userId, shortened, alias, destination, isOpen, updatedAt, expiredAt))
  }

  /** A destination without any ':' has no scheme and is refused as bad values. */
  lemma NoColonRefused(id: Option<nat>, userId: nat, shortened: string, alias: string, destination: string,
                       isOpen: bool, updatedAt: int, expiredAt: int)
    requires ByteLen(shortened) <= ShortenedMaxLen && ByteLen(destination) <= DestinationMaxLen
    requires ':' !in destination && !HasControl(BeforeFragment(destination))
    ensures NewLink(id, userId, shortened, alias, destination, isOpen, updatedAt, expiredAt) == Err(Invalid(SchemeMissing))
  {
    var u := BeforeFragment(destination);
    forall i | 0 <= i < |u| ensures u[i] != ':' {
      assert u[i] == destination[i];
    }
  }

  /** The shortened text the random draws pick: draw i selects `Charset[draw % 62]`. */
  function Drawn(draws: seq<nat>): (s: string)
    requires |draws| == ShortenedMaxLen
    ensures |s| == ShortenedMaxLen
    ensures forall i :: 0 <= i < |s| ==> s[i] in Charset && s[i] == Charset[draws[i] % |Charset|]
  {
    seq(ShortenedMaxLen, i requires 0 <= i < ShortenedMaxLen => Charset[draws[i] % |Charset|])
  }

  /** Any drawn text fits the 15-byte bound, because the charset is ASCII. */
  lemma DrawnFits(draws: seq<nat>)
    requires |draws| == ShortenedMaxLen
    ensures ByteLen(Drawn(draws)) == ShortenedMaxLen
  {
    var s := Drawn(draws);
    CharsetIsAscii();
    forall i | 0 <= i < |s| ensures s[i] < 128 as char {
      assert s[i] == Charset[draws[i] % |Charset|];
    }
  }

  predicate Ascii(s: string) { forall k :: 0 <= k < |s| ==> s[k] < 128 as char }

  lemma CharsetIsAscii()
    ensures |Charset| == 62 && Ascii(Charset)
  {
    LowerIsAscii();
    UpperIsAscii();
    DigitsAreAscii();
    AsciiJoins(Lower, Upper);
    AsciiJoins(Lower + Upper, Digits);
  }

  lemma LowerIsAscii()
    ensures Ascii(Lower)
  {
  }

  lemma UpperIsAscii()
    ensures Ascii(Upper)
  {
  }

  lemma DigitsAreAscii()
    ensures Ascii(Digits)
  {
  }

  lemma AsciiJoins(a: string, b: string)
    requires Ascii(a) && Ascii(b)
    ensures Ascii(a + b)
  {
    forall k | 0 <= k < |a + b| ensures (a + b)[k] < 128 as char {
      if k >= |a| {
        assert (a + b)[k] == b[k - |a|];
      }
    }
  }

  /** A link as the domain updates it in place. */
  class Link {
    var id: nat
    var userId: nat
    var shortened: string
    var alias: string
    var destination: string
    var isOpen: bool
    var updatedAt: int
    var expiredAt: int

    function Value(): LinkValue
      reads this
    {
      LinkValue(id, userId, shortened, alias, destination, isOpen, updatedAt, expiredAt)
    }

    constructor (v: LinkValue)
      ensures Value() == v
    {
      id, userId, shortened, alias := v.id, v.userId, v.shortened, v.alias;
      destination, isOpen, updatedAt, expiredAt := v.destination, v.isOpen, v.updatedAt, v.expiredAt;
    }

    /** `Shorten`: fill 15 characters from the charset, one draw each, and make the alias the same text. */
    method Shorten(draws: seq<nat>)
      requires |draws| == ShortenedMaxLen
      modifies this
      ensures Value() == old(Value()).(shortened := Drawn(draws), alias := Drawn(draws))
    {
      var buf := new char[ShortenedMaxLen];
      for i := 0 to ShortenedMaxLen
        invariant buf[..i] == Drawn(draws)[..i]
        invariant Value() == old(Value())
      {
        buf[i] := Charset[draws[i] % |Charset|];
      }
      assert buf[..] == buf[..ShortenedMaxLen];
      assert Drawn(draws)[..ShortenedMaxLen] == Drawn(draws);
      var text := buf[..];
      assert text == Drawn(draws);
      shortened := text;
      alias := text;
    }

    method Activate()
      modifies this
      ensures Value() == old(Value()).(isOpen := true)
    {
      isOpen := true;
    }

    method Deactivate()
      modifies this
      ensures Value() == old(Value()).(isOpen := false)
    {
      isOpen := false;
    }
  }

  /**
   * After shortening, the link has no custom alias, and its shortened text
   * passes `NewLink`'s length check.
   */
  lemma ShortenedIsPlain(v: LinkValue, draws: seq<nat>)
    requires |draws| == ShortenedMaxLen
    ensures var w := v.(shortened := Drawn(draws), alias := Drawn(draws));
      && !w.HasCustomAlias() && ByteLen(w.shortened) <= ShortenedMaxLen
      && (forall i :: 0 <= i < |w.shortened| ==> w.shortened[i] in Charset)
  {
    DrawnFits(draws);
  }

  /** Once expired, a link stays expired. */
  lemma ExpiryIsFinal(v: LinkValue, t: int, later: int)
    requires v.HadExpired(t) && t <= later
    ensures v.HadExpired(later)
    ensures !v.HadExpired(v.expiredAt)
  {
  }

  // ---------------------------------------------------------------- quota

  const UintLimit: nat := 0x1_0000_0000_0000_0000

  datatype Stats = Stats(activeLinks: nat)

  /** `HasQuota` as written: the sum is `uint` arithmetic and wraps. */
  predicate HasQuotaAsWritten(s: Stats, quota: nat, need: nat)
    requires s.activeLinks < UintLimit && quota < UintLimit && need < UintLimit
  {
    (s.activeLinks + need) % UintLimit <= quota
  }

  /** The wrapped sum admits a request for one more link with no quota at all. */
  lemma QuotaWrapAdmits()
    ensures HasQuotaAsWritten(Stats(UintLimit - 1), 0, 1)
    ensures !HasQuota(Stats(UintLimit - 1), 0, 1)
  {
  }

  /** Where the sum does not overflow, the written check and the intended one agree. */
  lemma QuotaAgreesWithoutWrap(s: Stats, quota: nat, need: nat)
    requires s.activeLinks < UintLimit && quota < UintLimit && need < UintLimit
    requires s.activeLinks + need < UintLimit
    ensures HasQuotaAsWritten(s, quota, need) <==> HasQuota(s, quota, need)
  {
  }

  /** `HasQuota` as intended: the active links plus the need fit in the quota. */
  predicate HasQuota(s: Stats, quota: nat, need: nat)
  {
    s.activeLinks + need <= quota
  }

  /** More quota or a smaller need never takes the quota away; with no need it is `activeLinks <= quota`. */
  lemma QuotaMonotone(s: Stats, quota: nat, need: nat, quota': nat, need': nat)
    requires HasQuota(s, quota, need) && quota <= quota' && need' <= need
    ensures HasQuota(s, quota', need')
    ensures HasQuota(s, quota, 0) <==> s.activeLinks <= quota
  {
  }

  // ---------------------------------------------------------------- redirect view

  /** The redirect service's view of a link. */
  datatype RedirectLink = RedirectLink(id: nat, shortened: string, destination: string, isOpen: bool, expiredAt: int)
  {
    /** `IsRedirectable`: open, and `now` strictly before the expiry. */
    predicate IsRedirectable(now: int) { isOpen && now - expiredAt < 0 }
  }

  /** A closed link never redirects; an open one redirects exactly before its expiry, and never again once it stops. */
  lemma RedirectWindow(l: RedirectLink, t: int, later: int)
    ensures !l.isOpen ==> !l.IsRedirectable(t)
    ensures l.isOpen ==> (l.IsRedirectable(t) <==> t < l.expiredAt)
    ensures !l.IsRedirectable(l.expiredAt)
    ensures !l.IsRedirectable(t) && t <= later && (l.isOpen ==> t >= l.expiredAt) ==> !l.IsRedirectable(later)
  {
  }
}
