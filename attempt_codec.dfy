/**
 * The cache row of a login attempt and its string-map (hash) encoding:
 * "ok" holds `%t` of the flag, "time" the `%d` of the Unix time in
 * milliseconds. The same codec appears in account/internal/cache,
 * in authAttempt.valkey.go and in valkey.auth.go.
 */
module AttemptCodec {
  import opened Wrappers
  import opened Oops
  import opened Strconv
  import opened Lockout

  const NanosPerMilli: int := 1_000_000

  /** A Valkey hash: field name to value. */
  type Hash = map<string, string>

  /** The cached form of an attempt. */
  datatype Row = Row(ok: bool, time: int)

  /** `time.Time.UnixMilli`: floor division, which Dafny's `/` is for a positive divisor. */
  function UnixMilli(t: int): int { t / NanosPerMilli }

  /** `time.UnixMilli(ms)`. */
  function FromUnixMilli(ms: int): int { ms * NanosPerMilli }

  /** The instant `t` cut down to a whole millisecond, as the codec keeps it. */
  function TruncateToMilli(t: int): (r: int)
    ensures r <= t < r + NanosPerMilli
    ensures r % NanosPerMilli == 0
  {
    FromUnixMilli(UnixMilli(t))
  }

  /** `NewAuthAttemptRow`: a copy of the attempt's flag and time. */
  function NewRow(a: Attempt): (r: Row)
    ensures r.ok == a.ok && r.time == a.time
  {
    Row(a.ok, a.time)
  }

  /** `toDomain`: never fails, keeps flag and time. */
  function ToDomain(r: Row): (a: Attempt)
    ensures a.ok == r.ok && a.time == r.time
  {
    Attempt(r.ok, r.time)
  }

  /** Go's map index: a missing field reads as the empty string. */
  function Field(h: Hash, k: string): string
  {
    if k in h then h[k] else ""
  }

  /** `toHash`: exactly the fields "ok" and "time". */
  function ToHash(r: Row): (h: Hash)
    ensures h.Keys == {"ok", "time"}
    ensures h["ok"] == "true" || h["ok"] == "false"
    ensures h["time"] != [] && (r.time < 0 <==> h["time"][0] == '-')
  {
    map["ok" := FormatBool(r.ok), "time" := FormatInt(UnixMilli(r.time))]
  }

  /**
   * `fromHash`: a bad or missing "ok" is an error, then a bad or missing
   * "time"; otherwise the row at the stored millisecond.
   */
  function FromHash(h: Hash): (r: Result<Row>)
    ensures r.Ok? <==> ParseBool(Field(h, "ok")).Some? && ParseInt(Field(h, "time")).Some?
    ensures r.Ok? ==> r.value.ok == ParseBool(Field(h, "ok")).value
    ensures r.Ok? ==> r.value.time % NanosPerMilli == 0
  {
    match ParseBool(Field(h, "ok"))
    case None => Err(Wrap("persistence<authAttemptRow.fromHash>: ", Plain("strconv.ParseBool: invalid syntax")))
    case Some(ok) =>
      match ParseInt(Field(h, "time"))
      case None => Err(Wrap("persistence<authAttemptRow.fromHash>: ", Plain("strconv.ParseInt: invalid syntax or out of range")))
      case Some(ms) => Ok(Row(ok, FromUnixMilli(ms)))
  }

  /** Decoding an encoded row gives it back, cut to the millisecond. */
  lemma RoundTrip(r: Row)
    requires IsInt64(UnixMilli(r.time))
    ensures FromHash(ToHash(r)) == Ok(Row(r.ok, TruncateToMilli(r.time)))
  {
    FormatBoolRoundTrip(r.ok);
    FormatIntRoundTrip(UnixMilli(r.time));
  }

  /** A row already on a whole millisecond survives the codec unchanged. */
  lemma RoundTripExact(r: Row)
    requires IsInt64(UnixMilli(r.time)) && r.time % NanosPerMilli == 0
    ensures FromHash(ToHash(r)) == Ok(r)
  {
    RoundTrip(r);
  }

  /** Re-encoding a decoded hash and decoding again changes nothing. */
  lemma DecodeEncodeStable(h: Hash)
    requires FromHash(h).Ok?
    ensures FromHash(ToHash(FromHash(h).value)) == FromHash(h)
  {
    var ms := ParseInt(Field(h, "time")).value;
    assert UnixMilli(FromUnixMilli(ms)) == ms;
    RoundTripExact(FromHash(h).value);
  }

  /** The attempt read back from the cache is the stored attempt up to the millisecond. */
  lemma AttemptSurvivesCache(a: Attempt)
    requires IsInt64(UnixMilli(a.time))
    ensures FromHash(ToHash(NewRow(a))).Ok?
    ensures ToDomain(FromHash(ToHash(NewRow(a))).value) == Attempt(a.ok, TruncateToMilli(a.time))
  {
    RoundTrip(NewRow(a));
  }
}
