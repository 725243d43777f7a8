/**
 * The Valkey keyspace behind login attempts and refresh tokens
 * (account/internal/persistence/valkey.auth.go and authAttempt.valkey.go).
 *
 * Attempts of user U live in a sorted set "user:U:auth-attempts" whose
 * members name hashes "user:U:auth-attempts:<identifier>", scored by the
 * attempt's millisecond time. The refresh token lives in the string key
 * "user:U:auth-token". Expiry is not timed here: an expired hash is simply
 * absent, which HGETALL reports as an empty hash.
 */
module AuthCache {
  import opened Wrappers
  import opened Oops
  import opened Strconv
  import opened Lockout
  import opened AttemptCodec

  const UserPrefix: string := "user:"

  /** `user:%d:auth-attempts`. */
  function AttemptsKey(userId: nat): (k: string)
    ensures k == UserPrefix + NatDigits(userId) + ":auth-attempts"
  {
    UserPrefix + FormatInt(userId) + ":auth-attempts"
  }

  /** `user:%d:auth-attempts:%s`: the sorted-set key, a colon, the identifier. */
  function AttemptHashKey(userId: nat, identifier: string): (k: string)
    ensures k == AttemptsKey(userId) + ":" + identifier
  {
    UserPrefix + FormatInt(userId) + ":auth-attempts:" + identifier
  }

  /** `user:%d:auth-token`, shared by Grant, Revoke and FindByOwner. */
  function TokenKey(userId: nat): (k: string)
    ensures k == UserPrefix + NatDigits(userId) + ":auth-token"
  {
    UserPrefix + FormatInt(userId) + ":auth-token"
  }

  /** A key made of the prefix, a digit run and a rest that does not start with a digit. */
  lemma SplitDigits(d1: string, rest1: string, d2: string, rest2: string)
    requires AllDigits(d1) && AllDigits(d2)
    requires rest1 != [] && !IsDigit(rest1[0]) && rest2 != [] && !IsDigit(rest2[0])
    requires UserPrefix + d1 + rest1 == UserPrefix + d2 + rest2
    ensures d1 == d2 && rest1 == rest2
  {
    var s1 := UserPrefix + d1 + rest1;
    var s2 := UserPrefix + d2 + rest2;
    assert d1 == s1[5..5 + |d1|] == s2[5..5 + |d2|] == d2;
    assert rest1 == s1[5 + |d1|..] == s2[5 + |d2|..] == rest2;
  }

  lemma NatDigitsInjective(m: nat, n: nat)
    requires NatDigits(m) == NatDigits(n)
    ensures m == n
  {
    NatDigitsRoundTrip(m);
    NatDigitsRoundTrip(n);
  }

  /**
   * The key scheme never mixes data: different users get different keys,
   * and a token key is never an attempt key or an attempt hash key.
   */
  lemma KeysSeparate(u: nat, v: nat, identifier: string)
    ensures AttemptsKey(u) == AttemptsKey(v) ==> u == v
    ensures TokenKey(u) == TokenKey(v) ==> u == v
    ensures TokenKey(u) != AttemptsKey(v)
    ensures TokenKey(u) != AttemptHashKey(v, identifier)
    ensures AttemptsKey(u) != AttemptHashKey(v, identifier)
  {
    var du, dv := NatDigits(u), NatDigits(v);
    var za, tk, hk := ":auth-attempts", ":auth-token", ":auth-attempts:" + identifier;
    assert AttemptHashKey(v, identifier) == UserPrefix + dv + hk;
    if AttemptsKey(u) == AttemptsKey(v) {
      SplitDigits(du, za, dv, za);
      NatDigitsInjective(u, v);
    }
    if TokenKey(u) == TokenKey(v) {
      SplitDigits(du, tk, dv, tk);
      NatDigitsInjective(u, v);
    }
    if TokenKey(u) == AttemptsKey(v) {
      SplitDigits(du, tk, dv, za);
    }
    if TokenKey(u) == AttemptHashKey(v, identifier) {
      SplitDigits(du, tk, dv, hk);
    }
    if AttemptsKey(u) == AttemptHashKey(v, identifier) {
      SplitDigits(du, za, dv, hk);
    }
  }

  /** HGETALL: an absent (expired) hash reads as an empty one. */
  function HashAt(hashes: map<string, Hash>, key: string): Hash
  {
    if key in hashes then hashes[key] else map[]
  }

  /** The members of a sorted set, an absent set being empty. */
  function MembersAt(zsets: map<string, map<string, int>>, key: string): map<string, int>
  {
    if key in zsets then zsets[key] else map[]
  }

  /** `ranked` lists the members of `z` once each, highest score first (ZREVRANGE 0 -1). */
  predicate RevRanked(ranked: seq<string>, z: map<string, int>)
  {
    && (forall i, j :: 0 <= i < j < |ranked| ==> ranked[i] != ranked[j])
    && (forall i :: 0 <= i < |ranked| ==> ranked[i] in z)
    && (forall m :: m in z ==> m in ranked)
    && (forall i, j :: 0 <= i < j < |ranked| && ranked[i] in z && ranked[j] in z ==> z[ranked[i]] >= z[ranked[j]])
  }

  /** Prefix already-decoded attempts to the outcome of the rest of the scan. */
  function Prepend(done: seq<Attempt>, rest: Result<seq<Attempt>>): Result<seq<Attempt>>
  {
    match rest
    case Ok(xs) => Ok(done + xs)
    case Err(e) => Err(e)
  }

  /**
   * What `Get` makes of the ranked members: empty hashes are skipped, the
   * others decoded in order, and the first undecodable hash fails the call.
   */
  function DecodeRanked(ranked: seq<string>, hashes: map<string, Hash>): Result<seq<Attempt>>
  {
    if ranked == [] then Ok([])
    else
      var h := HashAt(hashes, ranked[0]);
      if |h| == 0 then DecodeRanked(ranked[1..], hashes)
      else match FromHash(h)
        case Err(e) => Err(Wrap("persistence<valkeyAuthAttempt.Get>: ", e))
        case Ok(row) => Prepend([ToDomain(row)], DecodeRanked(ranked[1..], hashes))
  }

  lemma PrependNothing(r: Result<seq<Attempt>>)
    ensures Prepend([], r) == r
  {
    if r.Ok? {
      assert [] + r.value == r.value;
    }
  }

  lemma PrependAssoc(a: seq<Attempt>, b: seq<Attempt>, r: Result<seq<Attempt>>)
    ensures Prepend(a, Prepend(b, r)) == Prepend(a + b, r)
  {
    if r.Ok? {
      assert a + (b + r.value) == (a + b) + r.value;
    }
  }

  /** The truncated attempts, in the given order. */
  function Truncated(xs: seq<Attempt>): (ys: seq<Attempt>)
    ensures |ys| == |xs|
    ensures forall i :: 0 <= i < |xs| ==> ys[i] == Attempt(xs[i].ok, TruncateToMilli(xs[i].time))
  {
    if xs == [] then [] else [Attempt(xs[0].ok, TruncateToMilli(xs[0].time))] + Truncated(xs[1..])
  }

  /**
   * When every ranked member holds the hash `Add` wrote for an attempt, and
   * the rest have expired, `Get` returns exactly those attempts in rank order.
   */
  lemma {:induction false} DecodeStoredAttempts(ranked: seq<string>, hashes: map<string, Hash>, stored: seq<Option<Attempt>>)
    requires |stored| == |ranked|
    requires forall i :: 0 <= i < |ranked| && stored[i].Some? ==>
               HashAt(hashes, ranked[i]) == ToHash(NewRow(stored[i].value)) && IsInt64(UnixMilli(stored[i].value.time))
    requires forall i :: 0 <= i < |ranked| && stored[i].None? ==> HashAt(hashes, ranked[i]) == map[]
    ensures DecodeRanked(ranked, hashes) == Ok(Truncated(Present(stored)))
  {
    if ranked != [] {
      DecodeStoredAttempts(ranked[1..], hashes, stored[1..]);
      var rest := Present(stored[1..]);
      if stored[0].Some? {
        var a := stored[0].value;
        RoundTrip(NewRow(a));
        assert |ToHash(NewRow(a))| == 2 by {
          assert ToHash(NewRow(a)).Keys == {"ok", "time"};
        }
        assert Present(stored) == [a] + rest;
        assert ([a] + rest)[1..] == rest;
        assert Truncated(Present(stored)) == [Attempt(a.ok, TruncateToMilli(a.time))] + Truncated(rest);
      } else {
        assert Present(stored) == rest;
      }
    }
  }

  /** The values present in a sequence of options, in order. */
  function Present(xs: seq<Option<Attempt>>): seq<Attempt>
  {
    if xs == [] then [] else (if xs[0].Some? then [xs[0].value] else []) + Present(xs[1..])
  }

  class Valkey {
    var hashes: map<string, Hash>
    var zsets: map<string, map<string, int>>
    var strings: map<string, string>

    constructor ()
      ensures hashes == map[] && zsets == map[] && strings == map[]
    {
      hashes := map[];
      zsets := map[];
      strings := map[];
    }

    /**
     * `Add`: one MULTI/EXEC pipeline, so either nothing is written or both
     * the member (scored by the millisecond time) and its hash are.
     */
    method AddAttempt(userId: nat, a: Attempt, identifier: string, execOk: bool) returns (err: Option<Fault>)
      modifies this
      ensures execOk <==> err.None?
      ensures !execOk ==> hashes == old(hashes) && zsets == old(zsets)
      ensures execOk ==> hashes == old(hashes)[AttemptHashKey(userId, identifier) := ToHash(NewRow(a))]
      ensures execOk ==> zsets == old(zsets)[AttemptsKey(userId) :=
                MembersAt(old(zsets), AttemptsKey(userId))[AttemptHashKey(userId, identifier) := UnixMilli(a.time)]]
      ensures strings == old(strings)
    {
      var zName := AttemptsKey(userId);
      var hName := AttemptHashKey(userId, identifier);
      if !execOk {
        return Some(Wrap("persistence<valkeyAuthAttempt.Add>: ", Plain("EXEC failed")));
      }
      zsets := zsets[zName := MembersAt(zsets, zName)[hName := UnixMilli(a.time)]];
      hashes := hashes[hName := ToHash(NewRow(a))];
      err := None;
    }

    /**
     * `Get`: walk the members highest score first, skip expired hashes,
     * decode the rest; `rangeOk` is the outcome of ZREVRANGE.
     */
    method GetAttempts(userId: nat, ranked: seq<string>, rangeOk: bool) returns (r: Result<seq<Attempt>>)
      requires RevRanked(ranked, MembersAt(zsets, AttemptsKey(userId)))
      ensures !rangeOk ==> r.Err?
      ensures rangeOk ==> r == DecodeRanked(ranked, hashes)
    {
      if !rangeOk {
        return Err(Wrap("persistence<valkeyAuthAttempt.Get>: ", Plain("ZREVRANGE failed")));
      }
      var attempts: seq<Attempt> := [];
      var i := 0;
      PrependNothing(DecodeRanked(ranked, hashes));
      while i < |ranked|
        invariant 0 <= i <= |ranked|
        invariant DecodeRanked(ranked, hashes) == Prepend(attempts, DecodeRanked(ranked[i..], hashes))
      {
        assert ranked[i..][0] == ranked[i] && ranked[i..][1..] == ranked[i + 1..];
        var h := HashAt(hashes, ranked[i]);
        if |h| == 0 {
          i := i + 1;
          continue;
        }
        var row := FromHash(h);
        if row.Err? {
          return Err(Wrap("persistence<valkeyAuthAttempt.Get>: ", row.fault));
        }
        PrependAssoc(attempts, [ToDomain(row.value)], DecodeRanked(ranked[i + 1..], hashes));
        attempts := attempts + [ToDomain(row.value)];
        i := i + 1;
      }
      assert ranked[i..] == [] && attempts + [] == attempts;
      r := Ok(attempts);
    }

    /** `Grant`: SET of the user's token key. */
    method Grant(userId: nat, token: string, setOk: bool) returns (err: Option<Fault>)
      modifies this
      ensures setOk <==> err.None?
      ensures strings == if setOk then old(strings)[TokenKey(userId) := token] else old(strings)
      ensures hashes == old(hashes) && zsets == old(zsets)
    {
      if !setOk {
        return Some(Wrap("persistence<valkeyToken.Grant>: ", Plain("SET failed")));
      }
      strings := strings[TokenKey(userId) := token];
      err := None;
    }

    /** `Revoke`: DEL of the user's token key. */
    method Revoke(userId: nat, delOk: bool) returns (err: Option<Fault>)
      modifies this
      ensures delOk <==> err.None?
      ensures strings == if delOk then old(strings) - {TokenKey(userId)} else old(strings)
      ensures hashes == old(hashes) && zsets == old(zsets)
    {
      if !delOk {
        return Some(Wrap("persistence<valkeyToken.Revoke>: ", Plain("DEL failed")));
      }
      strings := strings - {TokenKey(userId)};
      err := None;
    }

    /** `FindByOwner`: GET of the user's token key; a missing key is the client's nil error. */
    method FindByOwner(userId: nat, getOk: bool) returns (r: Result<string>)
      ensures r.Ok? <==> getOk && TokenKey(userId) in strings
      ensures r.Ok? ==> r.value == strings[TokenKey(userId)]
    {
      var key := TokenKey(userId);
      if !getOk || key !in strings {
        return Err(Wrap("persistence<valkeyToken.FindByOwner>: ", Plain("valkey nil message")));
      }
      r := Ok(strings[key]);
    }
  }

  /** After `Grant`, `FindByOwner` reads back the granted token; after `Revoke`, nothing. */
  lemma GrantThenFind(strings: map<string, string>, u: nat, v: nat, token: string)
    ensures TokenKey(u) in strings[TokenKey(u) := token] && strings[TokenKey(u) := token][TokenKey(u)] == token
    ensures TokenKey(u) !in strings - {TokenKey(u)}
    ensures u != v && TokenKey(v) in strings ==> (strings[TokenKey(u) := token])[TokenKey(v)] == strings[TokenKey(v)]
  {
    KeysSeparate(u, v, "");
  }
}
