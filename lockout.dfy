/**
 * Account lockout: how long a user is kept from logging in after a run of
 * failed attempts, and how long the attempts must be remembered for that.
 * Times and durations are integers of nanoseconds (Go's time.Duration);
 * `now` is a parameter instead of a clock read.
 */
module Lockout {
  import opened Wrappers
  import opened Oops

  /** One login attempt: did it succeed, and when was it made. */
  datatype Attempt = Attempt(ok: bool, time: int)

  /** The lockout policy. Counts are Go `int`s, durations nanoseconds. */
  datatype Config = Config(maxConsecFail: int, maxExtraFail: int, baseJailTime: int, extraJailTime: int)
  {
    /** `attempts[:endIdx]` panics unless the window length is non-negative. */
    predicate WindowDefined() { maxConsecFail + maxExtraFail >= 0 }

    /** The policy the services are configured with: no negative count or duration. */
    predicate Sane()
    {
      maxConsecFail >= 0 && maxExtraFail >= 0 && baseJailTime >= 0 && extraJailTime >= 0
    }

    /** The longest jail the policy can hand out for attempts made in the past. */
    function RetentionFloor(): int { baseJailTime + maxExtraFail * extraJailTime }
  }

  /** `RetentionTime(leeway)`: the longest jail plus a non-negative leeway. */
  function RetentionTime(c: Config, leeway: int): (r: int)
    ensures r >= c.RetentionFloor()
    ensures leeway >= 0 ==> r == c.RetentionFloor() + leeway
    ensures leeway <= 0 ==> r == c.RetentionFloor()
  {
    var l := if leeway < 0 then 0 else leeway;
    c.baseJailTime + c.maxExtraFail * c.extraJailTime + l
  }

  /** The attempts the lockout looks at: at most maxConsecFail + maxExtraFail of the newest. */
  function Window(c: Config, attempts: seq<Attempt>): (w: seq<Attempt>)
    requires c.WindowDefined()
    ensures |w| <= c.maxConsecFail + c.maxExtraFail
    ensures w <= attempts
    ensures |attempts| <= c.maxConsecFail + c.maxExtraFail ==> w == attempts
  {
    if |attempts| > c.maxConsecFail + c.maxExtraFail then attempts[..c.maxConsecFail + c.maxExtraFail]
    else attempts
  }

  /**
   * The scan of the window, newest attempt first: `allowed` is the number of
   * failures still tolerated and `jail` the jail accumulated so far.
   */
  function Scan(c: Config, xs: seq<Attempt>, allowed: int, jail: int, now: int): int
    decreases |xs|
  {
    if xs == [] || xs[0].ok then jail
    else
      var a := allowed - 1;
      var j := if a == 0 then xs[0].time - now + c.baseJailTime
               else if a < 0 then jail + c.extraJailTime
               else jail;
      Scan(c, xs[1..], a, j, now)
  }

  /** The jail time for a newest-first attempt history. */
  function JailTime(c: Config, attempts: seq<Attempt>, now: int): int
    requires c.WindowDefined()
  {
    Scan(c, Window(c, attempts), c.maxConsecFail, 0, now)
  }

  /** The number of failed attempts before the first successful one. */
  function LeadingFailures(xs: seq<Attempt>): (k: nat)
    ensures k <= |xs|
    ensures forall i :: 0 <= i < k ==> !xs[i].ok
    ensures k < |xs| ==> xs[k].ok
  {
    if xs == [] || xs[0].ok then 0 else 1 + LeadingFailures(xs[1..])
  }

  /** `CalculateJailTime`: the loop over the window, stopping at the first success. */
  method CalculateJailTime(c: Config, attempts: seq<Attempt>, now: int) returns (jail: int)
    requires c.WindowDefined()
    ensures jail == JailTime(c, attempts, now)
  {
    var endIdx := |attempts|;
    if |attempts| > c.maxConsecFail + c.maxExtraFail {
      endIdx := c.maxConsecFail + c.maxExtraFail;
    }
    var window := attempts[..endIdx];
    assert window == Window(c, attempts);
    var allowed := c.maxConsecFail;
    jail := 0;
    var i := 0;
    while i < |window|
      invariant 0 <= i <= |window|
      invariant Scan(c, window[i..], allowed, jail, now) == JailTime(c, attempts, now)
    {
      var a := window[i];
      if a.ok {
        break;
      }
      allowed := allowed - 1;
      if allowed == 0 {
        jail := a.time - now + c.baseJailTime;
      } else if allowed < 0 {
        jail := jail + c.extraJailTime;
      }
      assert window[i..][1..] == window[i + 1..];
      i := i + 1;
    }
  }

  /** The message of the lockout error; the remaining wait it prints is not rendered. */
  const JailedMessage: string := "Failed too many times!"

  /** `Jailer.IsJailed`: an Unauthorized error exactly when the jail time is positive. */
  method IsJailed(c: Config, attempts: seq<Attempt>, now: int) returns (err: Option<Fault>)
    requires c.WindowDefined()
    ensures err.Some? <==> JailTime(c, attempts, now) > 0
    ensures err.Some? ==> Has(err.value, Unauthorized) && HttpStatusCode(err) == 401
  {
    var jail := CalculateJailTime(c, attempts, now);
    if jail > 0 {
      err := Some(Wrap("service<AuthJailer.IsJailed> ", Typed(Unauthorized, JailedMessage, None)));
    } else {
      err := None;
    }
  }

  /** The closed form of the scan: what each run of leading failures costs. */
  function ScanClosed(c: Config, xs: seq<Attempt>, allowed: int, jail: int, now: int): int
  {
    var k := LeadingFailures(xs);
    if allowed >= 1 then
      if k >= allowed then xs[allowed - 1].time - now + c.baseJailTime + (k - allowed) * c.extraJailTime
      else jail
    else jail + k * c.extraJailTime
  }

  lemma {:induction false} ScanIsClosed(c: Config, xs: seq<Attempt>, allowed: int, jail: int, now: int)
    ensures Scan(c, xs, allowed, jail, now) == ScanClosed(c, xs, allowed, jail, now)
    decreases |xs|
  {
    if xs == [] || xs[0].ok {
    } else {
      var a := allowed - 1;
      var j := if a == 0 then xs[0].time - now + c.baseJailTime
               else if a < 0 then jail + c.extraJailTime
               else jail;
      ScanIsClosed(c, xs[1..], a, j, now);
      var k := LeadingFailures(xs[1..]);
      assert LeadingFailures(xs) == k + 1;
      if allowed >= 2 {
        assert k + 1 >= allowed ==> xs[1..][a - 1] == xs[allowed - 1];
      } else if allowed == 1 {
        assert (k + 1 - 1) * c.extraJailTime == k * c.extraJailTime;
      } else {
        assert jail + c.extraJailTime + k * c.extraJailTime == jail + (k + 1) * c.extraJailTime;
      }
    }
  }

  /**
   * The documented rule: nothing below maxConsecFail leading failures; at
   * the maxConsecFail-th failure the base jail counted from that attempt;
   * extraJailTime for each further failure in the window.
   */
  lemma JailTimeRule(c: Config, attempts: seq<Attempt>, now: int)
    requires c.WindowDefined() && c.maxConsecFail >= 1
    ensures var w := Window(c, attempts);
            var k := LeadingFailures(w);
            JailTime(c, attempts, now)
              == if k < c.maxConsecFail then 0
                 else w[c.maxConsecFail - 1].time - now + c.baseJailTime + (k - c.maxConsecFail) * c.extraJailTime
  {
    ScanIsClosed(c, Window(c, attempts), c.maxConsecFail, 0, now);
  }

  /** A successful newest attempt clears the jail. */
  lemma OkNewestNoJail(c: Config, attempts: seq<Attempt>, now: int)
    requires c.WindowDefined() && attempts != [] && attempts[0].ok
    ensures JailTime(c, attempts, now) == 0
  {
    var w := Window(c, attempts);
    if w != [] {
      assert w[0] == attempts[0];
    }
  }

  /** Fewer leading failures than maxConsecFail never jail. */
  lemma FewFailuresNoJail(c: Config, attempts: seq<Attempt>, now: int)
    requires c.WindowDefined()
    requires LeadingFailures(Window(c, attempts)) < c.maxConsecFail
    ensures JailTime(c, attempts, now) == 0
  {
    ScanIsClosed(c, Window(c, attempts), c.maxConsecFail, 0, now);
  }

  /**
   * Under a sane policy, when no attempt lies in the future the jail never
   * exceeds `RetentionTime(0)`, so the attempts outlive any jail they cause.
   */
  lemma JailWithinRetention(c: Config, attempts: seq<Attempt>, now: int)
    requires c.Sane()
    requires forall i :: 0 <= i < |attempts| ==> attempts[i].time <= now
    ensures JailTime(c, attempts, now) <= RetentionTime(c, 0)
  {
    var w := Window(c, attempts);
    var k := LeadingFailures(w);
    ScanIsClosed(c, w, c.maxConsecFail, 0, now);
    if c.maxConsecFail >= 1 {
      if k >= c.maxConsecFail {
        assert w[c.maxConsecFail - 1] == attempts[c.maxConsecFail - 1];
        MulMono(k - c.maxConsecFail, c.maxExtraFail, c.extraJailTime);
      }
    } else {
      MulMono(k, c.maxExtraFail, c.extraJailTime);
    }
  }

  lemma MulMono(a: int, b: int, m: int)
    requires 0 <= a <= b && m >= 0
    ensures a * m <= b * m
  {
  }
}
