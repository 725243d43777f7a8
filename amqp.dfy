/**
 * The broker client: a registry of channels, queues and consumers kept
 * over one connection, replayed after every reconnect, and the loop that
 * acknowledges deliveries. Both copies of the client (the link service's
 * and the subscription service's) are one class with a `variant`: they
 * differ in how consumers are keyed and in when readiness is signalled.
 *
 * Every call the broker can refuse takes its answer as a `bool` argument;
 * the broker calls issued are recorded, in order, in `calls`.
 */
module Amqp {
  import opened Wrappers
  import opened Oops
  import opened AmqpOpts

  datatype Variant = LinkCopy | SubscriptionCopy

  /** A channel handle; handles are numbered in the order the broker opened them. */
  type Handle = nat

  /** The broker calls the client issues. */
  datatype Call =
    | OpenChannel
    | Declare(onChannel: Handle, queue: QueueOpts)
    | Consume(onChannel: Handle, consume: ConsumeOpts)
    | Publish(onChannel: Handle, publish: PublishOpts, payload: seq<bv8>)
    | Bind(onChannel: Handle, bind: QueueBindOpts)

  /**
   * A registered consumer: which handler it runs (handlers are named by
   * number), its options, and the delivery run it started. A run stops
   * when its context is cancelled.
   */
  datatype Consumer = Consumer(fx: nat, opts: ConsumeOpts, run: nat)

  datatype BrokerState = BrokerState(
    connected: bool,
    channels: map<string, Handle>,
    queues: map<string, QueueOpts>,
    consumers: map<string, Consumer>,
    cancelled: set<nat>,
    calls: seq<Call>,
    next: nat)
  {
    /** The three registries and the cancelled runs are as in `t`. */
    predicate SameRegistry(t: BrokerState)
    {
      channels == t.channels && queues == t.queues && consumers == t.consumers && cancelled == t.cancelled
    }
  }

  /**
   * The registry invariant: every registered consumer's run is live and
   * belongs to that key alone, and every handle or run was handed out.
   */
  predicate Valid(s: BrokerState)
  {
    && (forall c :: c in s.channels ==> s.channels[c] < s.next)
    && (forall r :: r in s.cancelled ==> r < s.next)
    && (forall k :: k in s.consumers ==> s.consumers[k].run < s.next && s.consumers[k].run !in s.cancelled)
    && (forall k1, k2 :: k1 in s.consumers && k2 in s.consumers && k1 != k2 ==>
          s.consumers[k1].run != s.consumers[k2].run)
  }

  /** The link copy keys consumers by channel name, the subscription copy by queue name. */
  function ConsumerKey(v: Variant, channel: string, opts: ConsumeOpts): string
  {
    match v
    case LinkCopy => channel
    case SubscriptionCopy => opts.queue
  }

  const Uninitiated: Fault := Plain("connection is uninitiated")
  const Refusal: Fault := Plain("the broker refused the call")

  function NotRegistered(channel: string): Fault
  {
    Plain("Channel " + channel + " is not registered yet")
  }

  /** `AddChannel`: open a channel and file it under `name`, replacing any channel of that name. */
  function AddChannelStep(s: BrokerState, name: string, ok: bool): (r: (BrokerState, Option<Fault>))
    ensures r.1.Some? <==> !s.connected || !ok
    ensures !s.connected ==> r.0 == s
    ensures r.1.Some? ==> r.0.SameRegistry(s)
    ensures r.1.None? ==> r.0.channels == s.channels[name := s.next]
                          && r.0.queues == s.queues && r.0.consumers == s.consumers
    ensures s.connected ==> r.0.calls == s.calls + [OpenChannel]
    ensures r.0.connected == s.connected
    ensures Valid(s) ==> Valid(r.0)
  {
    if !s.connected then (s, Some(Wrap("utility<amqp.RegisterChannel>: ", Uninitiated)))
    else if !ok then (s.(calls := s.calls + [OpenChannel]), Some(Wrap("utility<amqp.RegisterChannel>: ", Refusal)))
    else (s.(channels := s.channels[name := s.next], calls := s.calls + [OpenChannel], next := s.next + 1), None)
  }

  /** `AddQueue`: declare the queue on a registered channel and file its options under its name. */
  function AddQueueStep(s: BrokerState, channel: string, opts: QueueOpts, ok: bool): (r: (BrokerState, Option<Fault>))
    ensures r.1.Some? <==> channel !in s.channels || !ok
    ensures channel !in s.channels ==> r.0 == s
    ensures r.1.Some? ==> r.0.SameRegistry(s)
    ensures r.1.None? ==> r.0.queues == s.queues[opts.name := opts]
                          && r.0.channels == s.channels && r.0.consumers == s.consumers
    ensures channel in s.channels ==> r.0.calls == s.calls + [Declare(s.channels[channel], opts)]
    ensures r.0.connected == s.connected
    ensures Valid(s) ==> Valid(r.0)
  {
    if channel !in s.channels then (s, Some(Wrap("utility<amqp.RegisterQueue>: ", NotRegistered(channel))))
    else
      var s1 := s.(calls := s.calls + [Declare(s.channels[channel], opts)]);
      if !ok then (s1, Some(Wrap("utility<amqp.RegisterQueue>: ", Refusal)))
      else (s1.(queues := s.queues[opts.name := opts]), None)
  }

  /**
   * `AddConsumer`: start consuming on a registered channel; the consumer
   * already filed under the same key has its run cancelled and is replaced.
   */
  function AddConsumerStep(v: Variant, s: BrokerState, channel: string, fx: nat, opts: ConsumeOpts, ok: bool)
    : (r: (BrokerState, Option<Fault>))
    ensures r.1.Some? <==> channel !in s.channels || !ok
    ensures channel !in s.channels ==> r.0 == s
    ensures r.1.Some? ==> r.0.SameRegistry(s)
    ensures r.1.None? ==>
      var key := ConsumerKey(v, channel, opts);
      && r.0.consumers == s.consumers[key := Consumer(fx, opts, s.next)]
      && r.0.cancelled == (if key in s.consumers then s.cancelled + {s.consumers[key].run} else s.cancelled)
      && r.0.channels == s.channels && r.0.queues == s.queues
    ensures channel in s.channels ==> r.0.calls == s.calls + [Consume(s.channels[channel], opts)]
    ensures r.0.connected == s.connected
    ensures Valid(s) ==> Valid(r.0)
  {
    if channel !in s.channels then (s, Some(Wrap("utility<amqp.Consume>: ", NotRegistered(channel))))
    else
      var s1 := s.(calls := s.calls + [Consume(s.channels[channel], opts)]);
      if !ok then (s1, Some(Wrap("utility<amqp.Consume>: ", Refusal)))
      else
        var key := ConsumerKey(v, channel, opts);
        var cancelled := if key in s.consumers then s.cancelled + {s.consumers[key].run} else s.cancelled;
        var r := s1.(consumers := s.consumers[key := Consumer(fx, opts, s.next)], cancelled := cancelled, next := s.next + 1);
        assert Valid(s) ==> Valid(r) by {
          if Valid(s) {
            forall k | k in r.consumers
              ensures r.consumers[k].run < r.next && r.consumers[k].run !in r.cancelled
            {
              if k != key {
                assert key in s.consumers ==> s.consumers[k].run != s.consumers[key].run;
              }
            }
          }
        }
        (r, None)
  }

  /** `Publish` on a registered channel; the broker's error is returned as it is. */
  function PublishStep(s: BrokerState, channel: string, payload: seq<bv8>, opts: PublishOpts, ok: bool)
    : (r: (BrokerState, Option<Fault>))
    ensures r.1.Some? <==> channel !in s.channels || !ok
    ensures r.0.SameRegistry(s) && r.0.connected == s.connected && r.0.next == s.next
    ensures channel !in s.channels ==> r.0.calls == s.calls
    ensures channel in s.channels ==> r.0.calls == s.calls + [Publish(s.channels[channel], opts, payload)]
  {
    if channel !in s.channels then (s, Some(Wrap("utility<amqp.Consume>: ", NotRegistered(channel))))
    else (s.(calls := s.calls + [Publish(s.channels[channel], opts, payload)]), if ok then None else Some(Refusal))
  }

  /** `QueueBind` on a registered channel; bindings are not recorded in any registry. */
  function BindStep(s: BrokerState, channel: string, opts: QueueBindOpts, ok: bool): (r: (BrokerState, Option<Fault>))
    ensures r.1.Some? <==> channel !in s.channels || !ok
    ensures r.0.SameRegistry(s) && r.0.connected == s.connected && r.0.next == s.next
    ensures channel !in s.channels ==> r.0.calls == s.calls
    ensures channel in s.channels ==> r.0.calls == s.calls + [Bind(s.channels[channel], opts)]
  {
    if channel !in s.channels then (s, Some(Wrap("utility<amqp.Consume>: ", NotRegistered(channel))))
    else (s.(calls := s.calls + [Bind(s.channels[channel], opts)]), if ok then None else Some(Refusal))
  }

  // ---------------------------------------------------------------------
  // restore: replay the registries over a new connection.

  /** The broker's answer to the i-th call of a replay; a missing answer is a refusal. */
  function Reply(replies: seq<bool>, i: nat): bool
  {
    i < |replies| && replies[i]
  }

  /** A replay in progress: the state, the calls answered, the last channel, the error. */
  datatype Replay = Replay(s: BrokerState, used: nat, temp: string, err: Option<Fault>)

  function RestoreError(f: Fault): Fault { Wrap("utility<amqp.restore>: ", f) }

  /** Re-open every channel in `order`, remembering the last one; stop at the first error. */
  function ReplayChannels(r: Replay, order: seq<string>, replies: seq<bool>): (q: Replay)
    ensures r.err.Some? ==> q == r
    ensures q.s.connected == r.s.connected
    ensures q.s.queues == r.s.queues && q.s.consumers == r.s.consumers
    ensures Valid(r.s) ==> Valid(q.s)
    decreases |order|
  {
    if order == [] || r.err.Some? then r
    else
      var (s1, e) := AddChannelStep(r.s, order[0], Reply(replies, r.used));
      var r1 := if e.Some? then Replay(s1, r.used + 1, r.temp, Some(RestoreError(e.value)))
                else Replay(s1, r.used + 1, order[0], None);
      ReplayChannels(r1, order[1..], replies)
  }

  /** Re-declare every queue in `order` on the last channel, with its current options. */
  function ReplayQueues(r: Replay, order: seq<string>, replies: seq<bool>): (q: Replay)
    ensures r.err.Some? ==> q == r
    ensures q.s.connected == r.s.connected && q.temp == r.temp
    ensures q.s.channels == r.s.channels && q.s.consumers == r.s.consumers
    ensures Valid(r.s) ==> Valid(q.s)
    decreases |order|
  {
    if order == [] || r.err.Some? then r
    else if order[0] !in r.s.queues then ReplayQueues(r, order[1..], replies)
    else
      var (s1, e) := AddQueueStep(r.s, r.temp, r.s.queues[order[0]], Reply(replies, r.used));
      var r1 := Replay(s1, r.used + 1, r.temp, if e.Some? then Some(RestoreError(e.value)) else None);
      ReplayQueues(r1, order[1..], replies)
  }

  /**
   * Re-start every consumer in `order` on the last channel. The value
   * under each key is read when the key is visited, so a consumer
   * replaced earlier in the same replay is seen in its new form.
   */
  function ReplayConsumers(v: Variant, r: Replay, order: seq<string>, replies: seq<bool>): (q: Replay)
    ensures r.err.Some? ==> q == r
    ensures q.s.connected == r.s.connected && q.temp == r.temp
    ensures q.s.channels == r.s.channels && q.s.queues == r.s.queues
    ensures Valid(r.s) ==> Valid(q.s)
    decreases |order|
  {
    if order == [] || r.err.Some? then r
    else if order[0] !in r.s.consumers then ReplayConsumers(v, r, order[1..], replies)
    else
      var c := r.s.consumers[order[0]];
      var (s1, e) := AddConsumerStep(v, r.s, r.temp, c.fx, c.opts, Reply(replies, r.used));
      var r1 := Replay(s1, r.used + 1, r.temp, if e.Some? then Some(RestoreError(e.value)) else None);
      ReplayConsumers(v, r1, order[1..], replies)
  }

  /** The orders a `range` over the three maps visits their keys in. */
  datatype Orders = Orders(channels: seq<string>, queues: seq<string>, consumers: seq<string>)

  /** `order` lists every key of `keys` exactly once. */
  predicate IsOrderOf(order: seq<string>, keys: set<string>)
  {
    && (forall i, j :: 0 <= i < j < |order| ==> order[i] != order[j])
    && (forall k :: k in order ==> k in keys)
    && (forall k :: k in keys ==> k in order)
  }

  /** The channel queues and consumers are replayed on: the last one the channel range visited. */
  function LastOf(order: seq<string>): string
  {
    if order == [] then "" else order[|order| - 1]
  }

  /**
   * `order` is a way the consumer `range` of `restore` may visit `keys`:
   * every key once and, in the link copy, possibly also the key `inserted`.
   * The link copy re-files each consumer under the replay channel, so when
   * that channel had no consumer the range adds a key while it runs, and a
   * `range` may or may not produce a key added during the iteration. The
   * subscription copy re-files each consumer under its own queue name, so
   * it adds no key.
   */
  predicate IsConsumerOrderOf(v: Variant, order: seq<string>, keys: set<string>, inserted: string)
  {
    && (forall i, j :: 0 <= i < j < |order| ==> order[i] != order[j])
    && (forall k :: k in order ==> k in keys || (v == LinkCopy && k == inserted))
    && (forall k :: k in keys ==> k in order)
  }

  /**
   * In the link copy, a consumer range that also visits the key the replay
   * added (the replay channel `r.temp`, which had no consumer) issues a
   * second Consume for the consumer just re-filed. If the broker accepts
   * it, the run started a moment before is cancelled; if it refuses, the
   * restore fails, where skipping the key would have succeeded.
   */
  lemma ConsumerRevisit(r: Replay, k: string, replies: seq<bool>)
    requires r.err.None? && r.s.next !in r.s.cancelled
    requires k in r.s.consumers && r.temp in r.s.channels && r.temp !in r.s.consumers
    requires Reply(replies, r.used)
    ensures var c := Consume(r.s.channels[r.temp], r.s.consumers[k].opts);
      var once := ReplayConsumers(LinkCopy, r, [k], replies);
      var twice := ReplayConsumers(LinkCopy, r, [k, r.temp], replies);
      && once.err.None? && once.s.calls == r.s.calls + [c] && r.s.next !in once.s.cancelled
      && twice.s.calls == r.s.calls + [c, c]
      && (twice.err.None? <==> Reply(replies, r.used + 1))
      && (twice.err.None? ==> r.s.next in twice.s.cancelled)
  {
    var c0 := r.s.consumers[k];
    var (s1, e1) := AddConsumerStep(LinkCopy, r.s, r.temp, c0.fx, c0.opts, Reply(replies, r.used));
    var r1 := Replay(s1, r.used + 1, r.temp, None);
    ConsumerStep(LinkCopy, r, k, [], replies);
    assert [k] + [] == [k];
    ConsumerStep(LinkCopy, r, k, [r.temp], replies);
    assert [k] + [r.temp] == [k, r.temp];
    assert r1.s.consumers[r.temp] == Consumer(c0.fx, c0.opts, r.s.next);
    ConsumerStep(LinkCopy, r1, r.temp, [], replies);
    assert [r.temp] + [] == [r.temp];
  }

  /** One visit of the consumer replay, the key being registered. */
  lemma ConsumerStep(v: Variant, r: Replay, k: string, rest: seq<string>, replies: seq<bool>)
    requires r.err.None? && k in r.s.consumers
    ensures var c := r.s.consumers[k];
      var (s1, e) := AddConsumerStep(v, r.s, r.temp, c.fx, c.opts, Reply(replies, r.used));
      ReplayConsumers(v, r, [k] + rest, replies)
        == ReplayConsumers(v, Replay(s1, r.used + 1, r.temp, if e.Some? then Some(RestoreError(e.value)) else None), rest, replies)
  {
    assert ([k] + rest)[1..] == rest;
  }

  /** `restore`: channels, then queues, then consumers, stopping at the first error. */
  function RestoreSpec(v: Variant, s: BrokerState, o: Orders, replies: seq<bool>): (q: Replay)
    ensures q.s.connected == s.connected
    ensures Valid(s) ==> Valid(q.s)
  {
    var r1 := ReplayChannels(Replay(s, 0, "", None), o.channels, replies);
    var r2 := ReplayQueues(r1, o.queues, replies);
    ReplayConsumers(v, r2, o.consumers, replies)
  }

  /** Every call of `cs` from position `from` on opens a channel. */
  predicate OpensFrom(cs: seq<Call>, from: nat)
  {
    from <= |cs| && forall i :: from <= i < |cs| ==> cs[i].OpenChannel?
  }

  /** Every call of `cs` from position `from` on declares a queue on channel `h`. */
  predicate DeclaresFrom(cs: seq<Call>, from: nat, h: Handle)
  {
    from <= |cs| && forall i :: from <= i < |cs| ==> cs[i].Declare? && cs[i].onChannel == h
  }

  /** Every call of `cs` from position `from` on starts a consumer on channel `h`. */
  predicate ConsumesFrom(cs: seq<Call>, from: nat, h: Handle)
  {
    from <= |cs| && forall i :: from <= i < |cs| ==> cs[i].Consume? && cs[i].onChannel == h
  }

  lemma {:induction false} ChannelPhaseOpensOnly(r: Replay, order: seq<string>, replies: seq<bool>)
    ensures var q := ReplayChannels(r, order, replies);
      && r.s.calls <= q.s.calls && OpensFrom(q.s.calls, |r.s.calls|)
      && (q.err.None? && order != [] ==> q.temp == order[|order| - 1])
      && (q.err.None? && order == [] ==> q.temp == r.temp)
    decreases |order|
  {
    if order != [] && r.err.None? {
      var (s1, e) := AddChannelStep(r.s, order[0], Reply(replies, r.used));
      var r1 := if e.Some? then Replay(s1, r.used + 1, r.temp, Some(RestoreError(e.value)))
                else Replay(s1, r.used + 1, order[0], None);
      ChannelPhaseOpensOnly(r1, order[1..], replies);
      if order[1..] != [] {
        assert order[1..][|order[1..]| - 1] == order[|order| - 1];
      }
    }
  }

  lemma {:induction false} QueuePhaseDeclaresOnly(r: Replay, order: seq<string>, replies: seq<bool>)
    requires r.temp in r.s.channels
    ensures var q := ReplayQueues(r, order, replies);
      r.s.calls <= q.s.calls && DeclaresFrom(q.s.calls, |r.s.calls|, r.s.channels[r.temp])
    decreases |order|
  {
    if order != [] && r.err.None? {
      if order[0] !in r.s.queues {
        QueuePhaseDeclaresOnly(r, order[1..], replies);
      } else {
        var (s1, e) := AddQueueStep(r.s, r.temp, r.s.queues[order[0]], Reply(replies, r.used));
        var r1 := Replay(s1, r.used + 1, r.temp, if e.Some? then Some(RestoreError(e.value)) else None);
        QueuePhaseDeclaresOnly(r1, order[1..], replies);
      }
    }
  }

  lemma {:induction false} ConsumerPhaseConsumesOnly(v: Variant, r: Replay, order: seq<string>, replies: seq<bool>)
    requires r.temp in r.s.channels
    ensures var q := ReplayConsumers(v, r, order, replies);
      r.s.calls <= q.s.calls && ConsumesFrom(q.s.calls, |r.s.calls|, r.s.channels[r.temp])
    decreases |order|
  {
    if order != [] && r.err.None? {
      if order[0] !in r.s.consumers {
        ConsumerPhaseConsumesOnly(v, r, order[1..], replies);
      } else {
        var c := r.s.consumers[order[0]];
        var (s1, e) := AddConsumerStep(v, r.s, r.temp, c.fx, c.opts, Reply(replies, r.used));
        var r1 := Replay(s1, r.used + 1, r.temp, if e.Some? then Some(RestoreError(e.value)) else None);
        ConsumerPhaseConsumesOnly(v, r1, order[1..], replies);
      }
    }
  }

  /** Without a re-opened channel the first queue to replay fails, and nothing is issued. */
  lemma {:induction false} QueuePhaseFailsWithoutChannel(r: Replay, order: seq<string>, replies: seq<bool>)
    requires r.temp !in r.s.channels
    ensures var q := ReplayQueues(r, order, replies);
      q.s == r.s && (r.err.None? && (exists k :: k in order && k in r.s.queues) ==> q.err.Some?)
    decreases |order|
  {
    if order != [] && r.err.None? && order[0] !in r.s.queues {
      QueuePhaseFailsWithoutChannel(r, order[1..], replies);
      if exists k :: k in order && k in r.s.queues {
        var k :| k in order && k in r.s.queues;
        assert k in order[1..];
      }
    }
  }

  /** Without a re-opened channel the consumer phase issues nothing. */
  lemma {:induction false} ConsumerPhaseIdleWithoutChannel(v: Variant, r: Replay, order: seq<string>, replies: seq<bool>)
    requires r.temp !in r.s.channels
    ensures ReplayConsumers(v, r, order, replies).s == r.s
    decreases |order|
  {
    if order != [] && r.err.None? && order[0] !in r.s.consumers {
      ConsumerPhaseIdleWithoutChannel(v, r, order[1..], replies);
    }
  }

  /** Calls that open, then declare, then consume hold no binding and no publication. */
  lemma PhasesAreRestoreCalls(c0: seq<Call>, c1: seq<Call>, c2: seq<Call>, c3: seq<Call>, h: Handle)
    requires c0 <= c1 <= c2 <= c3
    requires OpensFrom(c1, |c0|) && DeclaresFrom(c2, |c1|, h) && ConsumesFrom(c3, |c2|, h)
    ensures forall i :: |c0| <= i < |c3| ==> !c3[i].Bind? && !c3[i].Publish?
  {
    forall i | |c0| <= i < |c3|
      ensures !c3[i].Bind? && !c3[i].Publish?
    {
      if i < |c1| {
        assert c3[i] == c1[i];
      } else if i < |c2| {
        assert c3[i] == c2[i];
      }
    }
  }

  /**
   * What a restore issues: channel openings, then queue declarations,
   * then consumes; every declaration and consume goes to the channel
   * re-opened last, and no binding or publication is replayed.
   */
  lemma RestorePhases(v: Variant, s: BrokerState, o: Orders, replies: seq<bool>)
    ensures var r1 := ReplayChannels(Replay(s, 0, "", None), o.channels, replies);
      var r2 := ReplayQueues(r1, o.queues, replies);
      var q := RestoreSpec(v, s, o, replies);
      && s.calls <= r1.s.calls <= r2.s.calls <= q.s.calls
      && OpensFrom(r1.s.calls, |s.calls|)
      && (r1.temp in r1.s.channels ==>
            DeclaresFrom(r2.s.calls, |r1.s.calls|, r1.s.channels[r1.temp])
            && ConsumesFrom(q.s.calls, |r2.s.calls|, r1.s.channels[r1.temp]))
      && (r1.temp !in r1.s.channels ==> q.s.calls == r1.s.calls)
      && (r1.err.None? && o.channels != [] ==> r1.temp == o.channels[|o.channels| - 1])
      && (forall i :: |s.calls| <= i < |q.s.calls| ==> !q.s.calls[i].Bind? && !q.s.calls[i].Publish?)
  {
    var r0 := Replay(s, 0, "", None);
    var r1 := ReplayChannels(r0, o.channels, replies);
    ChannelPhaseOpensOnly(r0, o.channels, replies);
    var r2 := ReplayQueues(r1, o.queues, replies);
    if r1.temp in r1.s.channels {
      QueuePhaseDeclaresOnly(r1, o.queues, replies);
      ConsumerPhaseConsumesOnly(v, r2, o.consumers, replies);
      var q := RestoreSpec(v, s, o, replies);
      PhasesAreRestoreCalls(s.calls, r1.s.calls, r2.s.calls, q.s.calls, r1.s.channels[r1.temp]);
    } else {
      QueuePhaseFailsWithoutChannel(r1, o.queues, replies);
      ConsumerPhaseIdleWithoutChannel(v, r2, o.consumers, replies);
    }
  }

  // ---------------------------------------------------------------------
  // Start: dial until connected, then restore after every reconnect.

  const Second: int := 1_000_000_000

  /** One dial attempt: refused, or accepted with the broker's answers for the restore. */
  datatype Dial = Refused | Accepted(replies: seq<bool>)

  /** What `Start` does, in order. */
  datatype Event = Slept(d: int) | Dialed(ok: bool) | Ready | Stored | Restored

  function Outcomes(dials: seq<Dial>): (h: seq<bool>)
    ensures |h| == |dials|
    ensures forall i :: 0 <= i < |dials| ==> h[i] == dials[i].Accepted?
  {
    seq(|dials|, i requires 0 <= i < |dials| => dials[i].Accepted?)
  }

  predicate AnySuccess(h: seq<bool>)
  {
    exists i :: 0 <= i < |h| && h[i]
  }

  /** The failed dials since the last successful one. */
  function TrailingFailures(h: seq<bool>): (n: nat)
    ensures n <= |h|
  {
    if h == [] || h[|h| - 1] then 0 else 1 + TrailingFailures(h[..|h| - 1])
  }

  function Pow2(n: nat): (p: nat)
    ensures p >= 1
  {
    if n == 0 then 1 else 2 * Pow2(n - 1)
  }

  /** The pause before the next dial: 1s doubled per failure since the last success, at most 16s. */
  function Backoff(h: seq<bool>): (d: int)
    ensures Second <= d <= 16 * Second
  {
    var t := TrailingFailures(h);
    Second * Pow2(if t < 4 then t else 4)
  }

  /** A failed dial doubles a pause below 16s; a successful one resets it to 1s. */
  lemma BackoffStep(h: seq<bool>, ok: bool)
    ensures Backoff(h + [ok]) == if ok then Second else if Backoff(h) < 16 * Second then 2 * Backoff(h) else Backoff(h)
  {
    assert (h + [ok])[..|h|] == h;
    var t := TrailingFailures(h);
    assert Pow2(1) == 2 && Pow2(2) == 4 && Pow2(3) == 8 && Pow2(4) == 16;
  }

  /** The pauses after a success: 1s, 2s, 4s, 8s, 16s, 16s, … */
  lemma BackoffSequence(h: seq<bool>, k: nat)
    ensures Backoff(h + [true] + seq(k, _ => false)) == Second * (if k < 4 then Pow2(k) else 16)
  {
    var g := h + [true] + seq(k, _ => false);
    TrailingAfterSuccess(h, k);
    assert Pow2(4) == 16;
  }

  lemma {:induction false} TrailingAfterSuccess(h: seq<bool>, k: nat)
    ensures TrailingFailures(h + [true] + seq(k, _ => false)) == k
    decreases k
  {
    var g := h + [true] + seq(k, _ => false);
    if k > 0 {
      assert g[..|g| - 1] == h + [true] + seq(k - 1, _ => false);
      TrailingAfterSuccess(h, k - 1);
    } else {
      assert g == h + [true];
    }
  }

  /** What one dial attempt adds to the trace, given the outcomes of the earlier ones. */
  function AttemptEvents(v: Variant, h: seq<bool>, d: Dial): seq<Event>
  {
    var first := !AnySuccess(h);
    var ready := if first then [Ready] else [];
    (if first then [] else [Slept(Backoff(h))])
    + [Dialed(d.Accepted?)]
    + (if d.Refused? then []
       else if v == LinkCopy then ready + [Stored, Restored]
       else [Stored] + ready + [Restored])
  }

  function Trace(v: Variant, dials: seq<Dial>): seq<Event>
  {
    if dials == [] then []
    else
      var init := dials[..|dials| - 1];
      Trace(v, init) + AttemptEvents(v, Outcomes(init), dials[|dials| - 1])
  }

  /** Outcomes grow one dial at a time. */
  lemma OutcomesSnoc(dials: seq<Dial>, d: Dial)
    ensures Outcomes(dials + [d]) == Outcomes(dials) + [d.Accepted?]
  {
  }

  /** A run of outcomes holds a success once its last one is, or an earlier one was. */
  lemma AnySuccessSnoc(h: seq<bool>, ok: bool)
    ensures AnySuccess(h + [ok]) <==> AnySuccess(h) || ok
  {
    var g := h + [ok];
    if AnySuccess(g) && !ok {
      var j :| 0 <= j < |g| && g[j];
      assert j < |h| && h[j];
    }
    if AnySuccess(h) {
      var j :| 0 <= j < |h| && h[j];
      assert g[j];
    }
    if ok {
      assert g[|h|];
    }
  }

  /** The trace grows by the events of one attempt at a time. */
  lemma TraceSnoc(v: Variant, dials: seq<Dial>, d: Dial)
    ensures Trace(v, dials + [d]) == Trace(v, dials) + AttemptEvents(v, Outcomes(dials), d)
  {
    assert (dials + [d])[..|dials|] == dials;
  }

  /** One more dial extends the trace, the outcomes, the success flag and the backoff by that dial's step. */
  lemma StartAdvances(v: Variant, dials: seq<Dial>, i: nat)
    requires i < |dials|
    ensures Trace(v, dials[..i + 1]) == Trace(v, dials[..i]) + AttemptEvents(v, Outcomes(dials[..i]), dials[i])
    ensures AnySuccess(Outcomes(dials[..i + 1])) <==> AnySuccess(Outcomes(dials[..i])) || dials[i].Accepted?
    ensures var h := Outcomes(dials[..i]);
      Backoff(Outcomes(dials[..i + 1]))
        == if dials[i].Accepted? then Second else if Backoff(h) < 16 * Second then 2 * Backoff(h) else Backoff(h)
  {
    assert dials[..i + 1] == dials[..i] + [dials[i]];
    TraceSnoc(v, dials[..i], dials[i]);
    OutcomesSnoc(dials[..i], dials[i]);
    AnySuccessSnoc(Outcomes(dials[..i]), dials[i].Accepted?);
    BackoffStep(Outcomes(dials[..i]), dials[i].Accepted?);
  }

  /** No pause and no readiness signal happen before the first successful dial. */
  lemma {:induction false} NoSleepBeforeFirstSuccess(v: Variant, dials: seq<Dial>)
    requires !AnySuccess(Outcomes(dials))
    ensures forall e :: e in Trace(v, dials) ==> !e.Slept? && e != Ready
    decreases |dials|
  {
    if dials != [] {
      var init := dials[..|dials| - 1];
      var d := dials[|dials| - 1];
      assert dials == init + [d];
      OutcomesSnoc(init, d);
      AnySuccessSnoc(Outcomes(init), d.Accepted?);
      NoSleepBeforeFirstSuccess(v, init);
    }
  }

  /** One attempt signals readiness exactly when it is the first successful one. */
  lemma AttemptReady(v: Variant, h: seq<bool>, d: Dial)
    ensures multiset(AttemptEvents(v, h, d))[Ready] == if !AnySuccess(h) && d.Accepted? then 1 else 0
  {
  }

  /** Readiness is signalled exactly once, at the first successful dial, and never without one. */
  lemma {:induction false} ReadyExactlyOnce(v: Variant, dials: seq<Dial>)
    ensures multiset(Trace(v, dials))[Ready] == if AnySuccess(Outcomes(dials)) then 1 else 0
    decreases |dials|
  {
    if dials != [] {
      var init := dials[..|dials| - 1];
      var d := dials[|dials| - 1];
      assert dials == init + [d];
      ReadyExactlyOnce(v, init);
      TraceSnoc(v, init, d);
      OutcomesSnoc(init, d);
      AnySuccessSnoc(Outcomes(init), d.Accepted?);
      AttemptReady(v, Outcomes(init), d);
    }
  }

  /** The link copy signals readiness before storing the connection, the subscription copy after. */
  lemma FirstConnectionOrder(h: seq<bool>, replies: seq<bool>)
    requires !AnySuccess(h)
    ensures AttemptEvents(LinkCopy, h, Accepted(replies)) == [Dialed(true), Ready, Stored, Restored]
    ensures AttemptEvents(SubscriptionCopy, h, Accepted(replies)) == [Dialed(true), Stored, Ready, Restored]
  {
  }

  /** After the first success every attempt is preceded by the pause `Backoff` gives. */
  lemma LaterAttemptsSleep(v: Variant, h: seq<bool>, d: Dial)
    requires AnySuccess(h)
    ensures AttemptEvents(v, h, d)[0] == Slept(Backoff(h))
    ensures Ready !in AttemptEvents(v, h, d)
  {
  }

  /**
   * `o` lists the keys of the channel and queue registries of `s` exactly
   * once, and the consumer keys as the consumer range may visit them.
   */
  predicate OrdersFit(v: Variant, s: BrokerState, o: Orders)
  {
    && IsOrderOf(o.channels, s.channels.Keys)
    && IsOrderOf(o.queues, s.queues.Keys)
    && IsConsumerOrderOf(v, o.consumers, s.consumers.Keys, LastOf(o.channels))
  }

  /**
   * One dial's effect on the client: a refused dial changes nothing; an
   * accepted one stores the connection and runs `restore` with the key
   * orders `o`, whose error `Start` drops.
   */
  function AfterDial(v: Variant, s: BrokerState, d: Dial, o: Orders): BrokerState
  {
    if d.Refused? then s else RestoreSpec(v, s.(connected := true), o, d.replies).s
  }

  /** The client after a run of dials, `orders[i]` being the key orders the i-th restore visited. */
  function AfterDials(v: Variant, s: BrokerState, dials: seq<Dial>, orders: seq<Orders>): BrokerState
    requires |orders| == |dials|
  {
    if dials == [] then s
    else
      var n := |dials| - 1;
      AfterDial(v, AfterDials(v, s, dials[..n], orders[..n]), dials[n], orders[n])
  }

  /** Every restore of the run visited the keys of the registries it found, each once. */
  predicate RunOrdersFit(v: Variant, s: BrokerState, dials: seq<Dial>, orders: seq<Orders>)
    requires |orders| == |dials|
  {
    dials == [] ||
    var n := |dials| - 1;
    && RunOrdersFit(v, s, dials[..n], orders[..n])
    && (dials[n].Accepted? ==> OrdersFit(v, AfterDials(v, s, dials[..n], orders[..n]), orders[n]))
  }

  /** A run in which every dial is refused leaves the client as it was. */
  lemma {:induction false} RefusedRunChangesNothing(v: Variant, s: BrokerState, dials: seq<Dial>, orders: seq<Orders>)
    requires |orders| == |dials|
    requires !AnySuccess(Outcomes(dials))
    ensures AfterDials(v, s, dials, orders) == s
    decreases |dials|
  {
    if dials != [] {
      var n := |dials| - 1;
      assert dials == dials[..n] + [dials[n]];
      OutcomesSnoc(dials[..n], dials[n]);
      AnySuccessSnoc(Outcomes(dials[..n]), dials[n].Accepted?);
      RefusedRunChangesNothing(v, s, dials[..n], orders[..n]);
    }
  }

  /**
   * Whatever the dials and the broker's answers, the run keeps the
   * registry invariant: handles and runs are below the counter, and no
   * live consumer shares a run with another or is cancelled.
   */
  lemma {:induction false} RunKeepsValid(v: Variant, s: BrokerState, dials: seq<Dial>, orders: seq<Orders>)
    requires |orders| == |dials|
    requires Valid(s)
    ensures Valid(AfterDials(v, s, dials, orders))
    decreases |dials|
  {
    if dials != [] {
      var n := |dials| - 1;
      var before := AfterDials(v, s, dials[..n], orders[..n]);
      RunKeepsValid(v, s, dials[..n], orders[..n]);
      assert Valid(before.(connected := true));
    }
  }

  /** The client after a run ending in an accepted dial is what that dial's restore left. */
  lemma LastRestoreDecides(v: Variant, s: BrokerState, dials: seq<Dial>, orders: seq<Orders>, d: Dial, o: Orders)
    requires |orders| == |dials|
    requires d.Accepted?
    ensures AfterDials(v, s, dials + [d], orders + [o])
      == RestoreSpec(v, AfterDials(v, s, dials, orders).(connected := true), o, d.replies).s
    ensures AfterDials(v, s, dials + [d], orders + [o]).connected
  {
    assert (dials + [d])[..|dials|] == dials;
    assert (orders + [o])[..|orders|] == orders;
  }

  /** The run grows by one dial at a time. */
  lemma RunSnoc(v: Variant, s: BrokerState, dials: seq<Dial>, orders: seq<Orders>, i: nat, o: Orders)
    requires i < |dials| && |orders| == i
    ensures AfterDials(v, s, dials[..i + 1], orders + [o]) == AfterDial(v, AfterDials(v, s, dials[..i], orders), dials[i], o)
    ensures RunOrdersFit(v, s, dials[..i + 1], orders + [o])
      <==> RunOrdersFit(v, s, dials[..i], orders) && (dials[i].Accepted? ==> OrdersFit(v, AfterDials(v, s, dials[..i], orders), o))
  {
    assert dials[..i + 1][..i] == dials[..i];
    assert (orders + [o])[..i] == orders;
  }

  // ---------------------------------------------------------------------
  // Deliveries.

  /** A delivery; the subscription copy hands its handler only the body. */
  datatype Delivery = Delivery(tag: nat, body: seq<bv8>)

  datatype Verdict = Ack | Nack(requeue: bool)

  /** The verdict on one delivery: Ack when the handler succeeded, otherwise Nack. */
  function VerdictFor(result: Option<Fault>, requeue: bool): (v: Verdict)
    ensures v == Ack <==> result.None?
    ensures result.Some? ==> v == Nack(requeue)
  {
    if result.Some? then Nack(requeue) else Ack
  }

  /** The verdicts on a run of deliveries, one per delivery, in order. */
  function Verdicts(results: seq<Option<Fault>>, requeue: bool): (vs: seq<Verdict>)
    ensures |vs| == |results|
    ensures forall i :: 0 <= i < |results| ==> vs[i] == VerdictFor(results[i], requeue)
  {
    seq(|results|, i requires 0 <= i < |results| => VerdictFor(results[i], requeue))
  }

  /** A handler failure does not stop the loop: the verdicts on later deliveries are unaffected. */
  lemma VerdictsCompose(a: seq<Option<Fault>>, b: seq<Option<Fault>>, requeue: bool)
    ensures Verdicts(a + b, requeue) == Verdicts(a, requeue) + Verdicts(b, requeue)
  {
  }

  /** Lists the keys of `keys` in some order, the way a `range` that adds no key visits them. */
  method EnumerateKeys(keys: set<string>) returns (order: seq<string>)
    ensures IsOrderOf(order, keys)
  {
    order := [];
    var rest := keys;
    while rest != {}
      invariant rest <= keys
      invariant forall k :: k in order <==> k in keys && k !in rest
      invariant forall i, j :: 0 <= i < j < |order| ==> order[i] != order[j]
      decreases |rest|
    {
      var k :| k in rest;
      order := order + [k];
      rest := rest - {k};
    }
  }

  /**
   * The order the consumer `range` of `restore` visits `keys` in. In the
   * link copy the replay may add the key `inserted`, which the range then
   * may or may not visit, at a position it chooses.
   */
  method ConsumerRange(v: Variant, keys: set<string>, inserted: string) returns (order: seq<string>)
    ensures IsConsumerOrderOf(v, order, keys, inserted)
  {
    order := EnumerateKeys(keys);
    if v == LinkCopy && inserted !in keys {
      if * {
        var p :| 0 <= p <= |order|;
        order := order[..p] + [inserted] + order[p..];
      }
    }
  }

  /** The broker client. */
  class Broker {
    const variant: Variant
    var connected: bool
    var channels: map<string, Handle>
    var queues: map<string, QueueOpts>
    var consumers: map<string, Consumer>
    var cancelled: set<nat>
    var calls: seq<Call>
    var next: nat

    function State(): BrokerState
      reads this
    {
      BrokerState(connected, channels, queues, consumers, cancelled, calls, next)
    }


    /** `NewAmqp`: no connection and empty registries. */
    constructor (variant: Variant)
      ensures this.variant == variant
      ensures State() == BrokerState(false, map[], map[], map[], {}, [], 0)
      ensures Valid(State())
    {
      this.variant := variant;
      connected, channels, queues, consumers := false, map[], map[], map[];
      cancelled, calls, next := {}, [], 0;
    }

    method AddChannel(name: string, ok: bool) returns (err: Option<Fault>)
      modifies this
      ensures (State(), err) == AddChannelStep(old(State()), name, ok)
    {
      if !connected {
        return Some(Wrap("utility<amqp.RegisterChannel>: ", Uninitiated));
      }
      calls := calls + [OpenChannel];
      if !ok {
        return Some(Wrap("utility<amqp.RegisterChannel>: ", Refusal));
      }
      channels := channels[name := next];
      next := next + 1;
      err := None;
    }

    method AddQueue(channel: string, opts: QueueOpts, ok: bool) returns (err: Option<Fault>)
      modifies this
      ensures (State(), err) == AddQueueStep(old(State()), channel, opts, ok)
    {
      if channel !in channels {
        return Some(Wrap("utility<amqp.RegisterQueue>: ", NotRegistered(channel)));
      }
      calls := calls + [Declare(channels[channel], opts)];
      if !ok {
        return Some(Wrap("utility<amqp.RegisterQueue>: ", Refusal));
      }
      queues := queues[opts.name := opts];
      err := None;
    }

    method AddConsumer(channel: string, fx: nat, opts: ConsumeOpts, ok: bool) returns (err: Option<Fault>)
      modifies this
      ensures (State(), err) == AddConsumerStep(variant, old(State()), channel, fx, opts, ok)
    {
      if channel !in channels {
        return Some(Wrap("utility<amqp.Consume>: ", NotRegistered(channel)));
      }
      calls := calls + [Consume(channels[channel], opts)];
      if !ok {
        return Some(Wrap("utility<amqp.Consume>: ", Refusal));
      }
      var key := ConsumerKey(variant, channel, opts);
      if key in consumers {
        cancelled := cancelled + {consumers[key].run};
      }
      consumers := consumers[key := Consumer(fx, opts, next)];
      next := next + 1;
      err := None;
    }

    method Publish(channel: string, payload: seq<bv8>, opts: PublishOpts, ok: bool) returns (err: Option<Fault>)
      modifies this
      ensures (State(), err) == PublishStep(old(State()), channel, payload, opts, ok)
    {
      if channel !in channels {
        return Some(Wrap("utility<amqp.Consume>: ", NotRegistered(channel)));
      }
      calls := calls + [Call.Publish(channels[channel], opts, payload)];
      err := if ok then None else Some(Refusal);
    }

    method QueueBind(channel: string, opts: QueueBindOpts, ok: bool) returns (err: Option<Fault>)
      modifies this
      ensures (State(), err) == BindStep(old(State()), channel, opts, ok)
    {
      if channel !in channels {
        return Some(Wrap("utility<amqp.Consume>: ", NotRegistered(channel)));
      }
      calls := calls + [Bind(channels[channel], opts)];
      err := if ok then None else Some(Refusal);
    }

    /** The channel loop of `restore`. */
    method RestoreChannels(order: seq<string>, replies: seq<bool>) returns (used: nat, temp: string, err: Option<Fault>)
      modifies this
      ensures Replay(State(), used, temp, err) == ReplayChannels(Replay(old(State()), 0, "", None), order, replies)
    {
      ghost var goal := ReplayChannels(Replay(State(), 0, "", None), order, replies);
      used, temp, err := 0, "", None;
      var i := 0;
      while i < |order|
        invariant 0 <= i <= |order|
        invariant ReplayChannels(Replay(State(), used, temp, None), order[i..], replies) == goal
      {
        assert order[i..][0] == order[i] && order[i..][1..] == order[i + 1..];
        var e := AddChannel(order[i], Reply(replies, used));
        used := used + 1;
        if e.Some? {
          err := Some(RestoreError(e.value));
          return;
        }
        temp := order[i];
        i := i + 1;
      }
    }

    /** The queue loop of `restore`: each queue is declared with its current options on `temp`. */
    method RestoreQueues(order: seq<string>, replies: seq<bool>, used0: nat, temp: string) returns (used: nat, err: Option<Fault>)
      modifies this
      ensures Replay(State(), used, temp, err) == ReplayQueues(Replay(old(State()), used0, temp, None), order, replies)
    {
      ghost var goal := ReplayQueues(Replay(State(), used0, temp, None), order, replies);
      used, err := used0, None;
      var i := 0;
      while i < |order|
        invariant 0 <= i <= |order|
        invariant ReplayQueues(Replay(State(), used, temp, None), order[i..], replies) == goal
      {
        assert order[i..][0] == order[i] && order[i..][1..] == order[i + 1..];
        if order[i] in queues {
          var e := AddQueue(temp, queues[order[i]], Reply(replies, used));
          used := used + 1;
          if e.Some? {
            err := Some(RestoreError(e.value));
            return;
          }
        }
        i := i + 1;
      }
    }

    /** The consumer loop of `restore`: each key's current consumer is started again on `temp`. */
    method RestoreConsumers(order: seq<string>, replies: seq<bool>, used0: nat, temp: string) returns (used: nat, err: Option<Fault>)
      modifies this
      ensures Replay(State(), used, temp, err) == ReplayConsumers(variant, Replay(old(State()), used0, temp, None), order, replies)
    {
      ghost var goal := ReplayConsumers(variant, Replay(State(), used0, temp, None), order, replies);
      used, err := used0, None;
      var i := 0;
      while i < |order|
        invariant 0 <= i <= |order|
        invariant ReplayConsumers(variant, Replay(State(), used, temp, None), order[i..], replies) == goal
      {
        assert order[i..][0] == order[i] && order[i..][1..] == order[i + 1..];
        if order[i] in consumers {
          var c := consumers[order[i]];
          var e := AddConsumer(temp, c.fx, c.opts, Reply(replies, used));
          used := used + 1;
          if e.Some? {
            err := Some(RestoreError(e.value));
            return;
          }
        }
        i := i + 1;
      }
    }

    /** `restore`, with the key orders of the three `range` loops given. */
    method Restore(o: Orders, replies: seq<bool>) returns (err: Option<Fault>)
      modifies this
      ensures var q := RestoreSpec(variant, old(State()), o, replies);
        State() == q.s && err == q.err
    {
      var used, temp;
      used, temp, err := RestoreChannels(o.channels, replies);
      if err.Some? {
        return;
      }
      used, err := RestoreQueues(o.queues, replies, used, temp);
      if err.Some? {
        return;
      }
      used, err := RestoreConsumers(o.consumers, replies, used, temp);
    }

    /**
     * Reconnect after a successful dial: store the connection, then restore
     * every registry, visiting the keys in the orders returned.
     */
    method Reconnect(replies: seq<bool>) returns (o: Orders, err: Option<Fault>)
      modifies this
      ensures OrdersFit(variant, old(State()), o)
      ensures var q := RestoreSpec(variant, old(State()).(connected := true), o, replies);
        State() == q.s && err == q.err
      ensures connected
    {
      connected := true;
      var chanOrder := EnumerateKeys(channels.Keys);
      var queueOrder := EnumerateKeys(queues.Keys);
      var consumerOrder := ConsumerRange(variant, consumers.Keys, LastOf(chanOrder));
      o := Orders(chanOrder, queueOrder, consumerOrder);
      err := Restore(o, replies);
    }

    /**
     * One pass of `Start`'s loop after the history `h` of earlier dials: the
     * pause, the dial and, once accepted, the connection stored and the
     * registries restored (`restore`'s error is dropped, as `Start` drops
     * it). A refused dial changes no state and doubles the backoff up to
     * its cap; an accepted one resets it.
     */
    method Attempt(ghost h: seq<bool>, d: Dial, isFirstConnection: bool, backoff: nat)
      returns (step: seq<Event>, o: Orders, isFirstAfter: bool, backoffAfter: nat)
      requires isFirstConnection == !AnySuccess(h) && backoff == Backoff(h)
      modifies this
      ensures step == AttemptEvents(variant, h, d)
      ensures isFirstAfter == (isFirstConnection && d.Refused?)
      ensures backoffAfter == if d.Accepted? then Second else if backoff < 16 * Second then 2 * backoff else backoff
      ensures State() == AfterDial(variant, old(State()), d, o)
      ensures d.Accepted? ==> OrdersFit(variant, old(State()), o)
      ensures connected == (old(connected) || d.Accepted?)
    {
      var pause := if isFirstConnection then [] else [Slept(backoff)];
      var ready := if isFirstConnection then [Ready] else [];
      o := Orders([], [], []);
      isFirstAfter, backoffAfter := isFirstConnection, backoff;
      if d.Refused? {
        step := pause + [Dialed(false)];
        if backoff < 16 * Second {
          backoffAfter := backoff * 2;
        }
      } else {
        step := pause + [Dialed(true)] + (if variant == LinkCopy then ready + [Stored] else [Stored] + ready) + [Restored];
        var restoreErr;
        o, restoreErr := Reconnect(d.replies);
        isFirstAfter := false;
        backoffAfter := Second;
      }
    }

    /**
     * `Start` over a finite run of dial attempts: pause (after the first
     * success) by the current backoff, dial, and on success signal
     * readiness once, store the connection and restore the registries.
     */
    method Start(dials: seq<Dial>) returns (trace: seq<Event>, orders: seq<Orders>)
      modifies this
      ensures trace == Trace(variant, dials)
      ensures connected == (old(connected) || AnySuccess(Outcomes(dials)))
      ensures |orders| == |dials|
      ensures State() == AfterDials(variant, old(State()), dials, orders)
      ensures RunOrdersFit(variant, old(State()), dials, orders)
    {
      var isFirstConnection := true;
      var backoff := Second;
      trace, orders := [], [];
      var i := 0;
      while i < |dials|
        invariant 0 <= i <= |dials|
        invariant isFirstConnection == !AnySuccess(Outcomes(dials[..i]))
        invariant backoff == Backoff(Outcomes(dials[..i]))
        invariant trace == Trace(variant, dials[..i])
        invariant connected == (old(connected) || !isFirstConnection)
        invariant |orders| == i
        invariant State() == AfterDials(variant, old(State()), dials[..i], orders)
        invariant RunOrdersFit(variant, old(State()), dials[..i], orders)
      {
        var step, o;
        step, o, isFirstConnection, backoff := Attempt(Outcomes(dials[..i]), dials[i], isFirstConnection, backoff);
        StartAdvances(variant, dials, i);
        RunSnoc(variant, old(State()), dials, orders, i, o);
        trace := trace + step;
        orders := orders + [o];
        i := i + 1;
      }
      assert dials[..i] == dials;
    }

    /**
     * One consumer's delivery loop: run the handler on each delivery and
     * Ack or Nack it, carrying on after failures. The link copy's handler
     * sees the whole delivery, the subscription copy's only its body.
     */
    method DeliveryLoop(deliveries: seq<Delivery>, fx: Delivery -> Option<Fault>, requeueNack: bool)
      returns (verdicts: seq<Verdict>)
      ensures verdicts == Verdicts(seq(|deliveries|, i requires 0 <= i < |deliveries| => fx(deliveries[i])), requeueNack)
    {
      verdicts := [];
      var i := 0;
      while i < |deliveries|
        invariant 0 <= i <= |deliveries|
        invariant verdicts == Verdicts(seq(i, j requires 0 <= j < i => fx(deliveries[j])), requeueNack)
      {
        var err := fx(deliveries[i]);
        if err.Some? {
          verdicts := verdicts + [Nack(requeueNack)];
        } else {
          verdicts := verdicts + [Ack];
        }
        i := i + 1;
      }
    }
  }

  /** The subscription copy's handler sees only the body of each delivery. */
  function OnBody(fx: seq<bv8> -> Option<Fault>): Delivery -> Option<Fault>
  {
    (d: Delivery) => fx(d.body)
  }
}
