# kochira in Dafny

kochira is a URL shortener built from three Go services: account, link and
subscription. They exchange events over a RabbitMQ broker and use a
transactional outbox: a service writes an event row in the same database
transaction as the entity it describes, and a publisher later drains the
pending rows onto the broker and marks them done. This project models the
sequential core of those services, and proves what each step promises.

- **Broker client** (`Amqp`, `AmqpOpts`): the registry of channels, queues
  and consumers, replace-by-name, refusal without a connection or an unknown
  channel, the replay order after reconnecting, the reconnect backoff
  (1 s doubling to 16 s), and the ack/nack decision of the delivery loop.
- **Outbox tables and publishers** (`Outbox`, `AccountStore`, `LinkStore`,
  `SubscriptionStore`, `AccountService`, `AuthService`): atomic "entity plus
  outbox row" creation, bounded fetches of pending rows, resolve steps that
  flip flags and never delete, the expired-subscription watcher, and
  publishers that resolve only what was published.
- **Envelopes** (`Envelopes`, `Json`): the `{meta, data}` records built from
  outbox rows, with JSON treated as an injective text encoding.
- **Link domain and services** (`LinkDomain`, `LinkService`, `LinkEvents`,
  `Pagination`): link validation and shortening, ownership checks, the quota
  gate of `Initialize`, the redirect rules, version-guarded event dispatch,
  and paging arithmetic.
- **Subscriptions** (`SubscriptionDomain`, `SubscriptionService`): a
  subscription bootstrap that skips existing owners, so that a redelivered
  message creates nothing, and perk inference from the expiry time.
- **Account lockout** (`Lockout`, `AttemptCodec`, `AuthCache`, `Strconv`): jail
  and retention time, and the round trip of the login-attempt hash codec.
- **Errors** (`Oops`): the default messages of the error types and how the
  HTTP adapter maps an error chain to a status.

Time is an integer number of nanoseconds, as Go's `time.Duration`. The
clock, random draws, the database clock, the order in which a query meets
rows, and every collaborator's success or failure are parameters. Go's
`uint` wrap-around is written out where it matters.

Several files of the repository have two or three copies that differ in
detail: the error context, whether outbox rows are resolved by outbox id or
by user id, or the direction of a comparison. Each difference is a
parameter (`Copy`, `AuthCopy`, `Variant`) or a separate member, so the model
shows where the copies disagree.

## Model

| member | source | states |
|---|---|---|
| Oops.DefaultMessage | lib/oops/internal.go:12-14 | every oops type has a non-empty fallback text; the seven texts are the ones of lib/oops/*.go |
| Oops.Message | lib/oops/internal.go:11-16 | `Error()` is never empty: a non-empty `Msg` comes back verbatim, an empty one gives the type's default; the `Err` field is not consulted |
| Oops.HttpStatusCode | lib/oops/adapter/http.go:10-24 | the status is one of 400, 401, 403, 404, 500; it is 500 exactly when no client-facing kind is on the wrap tree (nil included); BadRequest or BadValues anywhere gives 400 |
| Oops.StatusOfOopsValue | lib/oops/adapter/http.go:11-23 | a lone oops value is reported with its own kind's status: 400/400/401/403/404, and 500 for Internal and Uncategorized |
| Oops.WrapKeepsStatus | lib/oops/adapter/http.go:12-20 | wrapping with `%w` never changes the status |
| Oops.ErrFieldHidden | lib/oops/badRequest.go:11-16 | the `Err` field of an oops value affects neither its status nor its text (no `Unwrap`) |
| Oops.JoinTakesEarliestCase | lib/oops/adapter/http.go:11-23 | when a tree holds several kinds, the status is that of the kind the switch tests first |
| Outbox.Inserted | account/internal/persistence/pg.account.go:105-111 | the insert adds exactly one key, a pending row carrying the payload, and changes no other row |
| Outbox.FetchPending | account/internal/persistence/pg.account.go:134-151 | at most `count` ids, each of a pending row of the table |
| Outbox.FetchComplete | account/internal/persistence/pg.account.go:136-140 | a batch shorter than `count` holds every pending row the scan met (`LIMIT` only cuts a full batch) |
| Outbox.FetchDistinct | account/internal/persistence/pg.account.go:136-140 | over a scan without repeats, no row is fetched twice |
| Outbox.FetchAllPending | account/internal/persistence/pg.account.go:136-140 | a short batch is exactly the set of pending rows |
| Outbox.ResolveIds | account/internal/persistence/pg.account.go:153-166 | no row is added or deleted, payloads are kept, and a row is done afterwards exactly when it was done or its id is listed |
| Outbox.ResolveUsers | account/internal/persistence/user.pg.go:179-192 | no row is added or deleted, payloads are kept, and a row is done afterwards exactly when it was done or its user id is listed |
| Outbox.ResolveIdsIdempotent | account/internal/persistence/pg.account.go:153-166 | resolving the same ids twice is resolving them once |
| Outbox.ResolveUsersIdempotent | account/internal/persistence/user.pg.go:179-192 | resolving the same user ids twice is resolving them once |
| Outbox.ResolveFetched | account/internal/persistence/pg.account.go:153-166 | resolving a fetched batch leaves none of its rows pending and leaves every other row as it was |
| Outbox.KeyingsDisagree | account/internal/persistence/user.pg.go:179-192 | keyed by outbox id and keyed by user id disagree: a row whose id differs from its user id is resolved by one and left pending by the other |
| Outbox.RowOf | account/internal/persistence/pg.account.go:146-149 | a fetched row carries its outbox id, user id and flag |
| Outbox.Marked | account/internal/domain/outbox/register.go:9 | marking sets the flag and keeps id and user id |
| Outbox.MarkedIdempotent | account/internal/domain/outbox/register.go:9 | marking twice is marking once |
| Outbox.Register.constructor | account/internal/domain/outbox/register.go:13-15 | `NewRegister` stores exactly the id, user id and flag it is given |
| Outbox.Register.Done | account/internal/domain/auth/message/userRegistered.go:9 | `Done` sets the flag in place and leaves `Id()` and `UserId()` unchanged |
| Strconv.NatDigitsRoundTrip | account/internal/cache/authAttempt.go:29-44 | reading back the decimal digits of a natural number gives the number |
| Strconv.FormatBool | account/internal/cache/authAttempt.go:31 | `%t` spells a boolean as "true" or "false" |
| Strconv.ParseBool | account/internal/cache/authAttempt.go:36-40 | `strconv.ParseBool` accepts exactly the six spellings of true and the six of false |
| Strconv.ParseInt | account/internal/cache/authAttempt.go:41-44 | exactly the strings made of an optional `+` or `-` and a non-empty run of decimal digits whose signed value fits in 64 bits parse, to that signed value; every other string is an error |
| Strconv.FormatBoolRoundTrip | account/internal/cache/authAttempt.go:29-40 | `ParseBool` reads back what `%t` wrote |
| Strconv.FormatIntRoundTrip | account/internal/cache/authAttempt.go:29-44 | every int64 survives `%d` followed by `ParseInt` |
| Json.Marshal | lib/temporary/messaging/createSubscription.go:19 | `json.Marshal` succeeds exactly when every timestamp in the value lies in years 0 to 9999 |
| Json.MarshalParse | lib/temporary/messaging/createSubscription.go:14-28 | unmarshalling what was marshalled gives the value back |
| Json.MarshalInjective | lib/temporary/messaging/createSubscription.go:19 | different values never share a text |
| Lockout.RetentionTime | account/internal/domain/service/authAttempt.go:39-46 | the retention is base + maxExtraFail·extra plus the leeway, a negative leeway counting as zero, so it is never below the longest jail |
| Lockout.Window | account/internal/domain/service/authAttempt.go:59-62 | only the newest min(len, maxConsecFail+maxExtraFail) attempts are examined, as a prefix of the history |
| Lockout.LeadingFailures | account/internal/domain/service/authAttempt.go:67-71 | the count of failures before the first success: all counted attempts failed and the next one, if any, succeeded |
| Lockout.CalculateJailTime | account/internal/domain/service/authAttempt.go:58-82 | the loop returns the jail of the scan over the window that stops at the first success |
| Lockout.IsJailed | account/internal/domain/auth/service/jailer.go:60-91 | an Unauthorized error (status 401) exactly when the jail time is positive, nil otherwise |
| Lockout.ScanIsClosed | account/internal/domain/auth/service/jailer.go:69-82 | the scan's switch equals its closed form over the run of leading failures |
| Lockout.JailTimeRule | account/internal/domain/service/authAttempt.go:48-57 | the documented rule: 0 below maxConsecFail leading failures; otherwise the base jail counted from the maxConsecFail-th failure, plus extra for each further failure in the window |
| Lockout.OkNewestNoJail | account/internal/domain/service/authAttempt.go:67-70 | a successful newest attempt gives no jail |
| Lockout.FewFailuresNoJail | account/internal/domain/service/authAttempt.go:73-80 | fewer leading failures than maxConsecFail give no jail |
| Lockout.JailWithinRetention | account/internal/domain/service/authAttempt.go:37-82 | under a policy with no negative setting, when no attempt lies after now the jail never exceeds `RetentionTime(0)`, so attempts are remembered for as long as they can jail |
| AttemptCodec.TruncateToMilli | account/internal/cache/authAttempt.go:25-27 | the kept instant is a whole millisecond at most one millisecond below the original |
| AttemptCodec.NewRow | account/internal/cache/authAttempt.go:21-23 | `NewAuthAttemptRow` copies the flag and the time |
| AttemptCodec.ToDomain | account/internal/cache/authAttempt.go:52-55 | `toDomain` never fails and keeps the flag and the time |
| AttemptCodec.ToHash | account/internal/cache/authAttempt.go:29-33 | the hash has exactly the fields "ok" ("true" or "false") and "time" (decimal, signed exactly when the time is negative) |
| AttemptCodec.FromHash | account/internal/cache/authAttempt.go:35-50 | decoding succeeds exactly when "ok" parses as a boolean and "time" as an int64; the row keeps the parsed flag and lies on a whole millisecond |
| AttemptCodec.RoundTrip | account/internal/cache/authAttempt.go:29-50 | `fromHash(toHash(r))` is r with its time cut to the millisecond |
| AttemptCodec.RoundTripExact | account/internal/persistence/authAttempt.valkey.go:24-44 | a row already on a whole millisecond survives the codec unchanged |
| AttemptCodec.DecodeEncodeStable | account/internal/persistence/valkey.auth.go:103-123 | re-encoding a decoded hash and decoding it again changes nothing |
| AttemptCodec.AttemptSurvivesCache | account/internal/cache/authAttempt.go:21-55 | an attempt written and read back is the same attempt up to the millisecond |
| AuthCache.AttemptsKey | account/internal/persistence/valkey.auth.go:42 | the sorted-set key is "user:", the user id's digits, ":auth-attempts" |
| AuthCache.AttemptHashKey | account/internal/persistence/authAttempt.valkey.go:73-74 | the attempt hash key is the sorted-set key, a colon and the identifier |
| AuthCache.TokenKey | account/internal/persistence/valkey.auth.go:137 | the token key is "user:", the user id's digits, ":auth-token" |
| AuthCache.KeysSeparate | account/internal/persistence/valkey.auth.go:42-43 | different users get different keys, and token keys, attempt set keys and attempt hash keys never coincide |
| AuthCache.Truncated | account/internal/persistence/valkey.auth.go:74-86 | the attempts in the same order, each cut to the millisecond |
| AuthCache.DecodeStoredAttempts | account/internal/persistence/authAttempt.valkey.go:104-118 | when each ranked member holds the hash `Add` wrote or has expired, `Get` returns exactly the stored attempts in rank order, expired ones skipped |
| AuthCache.Valkey.constructor | account/internal/persistence/valkey.auth.go:21-30 | a fresh store holds no key |
| AuthCache.Valkey.AddAttempt | account/internal/persistence/authAttempt.valkey.go:67-92 | one transaction: on success the member, scored by the millisecond time, and its hash are both written; on failure neither is |
| AuthCache.Valkey.GetAttempts | account/internal/persistence/valkey.auth.go:63-88 | a failed range is an error; otherwise the loop returns the decoding of the ranked members, skipping empty hashes and failing on the first undecodable one |
| AuthCache.Valkey.Grant | account/internal/persistence/valkey.auth.go:133-143 | SET of the user's token key on success, nothing on failure; attempts untouched |
| AuthCache.Valkey.Revoke | account/internal/persistence/valkey.auth.go:145-155 | DEL of the user's token key on success, nothing on failure; attempts untouched |
| AuthCache.Valkey.FindByOwner | account/internal/persistence/valkey.auth.go:157-167 | the stored token when the key exists and GET succeeds, an error otherwise |
| AuthCache.GrantThenFind | account/internal/persistence/valkey.auth.go:133-167 | after `Grant` the token reads back, after `Revoke` nothing does, and other users' tokens are unaffected |
| AmqpOpts.NewDefaultQueueOpts | account/internal/utility/amqp.opts.go:14-22 | the queue keeps its name and is neither durable, auto-deleted, exclusive nor no-wait, with no arguments |
| AmqpOpts.NewDefaultConsumeOpts | account/internal/utility/amqp.opts.go:36-46 | manual acknowledgement, an empty consumer tag, no flags, no arguments, and Nack requeues exactly as `requeueOnNack` says |
| AmqpOpts.NewDefaultPublishOpts | account/internal/utility/amqp.opts.go:57-68 | exchange, key and content type are copied; neither mandatory nor immediate |
| AmqpOpts.NewDefaultQueueBindOpts | account/internal/utility/amqp.opts.go:78-85 | name, key and exchange are copied; no-wait off and no arguments |
| Amqp.AddChannelStep | link/internal/utility/amqp.go:115-135 | an error exactly when there is no connection or the broker refuses; without a connection nothing changes; on success the channel is filed under its name, replacing any earlier one, and no other registry changes; the registry invariant is kept |
| Amqp.AddQueueStep | link/internal/utility/amqp.go:137-167 | an unregistered channel is an error that changes nothing and issues no call; a refused declare changes no registry; a successful one files the options under the queue name, replacing an earlier spec |
| Amqp.AddConsumerStep | link/internal/utility/amqp.go:169-210 | an unregistered channel is an error that changes nothing; a refusal changes no registry; on success the consumer is filed under its key, the run previously filed there is cancelled, so each key has one live consumer, and channels and queues are unchanged |
| Amqp.PublishStep | link/internal/utility/amqp.go:231-248 | an error exactly when the channel is unregistered or the broker refuses; no registry ever changes; the publication is issued only on a registered channel |
| Amqp.BindStep | link/internal/utility/amqp.go:250-266 | an error exactly when the channel is unregistered or the broker refuses; bindings are recorded in no registry |
| Amqp.ReplayChannels | link/internal/utility/amqp.go:79-85 | the channel loop stops at the first error, changes neither queues nor consumers, and keeps the invariant |
| Amqp.ReplayQueues | link/internal/utility/amqp.go:87-91 | the queue loop stops at the first error and changes neither channels nor consumers |
| Amqp.ReplayConsumers | link/internal/utility/amqp.go:93-97 | the consumer loop stops at the first error and changes neither channels nor queues |
| Amqp.RestoreSpec | link/internal/utility/amqp.go:78-99 | `restore` keeps the connection flag and the registry invariant |
| Amqp.ChannelPhaseOpensOnly | link/internal/utility/amqp.go:79-85 | the channel phase issues only channel openings, and the channel remembered is the last one re-opened |
| Amqp.QueuePhaseDeclaresOnly | link/internal/utility/amqp.go:87-91 | the queue phase issues only declarations, all on the remembered channel |
| Amqp.ConsumerPhaseConsumesOnly | link/internal/utility/amqp.go:93-97 | the consumer phase issues only consumes, all on the remembered channel |
| Amqp.QueuePhaseFailsWithoutChannel | link/internal/utility/amqp.go:86-91 | with no channel re-opened, the first registered queue fails the restore and nothing is issued |
| Amqp.ConsumerPhaseIdleWithoutChannel | link/internal/utility/amqp.go:93-97 | with no channel re-opened, the consumer phase issues nothing |
| Amqp.PhasesAreRestoreCalls | link/internal/utility/amqp.go:78-99 | calls that open, then declare, then consume contain no binding and no publication |
| Amqp.RestorePhases | subscription/internal/utility/amqp.go:85-106 | a restore issues channel openings, then declarations, then consumes; every declaration and consume goes to the channel re-opened last; no binding or publication is replayed |
| Amqp.Outcomes | link/internal/utility/amqp.go:51-52 | one outcome per dial, true exactly for an accepted dial |
| Amqp.Backoff | link/internal/utility/amqp.go:45-55 | the pause lies between 1s and 16s |
| Amqp.BackoffStep | link/internal/utility/amqp.go:52-55 | a failed dial doubles a pause below 16s and keeps 16s; a successful dial resets it to 1s |
| Amqp.BackoffSequence | subscription/internal/utility/amqp.go:52-62 | after a success, the pauses run 1s, 2s, 4s, 8s, 16s, 16s, … |
| Amqp.TrailingAfterSuccess | link/internal/utility/amqp.go:45-71 | the failures counted for the backoff are exactly those since the last success |
| Amqp.StartAdvances | link/internal/utility/amqp.go:45-75 | one more dial extends the trace by that attempt's events, and the first-connection flag and the backoff by one step |
| Amqp.NoSleepBeforeFirstSuccess | link/internal/utility/amqp.go:44-49 | before the first successful dial there is no pause and no readiness signal |
| Amqp.AttemptReady | link/internal/utility/amqp.go:60-63 | an attempt signals readiness exactly when it is the first successful dial |
| Amqp.ReadyExactlyOnce | link/internal/utility/amqp.go:43-76 | readiness is signalled exactly once when some dial succeeded, and never otherwise |
| Amqp.FirstConnectionOrder | subscription/internal/utility/amqp.go:67-79 | the link copy signals readiness before storing the connection, the subscription copy after; both then restore |
| Amqp.LaterAttemptsSleep | link/internal/utility/amqp.go:46-49 | after the first success every attempt starts with the backoff pause and signals nothing |
| Amqp.RefusedRunChangesNothing | link/internal/utility/amqp.go:51-57 | a run in which every dial is refused leaves the connection flag, the registries and the broker calls as they were |
| Amqp.RunKeepsValid | link/internal/utility/amqp.go:43-76 | whatever the dials and the broker's answers, a run keeps the registry invariant: handles and runs below the counter, and no live consumer cancelled or sharing a run |
| Amqp.LastRestoreDecides | link/internal/utility/amqp.go:65-72 | after a run ending in an accepted dial, the client is connected and is what that dial's restore left |
| Amqp.VerdictFor | link/internal/utility/amqp.go:213-226 | Ack exactly when the handler returned nil; otherwise Nack with the registered requeue flag |
| Amqp.Verdicts | link/internal/utility/amqp.go:212-227 | one verdict per delivery, in order, each decided by its own handler result |
| Amqp.VerdictsCompose | link/internal/utility/amqp.go:215-221 | a failure does not stop the loop: the verdicts on later deliveries are unaffected by earlier ones |
| Amqp.EnumerateKeys | link/internal/utility/amqp.go:80-91 | the channel and queue ranges visit every key of their map exactly once; their replays re-file each entry under the key being visited, so neither range adds a key |
| Amqp.ConsumerRange | link/internal/utility/amqp.go:93-97 | the consumer range visits every key present when it starts exactly once and, in the link copy, may also visit the replay channel's key, which re-filing a consumer under that channel adds during the range |
| Amqp.ConsumerRevisit | link/internal/utility/amqp.go:93-97 | in the link copy, visiting that added key issues a second Consume for the consumer just re-filed: if accepted it cancels the run started a moment before, and if refused it fails a restore that skipping the key lets succeed |
| Amqp.Broker.constructor | link/internal/utility/amqp.go:268-288 | `NewAmqp`: no connection, empty registries |
| Amqp.Broker.AddChannel | link/internal/utility/amqp.go:117-135 | the new state and error are those of `AddChannelStep` |
| Amqp.Broker.AddQueue | subscription/internal/utility/amqp.go:132-160 | the new state and error are those of `AddQueueStep` |
| Amqp.Broker.AddConsumer | subscription/internal/utility/amqp.go:167-203 | the new state and error are those of `AddConsumerStep`; the subscription copy keys by `opts.queue`, so different queues on one channel coexist |
| Amqp.Broker.Publish | subscription/internal/utility/amqp.go:224-241 | the new state and error are those of `PublishStep` |
| Amqp.Broker.QueueBind | link/internal/utility/amqp.go:250-266 | the new state and error are those of `BindStep` |
| Amqp.Broker.RestoreChannels | link/internal/utility/amqp.go:79-85 | the loop ends in the state `ReplayChannels` gives |
| Amqp.Broker.RestoreQueues | link/internal/utility/amqp.go:87-91 | the loop ends in the state `ReplayQueues` gives |
| Amqp.Broker.RestoreConsumers | link/internal/utility/amqp.go:93-97 | the loop ends in the state `ReplayConsumers` gives |
| Amqp.Broker.Restore | link/internal/utility/amqp.go:78-99 | the state and error are those of `RestoreSpec` |
| Amqp.Broker.Reconnect | link/internal/utility/amqp.go:65-72 | the connection is stored, then `restore` runs over orders that list each channel and queue key once and each consumer key once, possibly with the replay channel's key added to the consumer order in the link copy; the new state and the error are exactly those `RestoreSpec` gives |
| Amqp.Broker.Attempt | link/internal/utility/amqp.go:46-72 | one pass of the dial loop emits exactly `AttemptEvents` for the history so far; a refused dial leaves the state alone and doubles the backoff up to 16 s, an accepted one stores the connection, restores the registries over orders that `OrdersFit` admits, clears the first-connection flag and resets the backoff to 1 s |
| Amqp.Broker.Start | link/internal/utility/amqp.go:43-76 | over a run of dials, the events are exactly `Trace` (pauses, dials, one readiness signal, stores, restores); the client is connected once any dial succeeded; the registries are those the successive restores leave, each restore visiting the keys it found as `OrdersFit` admits, and its error dropped |
| Amqp.Broker.DeliveryLoop | subscription/internal/utility/amqp.go:205-220 | the loop's verdicts are `Verdicts` of the handler results, one per delivery |
| Envelopes.Seal | link/internal/messaging/checkSubscription.go:38-43 | marshalling succeeds exactly when the payload is encodable, and the bytes then read back as the payload; a failure gives empty bytes and the error wrapped in the messenger's context |
| Envelopes.CheckSubscriptionPayloadShape | link/internal/messaging/checkSubscription.go:11-36 | the envelope is encodable exactly when its issue time is; meta.version is the messenger's version and meta.source is absent; data has exactly the keys id, userId, usecase, with no contextId |
| Envelopes.FromLinkShortened | link/internal/messaging/checkSubscription.go:23-44 | an error, with empty bytes, exactly when the clock is outside years 0-9999; otherwise data.id is the outbox row id, data.userId the user and usecase "link.shortened" |
| Envelopes.FromShortConfigured | link/internal/messaging/checkSubscription.go:47-68 | the same envelope with usecase "short.configured" |
| Envelopes.LinkEventsDifferInUsecase | link/internal/messaging/checkSubscription.go:36-60 | two link events about the same row never give the same bytes: they differ in their use case |
| Envelopes.FromSubscriptionChecked | subscription/internal/messaging/finishShortening.go:28-55 | an error with empty bytes exactly when the clock is out of range; otherwise meta.version, data.id, contextId and usecase are copied, and so are perk.limit, perk.lifetime (integer nanoseconds) and perk.allowShortEdit |
| Envelopes.FinishShorteningPayloadShape | subscription/internal/messaging/finishShortening.go:11-22 | the payload is encodable exactly when its issue time is, and every field sits at its tagged key |
| Envelopes.SubscriptionExpiredPayloadShape | subscription/internal/messaging/subscriptionExpired.go:12-21 | the payload is encodable exactly when its issue time is; the perk object has a limit and allowShortEdit and no lifetime |
| Envelopes.FromSubscriptionExpired | subscription/internal/messaging/subscriptionExpired.go:27-52 | an error with empty bytes exactly when the clock is out of range; otherwise id and userId come from the message, and limit and allowShortEdit from the perk argument, with no lifetime |
| Envelopes.Numbers | lib/temporary/messaging/createSubscription.go:6 | each user id becomes one JSON number, in order |
| Envelopes.CreateSubscriptionPayloadShape | lib/temporary/messaging/createSubscription.go:5-12 | the user list sits under "Data" then "users", and the issue time under "meta" |
| Envelopes.SerCreateSubscription | lib/temporary/messaging/createSubscription.go:14-20 | it succeeds exactly when the clock is in range, and the bytes then carry exactly the given user list under Data.users |
| Envelopes.DecodeUint64 | lib/temporary/messaging/createSubscription.go:24 | an element decodes when it is null or a number in the uint64 range, and then keeps its value |
| Envelopes.DecodeUint64s | lib/temporary/messaging/createSubscription.go:24 | a decoded array keeps its length |
| Envelopes.DeCreateSubscription | lib/temporary/messaging/createSubscription.go:22-28 | a decoding error gives the empty command together with the error; bytes that are not JSON always fail |
| Envelopes.DecodeNumbers | lib/temporary/messaging/createSubscription.go:24 | a list of uint64 numbers decodes to the same list |
| Envelopes.CreateSubscriptionRoundTrip | lib/temporary/messaging/createSubscription.go:14-28 | decoding what `SerCreateSubscription` wrote gives the same users and issue time, and no error |
| AccountStore.Failed | account/internal/repository/user.pg.go:94-96 | the repository copy returns the cause unwrapped; `pgAccount` and `pgUser` wrap it in their own "persistence<…>: " context |
| AccountStore.FailedKeepsStatus | account/internal/persistence/user.pg.go:74 | a copy's wrapping never changes the HTTP status of the cause |
| AccountStore.CreateStep | account/internal/persistence/pg.account.go:84-117 | an error exactly when a statement fails, and then nothing changes; on success the user gets the next serial id and exactly one pending register_outbox row carrying that id is inserted |
| AccountStore.CreateAtomic | account/internal/persistence/user.pg.go:110-143 | the users table changes exactly when the outbox does: both rows are written or neither |
| AccountStore.CreateAddsOne | account/internal/repository/user.pg.go:91-120 | a successful create adds exactly one user and one outbox row |
| AccountStore.UpdateStep | account/internal/persistence/pg.account.go:119-132 | `Update` writes no outbox row and adds or removes no user; only the row whose id matches is rewritten, and an unknown id changes nothing |
| AccountStore.NotFoundIn | account/internal/persistence/pg.account.go:66-71 | a lookup that meets no row is reported with status 404 in every copy |
| AccountStore.GetByIdAsWritten | account/internal/persistence/pg.account.go:60-82 | with `OR 1 = 1`, the lookup succeeds exactly when the table is non-empty, whatever id is asked for, and returns some stored user |
| AccountStore.GetById | account/internal/persistence/user.pg.go:64-85 | the lookup by `id = $1`: it succeeds exactly when the id is stored and returns that user; otherwise a 404 NotFound naming the id |
| AccountStore.GetByIdReturnsAnotherUser | account/internal/repository/user.pg.go:64-79 | with two users, asking for the second returns the first as written, and the second as intended |
| AccountStore.FirstNamed | account/internal/persistence/user.pg.go:88-91 | the first scanned user with that name, or none exactly when no scanned user has it |
| AccountStore.GetByUsername | account/internal/persistence/user.pg.go:87-108 | it succeeds exactly when some user has the name and returns such a user; no row is a wrapped NotFound in `pgUser` and the raw driver error in the repository copy |
| AccountStore.Rows | account/internal/persistence/user.pg.go:172-175 | one converted row per selected id, in order |
| AccountStore.PendingBatch | account/internal/persistence/user.pg.go:160-177 | at most `count` rows, none done, each the stored row of a selected id |
| AccountStore.Ids | account/internal/service/account.go:75-78 | the outbox id of each row, in order |
| AccountStore.BatchIds | account/internal/service/account.go:75-81 | the ids of a fetched batch are exactly the rows the fetch selected |
| AccountStore.ResolveStep | account/internal/repository/user.pg.go:156-169 | an empty list is the `sqlx.In` error and a failure changes nothing; otherwise `pgAccount` flips rows by outbox id and the other copies by user id, and users are untouched |
| AccountStore.ResolveMonotoneIdempotent | account/internal/persistence/pg.account.go:153-166 | resolve deletes no row, reopens no done row, and a second identical resolve changes nothing |
| AccountStore.UserStore.constructor | account/internal/persistence/pg.account.go:19-21 | `NewPgAccount` over a fresh database: empty tables whose serials start at 1 |
| AccountStore.UserStore.Create | account/internal/persistence/user.pg.go:110-143 | the new tables and error are those of `CreateStep` |
| AccountStore.UserStore.Update | account/internal/repository/user.pg.go:122-135 | the new tables and error are those of `UpdateStep` |
| AccountStore.UserStore.GetRegisterOutbox | account/internal/repository/user.pg.go:137-154 | a failure is the copy's error; otherwise the loop returns `PendingBatch` |
| AccountStore.UserStore.ResolveRegisterOutbox | account/internal/persistence/user.pg.go:179-192 | the new tables and error are those of `ResolveStep` |
| AccountService.CommandOpts | account/internal/service/account.go:69-70 | the command goes to the default exchange, keyed by the subscription.creator queue, as application/json, neither mandatory nor immediate |
| AccountService.RegisterStep | account/internal/service/account.go:32-47 | registration succeeds exactly when hashing and the store both succeed; a hashing failure leaves the store as it was; on success the user is stored with the digest, never the password, and a pending outbox row names the user |
| AccountService.Register | account/internal/service/account.go:32-47 | the new store and error are those of `RegisterStep` |
| AccountService.HandleStep | account/internal/service/account.go:53-83 | every failure before the publish leaves the store as it was and sends nothing; an empty batch is a silent no-op; a message is sent exactly when fetch, serialization and publish succeed; only then are the batch's ids resolved |
| AccountService.SentRowsResolved | account/internal/service/account.go:75-81 | against the store keyed by outbox id, a sent and resolved batch leaves none of its rows pending and every other row unchanged; a tick that sends nothing changes no row |
| AccountService.SentRowsMisresolvedByUserKey | account/internal/persistence/user.pg.go:179-183 | the same tick against a store that resolves by user id leaves the sent row pending and closes a row that was never sent |
| AccountService.HandleRegisteredUsers | account/internal/service/account.go:53-83 | the loop that collects the resolved ids computes exactly the new store, message and error of `HandleStep` |
| AuthService.Raised | account/internal/service/auth.go:64-67 | the `Service` copy prefixes "service<Auth.X>: ", the other two copies return the cause itself, and neither choice changes the HTTP status |
| AuthService.Recorded | account/internal/service/auth.go:89-92 | the attempt becomes the newest in that user's history; other users' histories and the token cache are untouched |
| AuthService.LoginStep | account/internal/service/auth.go:64-107 | login succeeds exactly when the user is found, is not jailed, the password matches, both tokens encode and (outside `App`) the grant succeeds, and then returns those tokens; a jailed user gets Unauthorized and nothing is recorded; once the jail check passes, the attempt is recorded whatever the password check says; only a successful login changes the token cache, and `App` never does |
| AuthService.JailedLoginIsInert | account/internal/auth.service.go:74-79 | a jailed login changes neither cache and answers 401, so retrying does not extend the jail |
| AuthService.LoginClearsJail | app/internal/account/auth.service.go:94-110 | right after a successful login the user's jail time is zero |
| AuthService.RefreshStep | account/internal/service/auth.go:109-144 | refresh succeeds exactly when the token decodes, the cache read succeeds, and the presented token is the user's non-empty active token, with both re-encodings and the grant succeeding; then the new refresh token replaces the active one; an empty or different active token is Unauthorized; a missing key is the cache's nil reply, unwrapped; a failure changes nothing; the `App` copy returns empty tokens and no error |
| AuthService.RefreshTokenSingleUse | account/internal/auth.service.go:122-126 | after a refresh rotated the token, presenting the consumed token again is Unauthorized and changes nothing |
| AuthService.LoginThenRefresh | account/internal/auth.service.go:64-141 | the refresh token a login granted is accepted by the next refresh when its collaborators succeed |
| AuthService.LogoutStep | account/internal/service/auth.go:146-156 | logout succeeds exactly when the access token decodes and the revoke succeeds, and then only that user's refresh token is gone; a failure changes nothing |
| AuthService.LogoutEndsRefresh | account/internal/auth.service.go:143-150 | after a successful logout, every refresh for that user fails |
| AuthService.Infer | account/internal/service/auth.go:158-165 | the user id of a valid access token; a decode failure is an error in the copy's form |
| AuthService.HandleNewUsersStep | account/internal/service/auth.go:167-188 | a fetch or handler failure changes nothing; an empty batch is a no-op that never calls the handler; otherwise exactly the ids the handler answers are resolved |
| AuthService.Auth.constructor | account/internal/service/auth.go:28-45 | both caches start empty |
| AuthService.Auth.Register | account/internal/service/auth.go:47-62 | a hashing failure leaves the store unchanged; otherwise the store is the one `CreateStep` gives for the user with the digest |
| AuthService.Auth.Login | account/internal/auth.service.go:64-106 | the new caches, tokens and error are those of `LoginStep` |
| AuthService.Auth.Refresh | app/internal/account/auth.service.go:113-125 | the new caches, tokens and error are those of `RefreshStep` |
| AuthService.Auth.Logout | account/internal/auth.service.go:143-150 | the new caches and error are those of `LogoutStep` |
| AuthService.Auth.HandleNewUsers | account/internal/auth.service.go:161-178 | the new store and error are those of `HandleNewUsersStep` |
| LinkDomain.CharBytes | link/internal/domain/shortening/link.go:81 | a character takes one to four bytes, and exactly one when it is ASCII |
| LinkDomain.ByteLen | link/internal/domain/shortening/link.go:81-87 | Go's `len` is never shorter than the character count, and equals it on ASCII text |
| LinkDomain.SchemeScan | link/internal/domain/shortening/link.go:95 | the scheme split fails exactly on a leading ':', with "missing protocol scheme"; a non-empty scheme is a letter, then scheme characters, then a ':' that starts the text; text with no ':' has no scheme |
| LinkDomain.BeforeFragment | link/internal/domain/shortening/link.go:95 | the longest prefix without '#'; when it is shorter than the input, the next character is '#' |
| LinkDomain.UrlScheme | link/internal/domain/shortening/link.go:95-98 | parsing fails on a control character before the fragment and on a leading ':', with `url.Error`'s text (the URL before the fragment written with `%q`); a scheme it finds begins the destination and is followed by ':'; a destination with no ':' parses with no scheme |
| LinkDomain.ScanFindsScheme | link/internal/domain/shortening/link.go:95 | a text that starts with a well-formed scheme and ':' scans to exactly that scheme |
| LinkDomain.SchemeFound | link/internal/domain/shortening/link.go:95-98 | the converse: `scheme:rest` with no control character before its fragment parses with that scheme |
| LinkDomain.QuoteChar | link/internal/domain/shortening/link.go:95-98 | one character of the `%q`-quoted URL in a parse error: never empty and free of control characters |
| LinkDomain.QuoteBody | link/internal/domain/shortening/link.go:95-98 | the quoted URL is never shorter than the URL |
| LinkDomain.QuoteKeepsPlain | link/internal/domain/shortening/link.go:95-98 | in a parse error, a URL of printable ASCII without quote or backslash appears as itself between the quotes |
| LinkDomain.QuotedHasNoControl | link/internal/domain/shortening/link.go:95-98 | in a parse error, the quoted URL never carries a control character, whatever the destination held |
| LinkDomain.BeforeFragmentKeeps | link/internal/domain/shortening/link.go:95 | a prefix without '#' survives the fragment cut |
| LinkDomain.Invalid | link/internal/domain/shortening/link.go:82-86 | a validation failure is a wrapped BadValues, answered with 400 |
| LinkDomain.NewLink | link/internal/domain/shortening/link.go:66-114 | a link is built exactly when the shortened text fits 15 bytes, the destination fits 255 bytes, and the destination parses with a non-empty scheme, checked in that order and each with its own error; a missing id becomes 0 and every other field is kept as given |
| LinkDomain.NoColonRefused | link/internal/domain/shortening/link.go:98-101 | a destination of acceptable length without any ':' is refused because it has no scheme |
| LinkDomain.Drawn | link/internal/domain/shortening/link.go:32-36 | 15 characters, each drawn from the charset by its draw modulo 62 |
| LinkDomain.DrawnFits | link/internal/domain/shortening/link.go:14-15 | a drawn text is exactly 15 bytes long, because the charset is ASCII |
| LinkDomain.CharsetIsAscii | link/internal/domain/shortening/link.go:15 | the charset has 62 characters, all ASCII |
| LinkDomain.LowerIsAscii | link/internal/domain/shortening/link.go:15 | the lower-case letters are ASCII |
| LinkDomain.UpperIsAscii | link/internal/domain/shortening/link.go:15 | the upper-case letters are ASCII |
| LinkDomain.DigitsAreAscii | link/internal/domain/shortening/link.go:15 | the digits are ASCII |
| LinkDomain.AsciiJoins | link/internal/domain/shortening/link.go:15 | joining two ASCII texts gives an ASCII text |
| LinkDomain.Link.constructor | link/internal/domain/shortening/link.go:104-113 | the object holds exactly the given fields |
| LinkDomain.Link.Shorten | link/internal/domain/shortening/link.go:31-39 | the byte loop fills shortened with the drawn text, the alias becomes the same text, and no other field changes |
| LinkDomain.Link.Activate | link/internal/domain/shortening/link.go:40-42 | the link opens and nothing else changes |
| LinkDomain.Link.Deactivate | link/internal/domain/shortening/link.go:43-45 | the link closes and nothing else changes |
| LinkDomain.ShortenedIsPlain | link/internal/domain/shortening/link.go:53-55 | a freshly shortened link has no custom alias, its text is from the charset, and it passes the 15-byte check |
| LinkDomain.ExpiryIsFinal | link/internal/domain/shortening/link.go:47-49 | once a link has expired it stays expired, and it has not yet expired at its expiry instant |
| LinkDomain.QuotaWrapAdmits | link/internal/domain/shortening/stats.go:9-11 | with `uint` wrap-around, a user at the largest count asking for one more link passes a zero quota; the intended check refuses |
| LinkDomain.QuotaAgreesWithoutWrap | link/internal/domain/shortening/stats.go:9-11 | when the sum does not overflow, the written check and the intended check agree |
| LinkDomain.QuotaMonotone | link/internal/domain/shortening/stats.go:9-11 | more quota or a smaller need never takes the quota away; a zero need means at most `quota` active links |
| LinkDomain.RedirectWindow | link/internal/domain/redirect/link.go:13-16 | a closed link never redirects; an open link redirects exactly before its expiry, not at it, and once it stops it never redirects again |
| LinkStore.Failed | link/internal/persistence/pg.shortening.go:141 | the "persistence<pg.X>: " context never changes the HTTP status of the cause |
| LinkStore.StoredRow | link/internal/persistence/pg.shortening.go:65-74 | every column of the row is the link's field of the same name; id and alias are not columns |
| LinkStore.ToLink | link/internal/persistence/pg.shortening.go:54-63 | a row that re-validates reads back as a link with that id, storing back to the same row, and without a custom alias |
| LinkStore.StoredLinkReadsBack | link/internal/persistence/pg.shortening.go:54-74 | storing a valid link and reading it back returns the same link, except that the alias becomes the shortened text |
| LinkStore.CreateStep | link/internal/persistence/pg.shortening.go:137-182 | a failure at any statement changes nothing; otherwise the link is stored under a fresh id, and exactly one pending link_shortened_outbox row names its owner and that id; the other outbox is untouched |
| LinkStore.ConfigureStep | link/internal/persistence/pg.shortening.go:184-221 | a failure changes nothing; otherwise the row with the link's id, if any, is closed and nothing else in links changes; one pending short_configured_outbox row carries the owner, id, destination and shortened text, even when no link row has that id |
| LinkStore.LinkWritesAreAtomic | link/internal/persistence/pg.shortening.go:143 | `Create` changes the links table exactly when it changes its outbox; `Configure` writes its outbox row exactly when it succeeds and never touches links when it fails |
| LinkStore.UpdateStep | link/internal/persistence/pg.shortening.go:223-240 | only the row with the link's id changes, and its owner column is kept; an unknown id or a failure changes nothing; no outbox row is written |
| LinkStore.DeleteStep | link/internal/persistence/pg.shortening.go:242-250 | on success exactly that id leaves the links table; no row is altered and no outbox changes; a failure changes nothing |
| LinkStore.CountByUserIdExcept | link/internal/persistence/pg.shortening.go:252-271 | the number of the owner's other links whose expiry is still ahead of the database clock |
| LinkStore.CountIgnoresExcepted | link/internal/persistence/pg.shortening.go:258 | updating or deleting the excepted link never changes the count |
| LinkStore.CountShrinksWithTime | link/internal/persistence/pg.shortening.go:259 | as the clock advances, the counted links can only drop out |
| LinkStore.SubsetCard | link/internal/persistence/pg.shortening.go:254 | a subset never has more elements than its superset |
| LinkStore.LinkNotFound | link/internal/persistence/pg.shortening.go:121-123 | a missing row is a NotFound answered with 404 |
| LinkStore.GetById | link/internal/persistence/pg.shortening.go:114-135 | a missing row is a wrapped NotFound naming the id; a stored row is returned re-validated through `NewLink`, with that id and the stored columns, or with `NewLink`'s error |
| LinkStore.MissingLinkIs404 | link/internal/persistence/pg.shortening.go:120-124 | a lookup of a missing link fails with status 404 |
| LinkStore.ShortenedMessages | link/internal/persistence/pg.shortening.go:279-284 | one message per outbox id, in order, carrying that row's owner and link |
| LinkStore.ConfiguredMessage | link/internal/persistence/pg.shortening.go:349-356 | the message carries the row's id, owner, link and destination; the shortened text becomes the alias, and the link is reported closed |
| LinkStore.ConfiguredMessages | link/internal/persistence/pg.shortening.go:375-378 | one message per outbox id, in order |
| LinkStore.GetLinkShortened | link/internal/persistence/pg.shortening.go:286-306 | at most `maxCount` messages, each from a pending row and carrying that row's contents |
| LinkStore.GetShortConfigured | link/internal/persistence/pg.shortening.go:358-380 | at most `maxCount` messages, each from a pending row |
| LinkStore.GetLinkShortenedById | link/internal/persistence/pg.shortening.go:308-324 | it fails exactly on a failed query or a missing row, the latter a NotFound naming link_shortened_outbox; otherwise it returns the row's message |
| LinkStore.GetShortConfiguredById | link/internal/persistence/pg.shortening.go:382-406 | as by-id lookup of the configured outbox; its NotFound names `link` |
| LinkStore.ResolveLinkShortenedStep | link/internal/persistence/pg.shortening.go:326-339 | it fails exactly on an empty id list or a failed statement, under the "ResolveCheckSubscriptions" context, and then changes nothing; otherwise only the listed outbox rows are flipped |
| LinkStore.ResolveShortConfiguredStep | link/internal/persistence/pg.shortening.go:408-421 | the same for the configured outbox |
| LinkStore.ResolveClosesBatch | link/internal/persistence/pg.shortening.go:286-339 | resolving a fetched batch closes exactly its rows and deletes none; a second resolve changes nothing |
| LinkStore.LegacyCreateStep | link/internal/persistence/shortening.pg.go:145-176 | the older copy stores the link under a fresh id, returns that id and writes no outbox row; a failure changes nothing |
| LinkStore.LegacyGetById | link/internal/persistence/shortening.pg.go:120-143 | its NotFound and failures carry the "pgLink" context; a link it returns is the one `GetById` returns |
| LinkStore.CountByUserIdAsWritten | link/internal/persistence/shortening.pg.go:207-220 | the query has no placeholder the driver fills and `Scan` gets the variable by value rather than by address, so every call fails |
| LinkStore.CountByUserId | link/internal/persistence/shortening.pg.go:207-220 | the intended count: the number of links the user owns |
| LinkStore.CountNeverReported | link/internal/persistence/shortening.pg.go:208-216 | on a table holding one link of the user, the written count fails while the intended count is 1 |
| LinkStore.CreateCountsOnce | link/internal/persistence/pg.shortening.go:137-182 | creating a link adds exactly its new id to its owner's links, so the count grows by one |
| LinkStore.OwnedGrows | link/internal/persistence/pg.shortening.go:166 | a fresh row for the user adds exactly its id to the user's set |
| LinkStore.Links.constructor | link/internal/persistence/pg.shortening.go:137 | empty tables, with every serial at 1 |
| LinkStore.Links.Create | link/internal/persistence/pg.shortening.go:137-182 | the new tables and error are those of `CreateStep` |
| LinkStore.Links.Configure | link/internal/persistence/pg.shortening.go:184-221 | the new tables and error are those of `ConfigureStep` |
| LinkStore.Links.Update | link/internal/persistence/pg.shortening.go:223-240 | the new tables and error are those of `UpdateStep` |
| LinkStore.Links.DeleteById | link/internal/persistence/pg.shortening.go:242-250 | the new tables and error are those of `DeleteStep` |
| LinkStore.Links.ResolveLinkShortened | link/internal/persistence/pg.shortening.go:326-339 | the new tables and error are those of `ResolveLinkShortenedStep` |
| LinkStore.Links.ResolveShortConfigured | link/internal/persistence/pg.shortening.go:408-421 | the new tables and error are those of `ResolveShortConfiguredStep` |
| LinkStore.Links.LegacyCreate | link/internal/persistence/shortening.pg.go:145-176 | the new tables and the returned id are those of `LegacyCreateStep` |
| LinkService.Fail | link/internal/service/link.go:54-56 | `Shortening` and `Link` prefix their own context and the older copy returns the error itself; the status never changes |
| LinkService.Written | link/internal/service/shortening.go:87-89 | a write is issued, and the call fails exactly when the store's write fails |
| LinkService.Refused | link/internal/service/shortening.go:45-47 | no write is issued and the call fails |
| LinkService.Build | link/internal/service/link.go:46-53 | `Shortening` validates through `NewLink`, and the other copies' constructor never fails; either way the built link has the given fields, with the shortened text as its alias |
| LinkService.Create | link/internal/service/shortening.go:35-56 | a refused destination issues no write; otherwise one new open link is written, updated and expiring at `now`, with a fresh 15-character shortened text and no custom alias, and the call fails exactly when the store's write fails |
| LinkService.CreateRefusesSchemeless | link/internal/service/shortening.go:37-47 | `Shortening` refuses a destination without a scheme with 400 before any write; the `Link` copy writes it |
| LinkService.GetById | link/internal/service/shortening.go:27-33 | the stored link is returned whoever asks, since the caller is never compared with the owner; a lookup failure is wrapped |
| LinkService.Forbid | link/internal/service/shortening.go:69-73 | a non-owner gets 403 and no write |
| LinkService.UpdateById | link/internal/service/shortening.go:58-92 | a failed lookup or a non-owner (403) issues no write; for the owner, the update is written exactly when the rebuilt link passes the copy's constructor (always outside `Shortening`), and otherwise refused with the constructor's error; a write is the stored link with only the destination replaced |
| LinkService.UpdateIgnoresArguments | link/internal/service/link.go:70-94 | the `shortened` and `IsOpen` arguments never change the outcome |
| LinkService.UpdateChangesOnlyDestination | link/internal/service/shortening.go:75-89 | an owner's update applied by the store changes that row's destination and nothing else |
| LinkService.DeleteById | link/internal/service/shortening.go:95-110 | a delete is issued exactly when the lookup succeeds and the caller owns the link; a non-owner gets 403 |
| LinkService.Initialize | link/internal/service/shortening.go:113-148 | a failed lookup, a failed count or a count above the limit (a count equal to it passes) issues no write; otherwise one update opens the link from `now` until `now + lifetime`, except that an invalid rebuilt link is silently replaced by the zero link |
| LinkService.InitializeOpensStoredLink | link/internal/service/link.go:148-183 | for a link read back from the store, within quota, the update keeps its id, owner, shortened text and destination, opens it, and makes it live until `now + lifetime` |
| LinkService.InitializeMayWriteZero | link/internal/service/shortening.go:136-144 | a stored link that fails validation makes `Initialize` report success while writing the zero link |
| LinkService.RedirectFail | link/internal/service/redirect.go:18-21 | each redirector's wrapping keeps the status of the cause |
| LinkService.Refusal | link/internal/service/redirect.go:24-26 | a 403 whose message is the given text |
| LinkService.Redirect | link/internal/service/redirect.go:17-35 | the destination is returned exactly when the link is open and `now` is not after its expiry; a closed link and an expired link are each refused with their own 403 |
| LinkService.RedirectAgreesWithDomain | link/internal/link.service.go:125-140 | the services redirect every link the domain calls redirectable, plus the expiry instant itself, which the domain refuses |
| LinkEvents.NewShortening | link/internal/controller/shortening.go:244-250 | all three messengers of a new controller are at version 1 |
| LinkEvents.VersionMismatch | link/internal/controller/shortening.go:193-198 | the mismatch is an uncategorised error, answered with 500 |
| LinkEvents.ListenFinishShortening | link/internal/controller/shortening.go:187-218 | an undecodable or other-version message calls nothing and fails; "link.shortened" calls the handler and then the compensation, and fails exactly when the handler failed, joining the compensation's error in front; "short.configured" calls only its handler; any other use case is acknowledged without a call |
| LinkEvents.FailedShorteningStatus | link/internal/controller/shortening.go:206-208 | a failed shortening is answered with the handler's own status when the compensation succeeded; a Forbidden from either call stays reachable |
| LinkEvents.Received | subscription/internal/messaging/finishShortening.go:28-55 | the controller decodes the version, id, context, use case, limit, lifetime and edit flag the subscription service sealed |
| LinkEvents.CheckedShorteningReachesHandler | link/internal/controller/shortening.go:200-212 | between the shipped versions, a checked "link.shortened" reaches the handler with the message's context, lifetime and limit and is then compensated; "short.configured" reaches only its handler; a version-2 message is refused without a call |
| LinkEvents.ListenSubscriptionExpired | link/internal/controller/shortening.go:220-241 | the expiry handler is called exactly when the message decodes at the expired messenger's version, with its owner, limit and edit flag, and the call fails exactly when the handler does; the mismatch text names the finish-shortening listener and that messenger's version |
| LinkEvents.ReceivedExpiry | subscription/internal/messaging/subscriptionExpired.go:27-52 | the decoded owner and id are the message's, and the perk is the one the sender was given |
| LinkEvents.ExpiryReachesHandler | link/internal/controller/shortening.go:233-240 | an expiry sent at version 1 reaches the handler of a new controller, and the handler's error alone decides the ack |
| Pagination.Offset | link/internal/persistence/pg.shortening.go:21-26 | the offset is a `uint`: 0 before the first page, and `(page-1)*limit` whenever that product fits |
| Pagination.PagesTile | link/internal/persistence/shortening.pg.go:19-24 | without wrap-around, page 1 starts at row 0 and each page starts `limit` rows after the one before |
| Pagination.OffsetWraps | link/internal/repository/link.go:18-23 | the product wraps modulo 2^64, so a page far enough out starts at row 0 again |
| Pagination.NewQueryParams | link/internal/persistence/pg.shortening.go:28-42 | a missing or zero page becomes 1 and a missing or zero limit becomes 10; a positive argument is kept |
| Pagination.DefaultsStartAtZero | link/internal/repository/link.go:25-38 | constructed parameters never take the `page < 1` branch: an absent or zero page starts at row 0 |
| SubscriptionDomain.Extended | subscription/internal/domain/subscription/subscription.go:15-17 | extending keeps the id and owner and moves the expiry by exactly the duration |
| SubscriptionDomain.ExtendComposes | subscription/internal/domain/subscription/subscription.go:15-17 | two extensions in a row are one extension by their sum |
| SubscriptionDomain.ExtendZero | subscription/internal/domain/subscription/subscription.go:15-17 | extending by zero changes nothing |
| SubscriptionDomain.Subscription.constructor | subscription/internal/domain/subscription/subscription.go:19-34 | a missing id becomes 0; owner and expiry are kept; construction never fails |
| SubscriptionDomain.Subscription.Extend | subscription/internal/domain/subscription/subscription.go:15-17 | the object's new value is the old one extended by the duration |
| SubscriptionDomain.ActiveMonotone | subscription/internal/domain/subscription/service/perkInferer.go:30 | a later expiry or an earlier moment keeps a subscription active |
| SubscriptionDomain.Infer | subscription/internal/domain/subscription/service/perkInferer.go:28-34 | premium exactly while more than the deviation is left before expiry, basic otherwise |
| SubscriptionDomain.InferBoundaryIsBasic | subscription/internal/domain/subscription/service/perkInferer.go:30-33 | with exactly the deviation left, the subscription already gets the basic perk |
| SubscriptionDomain.InferMonotone | subscription/internal/domain/subscription/service/perkInferer.go:28-34 | a later expiry never turns premium into basic |
| SubscriptionDomain.Swapped | subscription/internal/domain/subscription/service/perks.go:21-37 | the same configuration with basic and premium exchanged |
| SubscriptionDomain.InferPairAsWritten | subscription/internal/domain/subscription/service/perks.go:39-46 | as written, premium exactly when no more than the deviation is left, which includes expired subscriptions, and basic while active |
| SubscriptionDomain.InferPair | subscription/internal/domain/subscription/service/perkInferer.go:28-34 | the corrected pair inference: premium exactly while active |
| SubscriptionDomain.AsWrittenIsSwapped | subscription/internal/domain/service/link.go:35-41 | the three written copies are the corrected inference with the two pairs exchanged |
| SubscriptionDomain.AsWrittenBoundaryIsPremium | subscription/internal/domain/service/subscriptionPerks.go:35-38 | as written, the boundary case yields premium |
| SubscriptionDomain.ActiveSubscriberGetsBasic | subscription/internal/domain/subscription/service/perks.go:42-45 | a subscription one nanosecond past the deviation is active; the written copies give it basic, the corrected inference premium |
| SubscriptionDomain.InferPairAgreesWithInfer | subscription/internal/domain/subscription/service/perkInferer.go:28-34 | the corrected pair inference picks premium exactly when `Infer` does |
| SubscriptionDomain.InferPairMonotone | subscription/internal/domain/subscription/service/perks.go:39-46 | the corrected inference keeps premium for every later expiry |
| SubscriptionStore.Failed | subscription/internal/persistence/pg.subscription.go:83 | the "persistence<pg.X>: " context never changes the HTTP status of the cause |
| SubscriptionStore.Absent | subscription/internal/persistence/pg.subscription.go:44-46 | exactly the listed ids that are not known, never more of them than were listed |
| SubscriptionStore.FilterExistingAsWritten | subscription/internal/persistence/pg.subscription.go:35-53 | an empty list leaves `VALUES ` without a row and fails; otherwise the result is exactly the listed ids that are no subscription's primary key |
| SubscriptionStore.FilterExisting | subscription/internal/persistence/pg.subscription.go:35-53 | the filter as its name and error context suggest: exactly the listed users that hold no subscription |
| SubscriptionStore.FilterComparesSubscriptionIds | subscription/internal/persistence/pg.subscription.go:46 | with user 5 holding subscription 1, the written filter reports 5 as new and hides user 1; the intended filter reports 1 |
| SubscriptionStore.Present | subscription/internal/repository/subscription.pg.go:39-42 | exactly the listed ids that are known, in list order |
| SubscriptionStore.CheckManyByOwner | subscription/internal/repository/subscription.pg.go:38-53 | an empty list fails in `sqlx.In`; otherwise the result is exactly the listed users that hold a subscription, and errors are returned unwrapped |
| SubscriptionStore.FilterComplementsCheck | subscription/internal/repository/subscription.pg.go:38-53 | for a non-empty list, every listed user is reported by exactly one of the intended filter and the owner lookup |
| SubscriptionStore.GetByOwner | subscription/internal/persistence/pg.subscription.go:55-71 | it fails exactly on a failed query or a user with no subscription; otherwise it returns one of that user's subscriptions with its stored expiry |
| SubscriptionStore.FirstOwned | subscription/internal/persistence/pg.subscription.go:63-65 | the first scanned subscription of the user, or none exactly when no scanned row is theirs |
| SubscriptionStore.NewRows | subscription/internal/persistence/pg.subscription.go:73-77 | the loop builds one row per subscription, in order, with its owner and expiry, never yet checked |
| SubscriptionStore.InsertSubs | subscription/internal/persistence/pg.subscription.go:79-82 | the batch insert keeps every old row and adds the new rows under consecutive fresh serial ids |
| SubscriptionStore.InsertAddsOwners | subscription/internal/persistence/pg.subscription.go:79-82 | the insert adds exactly the new rows' users to the set of owners |
| SubscriptionStore.RowsKeepOwners | subscription/internal/persistence/pg.subscription.go:28-33 | the rows built for a batch have exactly the batch's users |
| SubscriptionStore.CreateStep | subscription/internal/persistence/pg.subscription.go:73-86 | an empty batch or a failure changes nothing; otherwise the batch is inserted as new rows, whatever ids it carries, and the owners grow by exactly the batch's users |
| SubscriptionStore.RepositoryCreate | subscription/internal/repository/subscription.pg.go:69-82 | the same table change as `CreateStep`, with errors returned unwrapped |
| SubscriptionStore.CreateSubscriptionCheckedStep | subscription/internal/persistence/pg.subscription.go:109-132 | a failure changes nothing; otherwise exactly one pending row carries the context, use case and the perk's lifetime, limit and edit flag, and the other tables are untouched |
| SubscriptionStore.CheckedMessage | subscription/internal/persistence/pg.subscription.go:99-107 | the message carries the row's id and every column |
| SubscriptionStore.CheckedMessages | subscription/internal/persistence/pg.subscription.go:153-156 | one message per outbox id, in order |
| SubscriptionStore.GetSubscriptionChecked | subscription/internal/persistence/pg.subscription.go:134-158 | at most `limit` messages, each from a pending row and carrying its contents |
| SubscriptionStore.ResolveSubscriptionCheckedStep | subscription/internal/persistence/pg.subscription.go:160-173 | it fails exactly on an empty list or a failed statement, and then changes nothing; otherwise only the listed rows are flipped |
| SubscriptionStore.GetSubscriptionExpired | subscription/internal/persistence/pg.subscription.go:237-255 | at most `limit` messages, each from a pending row and naming its user |
| SubscriptionStore.ExpiredMessages | subscription/internal/persistence/pg.subscription.go:180-182 | one message per outbox id, in order, with the row's user |
| SubscriptionStore.ResolveSubscriptionExpiredStep | subscription/internal/persistence/pg.subscription.go:257-269 | it fails exactly on an empty list or a failed statement, and then changes nothing; otherwise only the listed rows are flipped |
| SubscriptionStore.ResolveExpiredClosesBatch | subscription/internal/persistence/pg.subscription.go:237-269 | resolving a fetched batch closes exactly its rows and deletes none; a second resolve changes nothing |
| SubscriptionStore.Expiring | subscription/internal/persistence/pg.subscription.go:186-194 | at most `limit` subscriptions, each expired before the database clock and never checked |
| SubscriptionStore.UsersOf | subscription/internal/persistence/pg.subscription.go:216-219 | the owner of each picked subscription, in order |
| SubscriptionStore.NotesKeys | subscription/internal/persistence/pg.subscription.go:209-212 | the expiry insert adds exactly one new id per user, after the old rows |
| SubscriptionStore.WatchStep | subscription/internal/persistence/pg.subscription.go:184-235 | a failed select fails; nothing due is a no-op without a transaction; otherwise the call fails exactly when the transaction does, and a failure changes nothing |
| SubscriptionStore.WatchNeverRepeats | subscription/internal/persistence/pg.subscription.go:192-193 | after a successful watch, no subscription it picked is ever picked again, at any later time |
| SubscriptionStore.UsersOfGrows | subscription/internal/persistence/pg.subscription.go:217-218 | collecting one more row appends its owner |
| SubscriptionStore.WatchStepWrites | subscription/internal/persistence/pg.subscription.go:209-233 | a successful watch marks every subscription of the picked owners as checked, appends one expiry row per picked row, and changes no other table or serial |
| SubscriptionStore.NoteAt | subscription/internal/persistence/pg.subscription.go:209-212 | the k-th user's expiry row is pending at `next + k`, and later rows of the same insert do not overwrite it |
| SubscriptionStore.NotesKeepOld | subscription/internal/persistence/pg.subscription.go:209-212 | earlier expiry rows survive the insert unchanged |
| SubscriptionStore.NotesAppend | subscription/internal/persistence/pg.subscription.go:209-214 | the insert appends one pending row per user, in order, under ids no earlier row holds, and keeps every earlier row |
| SubscriptionStore.OwnersOf | subscription/internal/persistence/pg.subscription.go:216-219 | the loop collects exactly the owners of the picked rows, in order |
| SubscriptionStore.Subscriptions.constructor | subscription/internal/persistence/pg.subscription.go:73 | empty tables, with every serial at 1 |
| SubscriptionStore.Subscriptions.Create | subscription/internal/persistence/pg.subscription.go:73-86 | the new tables and error are those of `CreateStep` |
| SubscriptionStore.Subscriptions.CreateSubscriptionChecked | subscription/internal/persistence/pg.subscription.go:109-132 | the new tables and error are those of `CreateSubscriptionCheckedStep` |
| SubscriptionStore.Subscriptions.ResolveSubscriptionChecked | subscription/internal/persistence/pg.subscription.go:160-173 | the new tables and error are those of `ResolveSubscriptionCheckedStep` |
| SubscriptionStore.Subscriptions.ResolveSubscriptionExpired | subscription/internal/persistence/pg.subscription.go:257-269 | the new tables and error are those of `ResolveSubscriptionExpiredStep` |
| SubscriptionStore.Subscriptions.WatchExpiringSubscription | subscription/internal/persistence/pg.subscription.go:184-235 | the new tables and error are those of `WatchStep` |
| SubscriptionService.NewBatch | subscription/internal/service/subscription.go:49-62 | at most one subscription per listed user, each for a listed user the lookup did not report, without an id and expiring now; every such user gets one |
| SubscriptionService.NothingNewForKnownUsers | subscription/internal/service/subscription.go:50-55 | when the lookup reports every listed user, the loop builds nothing |
| SubscriptionService.CollectNew | subscription/internal/service/subscription.go:49-62 | the loop skips the reported users and builds the same batch as `NewBatch` |
| SubscriptionService.Init | subscription/internal/service/subscription.go:42-68 | the new tables and the error are those of the lookup, the loop and the create, with every error wrapped in the copy's context |
| SubscriptionService.FailedLookupCreatesNothing | subscription/internal/service/status.go:34-38 | a failed lookup, or an empty list, leaves the tables alone and reports an error with the lookup's HTTP status |
| SubscriptionService.InitSubscribesListedUsers | subscription/internal/service/subscription.go:42-68 | after a successful `Init` every listed user owns a subscription, no other owner appears, old rows are unchanged, and every new row belongs to a user who had none, expires now and is unchecked |
| SubscriptionService.BatchAddsListedOwners | subscription/internal/service/subscription.go:43-66 | creating the built batch makes the owners exactly the old owners plus the listed users |
| SubscriptionService.CreateAddsFreshRows | subscription/internal/service/subscription.go:64-66 | the create keeps every old row and adds only unchecked rows for users who had none, and leaves both outbox tables alone |
| SubscriptionService.RedeliveryCreatesNothing | subscription/internal/service/status.go:34-60 | a second `Init` on the same list, at any later time, changes no table and reports the empty-batch error |
| SubscriptionService.InferPerks | subscription/internal/service/subscription.go:34-40 | a failed lookup or a user with no subscription gets a zero lifetime and a zero limit; a subscriber gets either the basic or the premium pair, chosen by `SubscriptionPerks.Infer` as written |
| SubscriptionService.InferPerksIntended | subscription/internal/domain/service/subscriptionPerks.go:21-24 | the same lookup and zero fallback, with the pair chosen in the direction the deviation comment describes |
| SubscriptionService.SubscriberPerksFollowExpiry | subscription/internal/domain/service/subscriptionPerks.go:35-41 | as written, a subscriber gets the premium pair exactly while the subscription the lookup finds is no longer active |
| SubscriptionService.IntendedPerksFollowExpiry | subscription/internal/domain/service/subscriptionPerks.go:21-24 | as intended, a subscriber gets the premium pair exactly while the subscription the lookup finds is active |
| SubscriptionService.ActiveSubscriberServedBasic | subscription/internal/service/subscription.go:39 | one nanosecond before the deviation starts, an active subscriber is served the basic pair; the intended lookup serves the premium pair |

## Left out

- Concurrency in the broker client: mutexes, goroutines, the close notifier, the monitor goroutine and the error channel. Each call is one atomic step and the delivery loop is a fold over a finite sequence of deliveries. The lock leaks on early returns (link/internal/utility/amqp.go:118-122 and 140-145) are locking defects outside a sequential model.
- LinkDomain.UrlScheme: the URL in a parse error is quoted as `%q` does for ASCII and the C1 controls (U+0080 to U+009F). Other runes that Go does not print, such as format characters and unassigned code points, are written unescaped here, where Go writes `\u` or `\U` escapes. The model has no Unicode category tables.
- Envelopes.DeCreateSubscription: the case-insensitive key fallback folds ASCII letters only. `encoding/json` folds with `unicode.ToUpper(unicode.ToLower(r))`, so it also matches keys such as `uſers` (U+017F) or ones with a Kelvin sign (U+212A). The model has no Unicode case tables.
- Real broker, database and cache I/O. Tables are maps, and each statement's success or failure is a parameter. SQL text is not modelled, only each statement's effect on rows. The order in which the database returns rows is a `scan` parameter.
- JSON encoding and decoding. A value's text is not spelled out: distinct values have distinct texts. The decode-only wrappers of the link and subscription services become a decoded payload, or a decoding error, passed in as a parameter.
- HTTP request handlers, routes, middleware, the listing queries that only feed them (`GetMany`, `GetManyByUser`, `GetSelf`), and the subscription services' `GetByUserId`, a lookup that only wraps `GetByOwner`'s error.
- Process wiring, schedulers, tickers and environment loading.
- bcrypt and JWT. Hashing, comparison and token encoding and decoding are collaborators whose answers are parameters.
- `time.Now`, `math/rand` and `crypto/rand.Text`. They are parameters; the shortener's random draws are a sequence of indices into its 62-character alphabet.
- `url.Parse` is reduced to its scheme split: a destination is accepted when the text before its first `:` is a URL scheme. Other parse errors are not modelled.
- `time.Time` arithmetic and `time.Duration` are unbounded integers of nanoseconds. The saturation of `Sub` and `Add` at the int64 bounds is not modelled.
- The float text of the jail message (`%.2fs`) is not rendered, and the float64 score of the attempt sorted set is the integer millisecond time.
- Key expiry in the cache is not timed: an expired attempt hash is simply absent, which HGETALL reports as an empty hash.
- The call sites that do not match their callee across generations follow the callee. The seven-argument `NewLink` calls pass no alias, so the alias is the shortened text. The five-argument `NewShortConfigured` call passes no open flag, so the message carries `false`. The link service's call to `NewShortened` is read as the domain's `Shorten`.
- `Order` and `Extend` of both subscription service copies are empty, and so are the repository's `Update` and `Delete` of subscriptions: they change nothing and are not modelled.
- The older `pgLink.Update` and `pgLink.DeleteById` have the same effect on the links table as `LinkStore.UpdateStep` and `LinkStore.DeleteStep`; only the error context differs, and it is not modelled.
- SubscriptionStore.EmptyBatch: the empty-batch error text stops at `length of array is 0`; the library appends `: ` and the Go-syntax rendering of the empty argument.
- SubscriptionStore.CheckManyByOwner: returns each listed owner once, in list order. The query returns one user id per matching subscription in database order, possibly repeated. `Init` only tests membership in that list, so this does not change its result.
- The wrapping of `fromHash` errors differs between the three codec copies, and so does the `toDomain` error path of the Valkey copy. Only whether decoding fails is modelled, not the error's text.

## Findings

| source | as written | input that shows it | evidently intended | confidence | as-written member | corrected member |
|---|---|---|---|---|---|---|
| subscription/internal/domain/subscription/service/perks.go:39-46 | premium when `expiredAt - now - deviation <= 0`, basic otherwise; subscriptionPerks.go and domain/service/link.go compare the same way | `expiredAt = now + deviation + 1`: the subscription is active and gets the basic pair | premium while the subscription is active, as subscription/internal/domain/subscription/service/perkInferer.go:28-34 decides | high, not executed | SubscriptionDomain.ActiveSubscriberGetsBasic | SubscriptionDomain.InferPairAgreesWithInfer |
| subscription/internal/domain/service/subscriptionPerks.go:35-41 | the subscription service's `InferPerks` (subscription/internal/service/subscription.go:39) chooses its pair with this inverted comparison | a subscriber whose subscription expires at `now + deviation + 1`: it is active and is served the basic pair | premium while the subscription is active | high, not executed | SubscriptionService.ActiveSubscriberServedBasic | SubscriptionService.IntendedPerksFollowExpiry |
| link/internal/domain/shortening/stats.go:9-11 | `activeLinks + need <= quota` in `uint` arithmetic, which wraps | `activeLinks = 2^64 - 1`, `need = 1`, `quota = 0`: the sum wraps to 0 and the check passes | the unbounded sum fits in the quota | medium, not executed | LinkDomain.QuotaWrapAdmits | LinkDomain.QuotaMonotone |
| account/internal/persistence/pg.account.go:60-82 | `WHERE id = $1 OR 1 = 1` matches every row; the same clause is in user.pg.go and the repository copy | two users 1 and 2, asking for 2: user 1 can come back | the user with the requested id, or NotFound | high, not executed | AccountStore.GetByIdReturnsAnotherUser | AccountStore.GetById |
| link/internal/persistence/shortening.pg.go:207-220 | the query uses `?` with the PostgreSQL driver, passes the argument slice unspread, and gives `Scan` the variable by value rather than by address | a user owning one link: the call fails instead of reporting 1 | the number of links the user owns | high, not executed | LinkStore.CountNeverReported | LinkStore.CountByUserId |
| subscription/internal/persistence/pg.subscription.go:35-53 | the listed ids are compared with `subscriptions.id`, the primary key, although the error context `persistence<pg.CheckManyByOwner>` (line 50) and the store method `CheckManyByOwner(id []uint64)` name them owners; no caller of `FilterExisting` is part of this model; an empty list leaves `VALUES ` without a row | user 5 holding subscription 1, listing users 5 and 1: user 5 is reported as new and user 1 as existing | the listed users that hold no subscription | low, not executed | SubscriptionStore.FilterComparesSubscriptionIds | SubscriptionStore.FilterExisting |
