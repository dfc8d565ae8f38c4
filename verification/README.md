# Verified model of foam-proxy's magic-link system

foam-proxy serves an App Review session token at `/api/magic`. The token blob lives in one SSM parameter. A
scheduled Lambda keeps it alive by exchanging its one-time refresh token at Twitch and writing the rotated blob
back; the proxy reads the parameter through a TTL cache. A second Lambda forwards CloudWatch alarms to Discord
and Telegram. This project models those parts in Dafny 4.11 and proves what they guarantee.

## What is modelled

- `Config.dfy`: the link, its validity rule, and the allowed app schemes. Byte strings are sequences of
  characters below 256. The parameter's raw content is one of: empty, rejected by the JSON decoder, or a
  document carrying a link.
- `CacheProtocol.dfy`, `CacheTheorems.dfy`, `CacheFreshness.dfy`, `CacheProgress.dfy`: the cache as a transition
  system with any number of concurrent `Resolve` calls. Mutex, singleflight slot, source read, the write of `cached` and the write of `exp` are separate
  steps; the clock may advance, contexts may be cancelled and the store may be written between any two of them.
  The specification is one register, "last good link, else the env link". `MagicLinkCache.dfy` has the object
  with its fields: its critical section changes them as those transitions do, and its `Resolve` does what the
  protocol does for a call that meets no other.
- `Backoff.dfy`, `MagicLinkStore.dfy`: 64-bit backoff arithmetic, the retry loop against a trace specification,
  and the guarded store. Replies, cancellation, random draws and timer races come from a `World` value; a write
  may take effect and still report an error.
- `KeepAlive.dfy`: one keepalive run and the handler's decision whether EventBridge may invoke it again.
- `Rotation.dfy`, `RotationTheorems.dfy`, `RefreshInProtocol.dfy`: any number of keepalive runs interleaving, with
  crashes; and a run that meets no other, which ends as `Refresh` does.
- `System.dfy`, `EndToEnd.dfy`: one proxy instance and any number of keepalive runs on the same parameter.
- `AlarmText.dfy`, `FanOut.dfy`, `SnsHandler.dfy`: the two alarm printers, the concurrent fan-out, and the record
  loop with re-invocation.
- `FormEncoding.dfy`, `MagicTarget.dfy`: form encoding with an independent reader, and the two encodings of a link.

## Assumptions on the environment

- The clock readings of one proxy instance never go backwards, and a cancelled context stays cancelled.
- Each store read sees the content the store has at some instant during the read.
- Twitch accepts one refresh token at a time, replaces it by a token never seen before whenever it accepts it,
  and its answer names that token or leaves it out. Only keepalive runs spend the stored token or write the
  parameter.
- `Rotation` assumes that a write attempt that reports failure had no effect; `MagicLinkStore` and `KeepAlive`,
  which follow a single run, assume nothing of the kind.
- Token text survives `json.Marshal` and `json.Unmarshal` unchanged, as it does for valid UTF-8.

## Where the code and its comments disagree

`cmd/magic-keepalive/main.go:64-66` treats `ErrTokenRotated` as the one case in which the token is dead, and every
other failure as one before the refresh that stays retryable. If Twitch rotates the token but its answer is lost or lacks
a token, `Refresh` returns an ordinary error (`internal/magickeepalive/refresher.go:48-62`) and the handler asks for
a retry that cannot succeed. `RotationTheorems.IncompleteAnswerBreaksTheRule` builds a failing run for every incomplete
answer and `RotationTheorems.LostAnswerBreaksTheRule` one in which the answer is lost.
`RotationTheorems.CustodyRuleExactly` gives the exact condition: the rule holds at an instant exactly if, up to then,
every answer to a rotation arrived and every answer that a run examined had both tokens. An answer nobody has examined
yet, or whose run crashed before examining it, does not break the rule. `RotationTheorems.LostForever` shows that
retrying is futile.

The retry loop's constant limit is 3. For a limit above 37 the 37th failure would shift the base wait into a
negative ceiling, on which `rand.Int` panics; the model keeps that outcome (`Panicked`).

## Model

| member | source | states |
|---|---|---|
| Config.ParseMagicLink | internal/config/config.go:84-101 | a link is returned exactly for a decodable document with both tokens, and re-encoding it gives the document back |
| Config.ResolveAppScheme | internal/config/config.go:30-35 | the requested scheme exactly if it is one of the five allowed ones, else `foam` |
| CacheProtocol.StepInv | internal/proxy/magiclinkcache.go:39-113 | every transition keeps the invariant: mutex and flight have one owner each, the cached link is what a store version parses to, a running load started after the current expiry, a finished flight's result is the register |
| CacheTheorems.RunInv | internal/proxy/magiclinkcache.go:39-113 | the invariant holds in every state of every run |
| CacheTheorems.DecideStep | internal/proxy/magiclinkcache.go:44-59 | a call's result, own or received from a flight, becomes known only at an instant when the register holds it |
| CacheTheorems.Linearizable | internal/proxy/magiclinkcache.go:39-113 | every `Resolve` returns the value the register had at some instant between its call and its return, for any number of callers and any interleaving |
| CacheTheorems.ResolveReturnsTheRegister | internal/proxy/magiclinkcache.go:36-60 | the same for the link itself: the cached link, else the env link, at an instant of the call |
| CacheTheorems.MonotonicReads | internal/proxy/magiclinkcache.go:75-113 | if one call returns before another is made, the second never gets an older store version, nor the env link once a store link was served |
| CacheTheorems.ServedIsStored | internal/proxy/magiclinkcache.go:100-112 | a link served from the store is what one of its versions parses to, and has both tokens |
| CacheTheorems.AtMostOneRead | internal/proxy/magiclinkcache.go:48-53 | in every reachable state at most one source read is outstanding |
| CacheTheorems.JoinersNeverRead | internal/proxy/magiclinkcache.go:48-53 | a call that joins a running flight never reads the source, at any instant of the run |
| CacheTheorems.InnerHitsNeverRead | internal/proxy/magiclinkcache.go:49-51 | a leader whose inner check hits never reads the source |
| CacheTheorems.LoadSpacing | internal/proxy/magiclinkcache.go:16-20 | consecutive loads that wrote the expiry start at least 60 s per success and 5 s per failure apart, whatever happens in between |
| CacheTheorems.ExpWrites | internal/proxy/magiclinkcache.go:84-112 | `exp` changes exactly when a load is logged, to the instant of the write plus 60 s or 5 s, strictly later than before |
| CacheTheorems.CachedNeverCleared | internal/proxy/magiclinkcache.go:100-112 | `cached` is never cleared, never gets older, and always has both tokens |
| CacheTheorems.FreshMeansRecentLoad | internal/proxy/magiclinkcache.go:62-73 | an entry is fresh exactly while the last load that wrote `exp` ended under 60 s ago, 5 s if it failed |
| CacheTheorems.FailedLoad | internal/proxy/magiclinkcache.go:84-108 | a load without a link keeps `cached`, and keeps `exp` exactly when the read failed with the leader's context cancelled |
| CacheFreshness.CachedWasNewest | internal/proxy/magiclinkcache.go:75-112 | after a successful load the cached version was the newest in the store at an instant no earlier than the start of that load |
| CacheFreshness.BoundedStaleness | internal/proxy/magiclinkcache.go:16-20 | a fresh hit after a successful load serves a version that was the newest less than 60 s plus the load's duration ago |
| CacheFreshness.FlightIsRecent | internal/proxy/magiclinkcache.go:48-59 | what a flight hands to its leader and its followers was the newest version within 60 s and the duration of two flights, unless its load failed |
| CacheFreshness.FreshAfterWrite | internal/proxy/magiclinkcache.go:36-60 | a call made 60 s and the duration of two flights after a write returns that version or a newer one, followers of a running flight included, unless a load failed during the call or in the 5 s and one flight before it |
| CacheFreshness.EveryRunHasABound | internal/proxy/magiclinkcache.go:48-53 | every run has a bound on the duration of its flights, so these laws speak of every run |
| CacheProgress.NoDeadlock | internal/proxy/magiclinkcache.go:48-82 | as long as a call has not returned, it, the owner of the mutex or the leader it waits for can take a step |
| CacheProgress.CallsAreShort | internal/proxy/magiclinkcache.go:39-60 | every call returns after at most eleven steps of its own, whatever the others do |
| CacheProgress.FollowersShare | internal/proxy/magiclinkcache.go:48-59 | a call that joined a flight returns exactly what the leader of that flight returns |
| MagicLinkCache.Cache.constructor | internal/proxy/magiclinkcache.go:32-34 | the cache starts empty with the zero expiry |
| MagicLinkCache.Cache.Fresh | internal/proxy/magiclinkcache.go:62-73 | hits exactly before the expiry, with the cached link, else the env link |
| MagicLinkCache.Cache.Load | internal/proxy/magiclinkcache.go:75-113 | the two fields become those of `AfterLoad`, and the result is the link they stand for |
| MagicLinkCache.LoadRefines | internal/proxy/magiclinkcache.go:81-113 | from every protocol state about to take in a read, the protocol changes the fields and returns the link exactly as `Cache.Load` does |
| MagicLinkCache.Cache.Resolve | internal/proxy/magiclinkcache.go:39-60 | an uncontended call returns the link of the resulting fields, fetches exactly on a stale entry, and never loses a cached link |
| MagicLinkCache.ResolveRefines | internal/proxy/magiclinkcache.go:39-60 | after every protocol run that leaves the mutex and the flight free, one more call can run on its own, and ends with the fields and the link of `Cache.Resolve` |
| Backoff.CeilingDoublesUpToTheCap | internal/magiclink/store.go:123-129 | for attempts 1 to 36 nothing overflows and the ceiling is the doubled base wait capped at 1 s, within 200 ms and 1 s |
| Backoff.CeilingValues | internal/magiclink/store.go:24-28 | the ceilings are 200, 400 and 800 ms, then 1 s up to attempt 36 |
| Backoff.CeilingMonotone | internal/magiclink/store.go:123-129 | ceilings never decrease up to attempt 36 |
| Backoff.CeilingWrapsAt37 | internal/magiclink/store.go:124 | the bound is tight: attempt 37 wraps negative |
| Backoff.CeilingVanishesFrom56 | internal/magiclink/store.go:124 | from attempt 56 on the shift leaves zero |
| Backoff.BackoffDelay | internal/magiclink/store.go:131-138 | every delay in [0, ceiling) can be drawn and no other; half the ceiling when the random source fails; for attempts 1 to 36 |
| Backoff.DelaysBelowCeilings | internal/magiclink/store.go:105-116 | delays drawn below their ceilings sum to less than the first n ceilings |
| Backoff.ProductionWaitsAreShort | internal/magiclink/store.go:24-28 | the waits of three attempts stay under 600 ms together |
| MagicLinkStore.Store.WithRetry | internal/magiclink/store.go:100-121 | the loop meets the trace specification: 1 to N requests, success exactly on the last request's success, early failure only for a permanent error or a cancelled context; requests, waits and result are those of `LastRequest`, and the parameter holds what the requests wrote |
| MagicLinkStore.RetryableMeans | internal/magiclink/store.go:88-98 | an error is retried unless its tree holds one of the five permanent faults |
| MagicLinkStore.WhenRequestsStop | internal/magiclink/store.go:105-119 | requests are repeated exactly after retryable errors under a good context whose wait was not cut short; short of the limit they stop for a success, a permanent error or a cancellation |
| MagicLinkStore.UndisturbedRequests | internal/magiclink/store.go:105-112 | under a good context there are three requests, fewer only after a success or a permanent error |
| MagicLinkStore.CancelledResult | internal/magiclink/store.go:113-118 | a loop that fails early on a retryable error was cancelled, and the error joins both causes |
| MagicLinkStore.AtMostOneCallAfterCancellation | internal/magiclink/store.go:113-118 | at most one request starts after the context is cancelled, and it is the last |
| MagicLinkStore.NoCallAfterTheEnd | internal/magiclink/store.go:107-112 | no request follows a success or a permanent error |
| MagicLinkStore.WaitsAreBounded | internal/magiclink/store.go:105-119 | the waits of an N-attempt loop sum to less than its first N-1 ceilings |
| MagicLinkStore.ThreeAttempts | internal/magiclink/store.go:24-28 | with the program's limit: at most three requests, no panic, under 600 ms of waiting |
| MagicLinkStore.SsmClient.Request | internal/magiclink/store.go:55-82 | a request writes exactly if it is a put that succeeds or takes effect despite its error |
| MagicLinkStore.Store.Get | internal/magiclink/store.go:53-67 | changes nothing; yields what the last request answers: the parameter, an empty value for a missing one, or an error that keeps its cause and is never the rotation sentinel |
| MagicLinkStore.Store.Put | internal/magiclink/store.go:69-86 | malformed blobs cause no request; otherwise nil exactly if the last request succeeded, and the parameter holds the new blob exactly if some request took effect |
| KeepAlive.GuardAccepts | internal/magickeepalive/refresher.go:64-81 | the guard in `Put` never rejects a blob built from a complete answer |
| KeepAlive.Refresher.Refresh | internal/magickeepalive/refresher.go:36-85 | success exactly if a usable blob was read, the answer is complete and the write succeeds, and then exactly the new blob is stored; the tagged error exactly if only the write failed; every other error means no write was issued |
| KeepAlive.Handle | cmd/magic-keepalive/main.go:45-106 | the check-in closes as ok exactly if the flag is on, the configuration is good and the run succeeds; an error is returned exactly for a failure before any write; a disabled run touches nothing |
| Rotation.StepInv | internal/magickeepalive/refresher.go:36-85 | every step of every run keeps the invariant: a held or dropped live token is not in the store, its blob is the run's base, and one run accounts for it |
| RefreshInProtocol.RefreshRefines | internal/magickeepalive/refresher.go:36-85 | after any execution one more run can go on alone, whatever it reads, Twitch answers and the write meets, and ends as `Refresh` does: a complete answer and a successful write leave the new tokens stored and live |
| RefreshInProtocol.FailedWriteWroteNothing | internal/magickeepalive/refresher.go:79-83 | if failed attempts have no effect, a failed write leaves the parameter as it was |
| RotationTheorems.OneHolder | internal/magickeepalive/refresher.go:79-83 | at most one run holds a rotated, unpersisted token; it is the live one and the store lacks it |
| RotationTheorems.WritesAreLive | internal/magickeepalive/refresher.go:81-84 | every successful write stores the token currently live at Twitch |
| RotationTheorems.ExactlyOnePlace | internal/magickeepalive/refresher.go:36-85 | from a live seed the live token is at every instant in exactly one place: the store, one run, or one ended run that lost it |
| RotationTheorems.CustodyRuleExactly | cmd/magic-keepalive/main.go:64-66 | "in the store or with a run, unless a run crashed or reported ErrTokenRotated" holds at an instant exactly if no answer to a rotation was lost before it and every answer examined before it had both tokens |
| RotationTheorems.IncompleteAnswerBreaksTheRule | internal/magickeepalive/refresher.go:53-62 | from every usable seed, an incomplete answer leaves a dead token in the store with an ordinary error |
| RotationTheorems.LostAnswerBreaksTheRule | internal/magickeepalive/refresher.go:48-51 | from every usable seed, a rotation whose answer is lost leaves a dead token in the store with an ordinary error |
| RotationTheorems.CrashKeepsTheRule | cmd/magic-keepalive/main.go:64-66 | a crash after the rotation loses the token too, but the rule names that case |
| RotationTheorems.LostForever | cmd/magic-keepalive/main.go:64-66 | a lost token stays lost: nothing is rotated or written any more |
| RotationTheorems.ChainMeaning | internal/magickeepalive/refresher.go:64-73 | both stored tokens come from the same answer, and the token type is the last non-empty one |
| RotationTheorems.RotationChain | internal/magickeepalive/refresher.go:42-84 | every stored version is the chain of the answers persisted so far on the seed |
| RotationTheorems.SeedDecides | internal/magickeepalive/refresher.go:42-46 | a malformed seed is never overwritten, and a usable one is only replaced by usable blobs |
| System.CacheRun | internal/proxy/magiclinkcache.go:12-30 | the proxy's part of a system run is a run of the cache protocol |
| System.StoreIsTheChain | internal/magiclink/store.go:1-4 | the store the proxy reads is the parameter the runs write, and its versions form the rotation chain |
| System.ServedTokensBelongTogether | internal/proxy/magiclinkcache.go:36-60 | a link served from the store has both tokens from the seed or from one and the same persisted Twitch answer |
| System.SystemMonotonicReads | internal/proxy/magiclinkcache.go:36-60 | successive calls never go back in the rotation chain, whatever the runs do |
| System.SystemFreshness | internal/proxy/magiclinkcache.go:36-60 | a call made 60 s and the duration of two flights after some instant returns the tokens of the last answer persisted by then or of a later one, unless a source read failed during the call or in the 5 s and one flight before it |
| EndToEnd.RotationReachesTheCaller | internal/magickeepalive/refresher.go:36-85 | after any execution with an idle cache and the live token stored, a keepalive run and then a call can follow, and the caller gets exactly the tokens Twitch answered |
| AlarmText.DecodeEscaped | internal/alarmnotifier/alarm.go:102-109 | a single-pass decoder undoes the escaper, whatever text follows |
| AlarmText.EscapedIsInert | internal/alarmnotifier/alarm.go:102-109 | escaped text has no raw bracket and every ampersand starts one of the three entities |
| AlarmText.EscapedLength | internal/alarmnotifier/alarm.go:102-109 | escaping adds 4 per ampersand and 3 per bracket |
| AlarmText.PiecesShow | internal/alarmnotifier/alarm.go:68-100 | text written piece by piece is seen as the plain forms of its pieces |
| AlarmText.HtmlShowsPlainText | internal/alarmnotifier/alarm.go:34-109 | stripping the tags of the HTML text and decoding its entities gives exactly the plain text, whatever the fields contain |
| AlarmText.FormatPlainText | internal/alarmnotifier/alarm.go:34-66 | read line by line, the text has exactly the lines of the record, each heading with its own field, optional ones exactly if their field is not empty |
| AlarmText.FormatHTML | internal/alarmnotifier/alarm.go:68-100 | the same lines with bold headings and every field escaped, spelled out; it displays as the plain text |
| AlarmText.Texts | internal/alarmnotifier/notify.go:99-133 | a reader of the Telegram text sees exactly the Discord text, whatever the fields contain, before any truncation |
| FanOut.StepInv | internal/alarmnotifier/notify.go:44-97 | every step of the caller or a sender keeps the counts of acknowledgements and errors right |
| FanOut.Conservation | internal/alarmnotifier/notify.go:50-82 | acknowledgements plus errors never exceed the enabled channels and equal them after the wait; a sender is never blocked by the buffered channel |
| FanOut.VerdictIsFixed | internal/alarmnotifier/notify.go:84-96 | whether `Notify` fails, and which channels it names, do not depend on the interleaving |
| FanOut.NoDeadlock | internal/alarmnotifier/notify.go:56-82 | until the call returns some goroutine can take a step |
| FanOut.RunsAreShort | internal/alarmnotifier/notify.go:56-97 | no interleaving takes more than twelve steps |
| FanOut.EachSendsOnce | internal/alarmnotifier/notify.go:56-74 | in every completed run, whatever the interleaving, each enabled channel is called exactly once and no other is |
| FanOut.SequentialRun | internal/alarmnotifier/notify.go:44-97 | for every configuration there is a completed run that calls one channel after the other |
| SnsHandler.Notifier.Notify | internal/alarmnotifier/notify.go:44-97 | calls each enabled channel once and fails exactly when none acknowledges; its calls and its verdict are those of a completed run of the fan-out |
| SnsHandler.AnyRunLogs | internal/alarmnotifier/notify.go:44-97 | every completed run of the fan-out makes the calls and has the verdict that `Notify` promises |
| SnsHandler.Notifier.HandleSNS | internal/alarmnotifier/handler.go:13-42 | returns nil exactly when every record parses and every alarming one is acknowledged; names exactly the failing records; sends exactly the alarming records, each to every enabled channel |
| SnsHandler.AlertsExactly | internal/alarmnotifier/handler.go:31-35 | a record alerts exactly if it is a named alarm whose state is ALARM in any case of its letters |
| SnsHandler.HandledExactly | internal/alarmnotifier/handler.go:18-39 | a record adds no error exactly if it is a named alarm and, if alarming, some enabled channel acknowledges or none is enabled |
| SnsHandler.HandledMeansDelivered | internal/alarmnotifier/handler.go:31-39 | with a configuration LoadConfig accepts, a record adds no error exactly when it parses and, if alarming, some channel acknowledged it |
| SnsHandler.Notifier.Redeliver | internal/alarmnotifier/notify.go:89-94 | re-invoking a one-record event never calls a channel that acknowledged, and stops exactly at the first invocation that handles the record |
| FormEncoding.EscapeRoundTrip | internal/proxy/response.go:87 | escaping uses only unreserved characters, `+` and upper-case triplets, and unescaping undoes it, for all byte strings |
| FormEncoding.EscapedByte | internal/proxy/response.go:87 | which bytes stand for themselves, that a space is `+`, and that every other byte is its upper-case triplet |
| FormEncoding.CutAfter | internal/proxy/response.go:87 | cutting at the first separator finds the one after text without its first byte |
| FormEncoding.ParseEncoded | internal/proxy/response.go:87 | parsing an encoded form gives back exactly its keys and values |
| FormEncoding.EncodeSnoc | internal/proxy/response.go:87 | pairs are joined by `&`, keys and values by `=` |
| FormEncoding.LessMeans | internal/proxy/response.go:87 | the order of keys is decided at the first differing byte, a proper prefix first |
| FormEncoding.Encode | internal/proxy/response.go:87 | the query lists the keys in byte order and parses back to the form |
| MagicTarget.DecimalRoundTrip | internal/proxy/response.go:84 | a printed expiry reads back as the same number and has no leading zero |
| MagicTarget.DecimalIsCanonical | internal/proxy/response.go:84 | it is the only text without a leading zero that reads as that number |
| MagicTarget.FieldsDetermine | internal/proxy/response.go:61-73 | the fields of a link determine the blob |
| MagicTarget.MagicTokenBlob | internal/proxy/response.go:61-73 | `access_token` and `token_type`, `bearer` if empty, always; `refresh_token` and `expires_in` exactly if the link has them; nothing else |
| MagicTarget.MagicForm | internal/proxy/response.go:75-85 | the form has exactly the same fields, as text |
| MagicTarget.MagicTargetURL | internal/proxy/response.go:75-88 | for every link and allowed scheme, reading the deep link gives the scheme and exactly these fields, and it starts with the scheme and `://auth?` |
| MagicTarget.BothEncodings | internal/proxy/response.go:54-88 | the deep link decodes to exactly the JSON blob, for every link and requested scheme |

## Left out

- Rotation.StepInv: does not cover a write that reports failure but takes effect while other runs are active; a late retry of such a write can overwrite a newer token.
- Config.ParseMagicLink: JSON decoding is given by the kind of raw content (empty, rejected, or a document with a link), so which texts decode, and fields of a document other than the link's, are not modelled.
- MagicLinkCache.Cache.Resolve: describes a call that meets no other, as `MagicLinkCache.ResolveRefines` finds it in the protocol; calls that interleave are the subject of the cache protocol.
- SnsHandler.Notifier.Notify: the object calls the channels one after the other; `SnsHandler.AnyRunLogs` carries its promises over to every interleaving.
- SnsHandler.Notifier.Redeliver: one record only, since the code re-invokes the whole event and several records can be re-sent to a channel that acknowledged one of them.
- MagicLinkStore.Store.WithRetry: a limit of zero is not modelled; the program's limit is the constant 3.
- The concrete JSON text of blobs, alarms and responses, and numeric overflow of `expires_in` when decoding it.
- Panics inside a singleflight function.
- The three SSM requests a single source read may make appear in the cache protocol as any number of samples of the store within the read.
- HTTP, AWS, Twitch and Sentry clients, logging, metrics and the delivery of check-ins, except for their outcomes.
- `internal/proxy/services/twitch.go`, `internal/authorizer`, router dispatch, page templates, version and health handlers.
- `truncate`, `discordColor`, `sanitizeQuery`, `redactValue` and environment loading: settled by reading one branch.
- Reading alarms truncated after formatting: `sendTelegram` may cut a tag or an entity in two.
