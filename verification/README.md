# A verified model of the tinvest C++ SDK

The SDK streams market data over a reconnecting bidirectional gRPC call, computes prices in fixed point,
limits and retries unary calls, and backtests simple strategies. This project models those four parts in
Dafny and proves what their source and documentation promise. `dafny verify dfyconfig.toml` checks it all.

## How the model is laid out

**The market-data stream.** `StreamCore` has the state that `mu_` guards and every critical section as a
function on it; `MarketDataStream` is the stream object, whose methods are those sections written statement by
statement and proved equal to the functions. `StreamProtocol` is the whole protocol as a labelled step system:
one step per critical section, and separate steps for what happens outside the lock (bind, begin, each claimed
`RemoveHold`, each notification) and for what gRPC does. Stop, send and start calls come from any number of
threads at any time. Connections are numbered and kept for ever, so a stale pointer is a value like any other,
and an illegal use of a reactor raises a flag that no run may raise. On top of it: `StreamSafety` (hold release,
reactor lifetime, write order), `StreamReplay` (registry against wire), `StreamTermination` (`stop` finishes),
`StreamStop` (what holds when a `stop` call returns), `StreamRuns` (notifications and backoff, whose grammar
and pacing are in `Stories`) and `StreamLoop` (the loop goes on connecting and writing until asked to stop). `Requests` and `Registry` hold the requests, their registry keys and the server's
subscription list that a registry stands for. `ServerStream` is the read-only stream with its smaller reactor,
which shares `Stories`.

gRPC is an environment with stated rules. `OnDone` comes once, and only when no hold is left, the last read has
failed and its callback has returned, and no write or write callback is outstanding. A cancelled call delivers
no further message and its read fails. Writing to, or removing a hold from, a reactor that was destroyed, is
not started, is done or has no hold left is illegal, and so is a second write while one is outstanding. Two
assumptions are made of callers: `start` is not called while a `stop` holds the thread it has moved out and has
not joined, and `stop` is not called from a handler. The server treats a subscribe as replacing, and an
unsubscribe as removing, the entries of the targets it lists.

**Decimals.** `Rounding` is C++ integer division and `div_round` on unbounded integers; `Decimals` adds the
128-bit intermediates, whose overflow is an explicit `Undefined`, and the wrapping narrowing to 64 bits;
`DecimalText` is the printer and the parser.

**Rate limits and retries.** `RateLimits` is one group's fixed-window counter over whole runs of attempts;
`RateLimiter` is the limiter object with groups shared on the heap, and a waiter that other threads get ahead of;
`Unary` is the retry loop over an arbitrary stream of responses, acquiring from a limiter object.

**Backtesting.** `Backtest` is the simulation loop for an arbitrary sequence of actions, so for any strategy.
`TradeLog` reads its report off bars and actions alone. `Averages` and `Momentum` define the indicators on whole
price histories, `ClosedForms` says what they weigh, value by value, `Indicators` has the streaming
objects, `Crossing` and `Strategies` the cross rules, the strategy objects and their way through the backtester;
`Crosses` says of prices when they buy and sell.
All of it is over `real`.

## Where the code and its documents differ

The model follows the code. There is no jitter in the backoff, although docs/ARCHITECTURE.md:104-105 mentions
it. Trading methods are retried like any other, although docs/ARCHITECTURE.md:96-98 says they are not by
default. `CallOptions::retry = true` cannot force a retry (include/tinvest/call_options.hpp:17 says it can): see
`Unary.ForcedRetryIff` and, for an input, `Unary.ForcedRetryIsIgnored`. `stop()` does not always wait for `OnDone`
(docs/ARCHITECTURE.md:113-115): a call that comes while another one is joining the worker returns at once, see
`StreamStop.OtherReturnsAtOnce` and `StreamStop.SecondStopReturnsEarly`. The limiter's table is keyed with one leading slash removed but looked up with the
name as given, so a name passed with a slash is limited only if a row lists it with a second one:
`RateLimiter.SlashedNameListedIff`. The class invariant of `Decimal` (include/tinvest/decimal.hpp:16-19) does not
survive every operation: narrowing a total to 64 bits wraps, and the units can come out with a sign that the
billionths do not have. `Decimals.SumLosesInvariant` gives an input; `Decimals.SumsCanonicalIff`,
`Decimals.ProductsCanonicalIff` and `Decimals.IntegersCanonicalIff` say exactly when it survives. "The caller subscribes once"
(include/tinvest/streams/market_data_stream.hpp:3-5) holds at every (re)connect, but a subscribe that arrives
between the registry snapshot and the publication of the reactor is not written on that connection:
`StreamReplay.WindowLosesSubscribe` exhibits the run, and `StreamReplay.SendKeepsAgreementIff` says exactly
which sends keep registry and wire together.

## Model

| member | source | states |
|---|---|---|
| `Requests.BuildKeys` | src/market_data_stream.cpp:309-354 | one key per instrument, in order, each the key of that instrument's target; no keys for other payloads |
| `Requests.SingleKeepsTarget` | src/market_data_stream.cpp:257-305 | cutting a request to its i-th instrument keeps action and options, and its keys are exactly the i-th key |
| `Requests.KeyInjective` | src/market_data_stream.cpp:307-354 | equal registry keys mean equal kind, resolved id, interval or depth and type, for any id strings, even with bars in them |
| `Requests.SameKeyIffSameFeed` | src/market_data_stream.cpp:309-354 | said of the messages' own fields: two keys are equal if and only if kind, instrument id (or figi where it is empty), and interval or depth and type are |
| `Requests.InstrumentIdWins` | src/market_data_stream.cpp:309-316 | with instrument ids given, keys are equal exactly if the ids are, whatever the figis |
| `Requests.OneKeyPerInstrument` | src/market_data_stream.cpp:309-354 | as many keys as the message lists instruments, for each kind |
| `Requests.OptionsTellApart` | src/market_data_stream.cpp:257-305 | options agree exactly if the messages' option fields do |
| `Registry.RegistryEffect` | src/market_data_stream.cpp:375-383 | remember and forget change, per target, exactly what the request means for that target |
| `Registry.SubscribeIsStored` | src/market_data_stream.cpp:356-394 | a message of any of the five kinds whose action field subscribes is remembered by the registry, and kept by the server, for each of its instruments |
| `Registry.UnsubscribeIsErased` | src/market_data_stream.cpp:356-394 | and one whose action field unsubscribes is erased from both |
| `Registry.OtherMessagesChangeNothing` | src/market_data_stream.cpp:356-373 | other payloads and unspecified actions change neither |
| `Registry.StoredIsTheMessage` | src/market_data_stream.cpp:375-379 | what is stored for an instrument is the message itself, every field of it, with that instrument or a later one of the same feed |
| `Registry.UpdateRepresents` | src/market_data_stream.cpp:375-394 | a remembered request moves the registry and the server list it stands for in step |
| `Registry.ReplayRepresents` | src/market_data_stream.cpp:164-167 | replaying the registry to an empty server, in any order, gives the list the registry stands for |
| `Registry.ReplayCompactsHistory` | src/market_data_stream.cpp:164-167 | for every history of remembered requests, replay in any order equals sending the whole history |
| `MarketDataStream.MarketDataStream.constructor` | include/tinvest/streams/market_data_stream.hpp:111-125 | the initial guarded state |
| `MarketDataStream.QueueAll` | src/market_data_stream.cpp:165-167 | every registered request is queued, and queued once |
| `MarketDataStream.MarketDataStream.Start` | src/market_data_stream.cpp:94-99 | clears stopping and spawns exactly when no thread is joinable |
| `MarketDataStream.MarketDataStream.Stop` | src/market_data_stream.cpp:101-118 | the stop section: flags, claim of the hold, cancellation, and who joins |
| `MarketDataStream.MarketDataStream.Setup` | src/market_data_stream.cpp:155-170 | refuses while stopping without a change; else resets the connection's flags and queues every registered request once |
| `MarketDataStream.MarketDataStream.Publish` | src/market_data_stream.cpp:175-188 | publishes unless done; claims the hold if stopping or broken, else starts a write if one may start |
| `MarketDataStream.MarketDataStream.MaybeWriteLocked` | src/market_data_stream.cpp:195-203 | starts the oldest queued request exactly when published, unbroken, unreleased and idle |
| `MarketDataStream.MarketDataStream.HandleWriteDone` | src/market_data_stream.cpp:205-213 | success frees the slot and starts the next write; failure is treated as a closed read |
| `MarketDataStream.MarketDataStream.HandleReadClosed` | src/market_data_stream.cpp:215-226 | marks the stream broken and claims the hold at most once |
| `MarketDataStream.MarketDataStream.HandleResponse` | src/market_data_stream.cpp:228-239 | reports the first message of a connection as first, and no other |
| `MarketDataStream.MarketDataStream.HandleDone` | src/market_data_stream.cpp:241-247 | unpublishes the reactor and marks the call done |
| `MarketDataStream.MarketDataStream.RememberLocked` | src/market_data_stream.cpp:375-379 | stores one single-instrument request per key |
| `MarketDataStream.MarketDataStream.ForgetLocked` | src/market_data_stream.cpp:381-383 | erases every key of the request |
| `MarketDataStream.MarketDataStream.Send` | src/market_data_stream.cpp:385-401 | the send section: nothing while stopping; registry update if remembered; queued only on a live published connection |
| `StreamProtocol.CallbackIsCurrent` | src/market_data_stream.cpp:62-75 | callbacks only ever run on the open, started, unfinished connection |
| `StreamProtocol.StepKeepsInv` | src/market_data_stream.cpp:94-247 | every step of every thread keeps the protocol invariant |
| `StreamProtocol.RunKeepsInv` | src/market_data_stream.cpp:94-247 | so every run does |
| `StreamSafety.NeverFaults` | src/market_data_stream.cpp:42-81 | no run uses a reactor or context illegally; never two writes outstanding |
| `StreamSafety.HoldRemovedExactlyOnce` | src/market_data_stream.cpp:101-247 | over any number of reconnects each hold is removed at most once, exactly once by OnDone, never after; done implies released |
| `StreamSafety.PointersNeverDangle` | src/market_data_stream.cpp:151-193 | reactor_, ctx_ and every claimed release point at the one live connection; at most one claim is ever pending |
| `StreamSafety.FinishedConnectionIsUnreferenced` | src/market_data_stream.cpp:189-193 | when run_once ends and the reactor is destroyed, the call is done, its hold was removed once, no release is pending and neither reactor_ nor ctx_ points at any connection |
| `StreamSafety.StepKeepsFifo` | src/market_data_stream.cpp:195-213 | every step keeps sent + queued equal to snapshot + accepted sends |
| `StreamSafety.WritesLeaveInOrder` | src/market_data_stream.cpp:195-213 | on every connection of every run, writes are a prefix of the replayed registry followed by the accepted sends |
| `StreamLoop.QueueIsBeingWritten` | src/market_data_stream.cpp:175-213 | in every run a published, unbroken connection with requests queued has a write outstanding, so neither the replay nor a send is left lying |
| `StreamLoop.WriteOkSendsNext` | src/market_data_stream.cpp:195-213 | a completed write starts the oldest queued request, or leaves the connection idle |
| `StreamReplay.SendKeepsAgreementIff` | src/market_data_stream.cpp:385-401 | a send keeps registry and wire in step if and only if it is remembered just when the connection takes it, or the registry already says what it asks |
| `StreamReplay.StepKeepsAgreement` | src/market_data_stream.cpp:151-213 | every step keeps the agreement of registry and wire on a clean journal |
| `StreamReplay.RegistryMatchesWire` | src/market_data_stream.cpp:155-187 | in every run, written + in flight + queued applied to an empty server is exactly the registry, if every effective send since the snapshot was remembered and taken |
| `StreamReplay.RememberedSendsReachWire` | src/market_data_stream.cpp:175-213 | if nothing is sent between snapshot and publication and every later send is to be remembered, then while the connection is open and unbroken the wire gives exactly the registry |
| `StreamReplay.ReconnectReplaysHistory` | src/market_data_stream.cpp:155-170 | at every (re)connect the queued replay has the effect of all requests remembered since the stream was made |
| `StreamReplay.WindowLosesSubscribe` | src/market_data_stream.cpp:164-187 | for every subscribe naming a target, a run whose published, unbroken connection never gets it |
| `StreamTermination.StoppingCancelsAndClaims` | src/market_data_stream.cpp:101-118 | in every reachable stopping state the open context is cancelled and a published hold is claimed |
| `StreamTermination.SomeStepEnabled` | src/market_data_stream.cpp:120-193 | while stopping, until the worker is joined, some own step is enabled |
| `StreamTermination.CallsDoNotDelay` | src/market_data_stream.cpp:385-387 | further stop and send calls never raise the rank; start must wait for the end |
| `StreamTermination.RankBoundsOwnSteps` | src/market_data_stream.cpp:101-226 | each own step of a stopping stream lowers the rank |
| `StreamTermination.StopAlwaysFinishes` | src/market_data_stream.cpp:101-149 | from any reachable stopping state: a bounded number of own steps, never stuck before the join, and then stopped was the last notification |
| `StreamStop.MoverReturnsWhenOver` | src/market_data_stream.cpp:101-118 | from the moment a stop call has moved the thread until it joins it the worker is not gone and no other call moves a thread; when it returns every connection is done and destroyed and stopped was told last |
| `StreamStop.OtherReturnsAtOnce` | src/market_data_stream.cpp:101-118 | a stop call that moves no thread returns at once, and then everything is over if and only if no other stop call is still joining |
| `StreamStop.SecondStopReturnsEarly` | src/market_data_stream.cpp:114-117 | in every state with an open connection, the second of two stop calls returns with its reactor alive and the worker running |
| `StreamStop.SecondStopHappens` | src/market_data_stream.cpp:114-117 | a run reaches such a state |
| `StreamRuns.StepTells` | src/market_data_stream.cpp:120-149 | every step keeps the notifications in step with the worker and the read callback |
| `StreamRuns.ExitedStoryIsComplete` | src/market_data_stream.cpp:120-149 | a finished run notified (connecting connected? disconnected)* (connecting connected?)? stopped |
| `Stories.Healthy` | src/market_data_stream.cpp:133-143 | the latest connection up to a break that carried data, or the first |
| `StreamRuns.RunTallies` | src/market_data_stream.cpp:133-139 | in every run a break counts as having carried data exactly if its round of notifications has a connected in it |
| `StreamRuns.BackoffFollowsHealth` | src/market_data_stream.cpp:133-146 | the k-th break waits min(max, initial * 2^min(e, 8)), e its distance from the latest connection told as connected, or from the first |
| `StreamLoop.StopsOnlyWhenAsked` | src/market_data_stream.cpp:120-149 | in every run stopping_ is set exactly if a stop was asked for since the latest start, and with reconnection on the worker leaves its loop only then |
| `StreamLoop.BreakIsFollowedByConnection` | src/market_data_stream.cpp:120-170 | with reconnection on and no stop asked for, a connection that is done is followed by a new one whose queue is the registry |
| `StreamLoop.StartConnects` | src/market_data_stream.cpp:94-170 | a start of a stream that is over, first or again, opens a connection |
| `StreamLoop.SecondConnectionHappens` | src/market_data_stream.cpp:120-149 | a run that opens a second connection after the first broke |
| `StreamLoop.NoReconnectBreaksOnce` | src/market_data_stream.cpp:139-140 | with reconnection off a start tells at most one break, never waits, and leaves the loop |
| `StreamLoop.FirstMessageIsTold` | src/market_data_stream.cpp:228-239 | the first message of a connection makes it told as connected before it is dispatched, later ones do not |
| `ServerStream.ServerStream.Start` | include/tinvest/streams/server_stream.hpp:68-73 | clears stopping and spawns exactly when no thread is joinable |
| `ServerStream.ServerStream.Stop` | include/tinvest/streams/server_stream.hpp:75-85 | the stop section: flag, cancellation of an open context, and who joins |
| `ServerStream.ServerStream.Open` | include/tinvest/streams/server_stream.hpp:141-150 | refuses while stopping without a change; else the context is set and done cleared |
| `ServerStream.ServerStream.HandleData` | include/tinvest/streams/server_stream.hpp:159-166 | reports the first message of a connection as first, and no other |
| `ServerStream.StepKeepsInv` | include/tinvest/streams/server_stream.hpp:68-173 | every step of every thread keeps calls, threads, notifications and backoff consistent |
| `ServerStream.RunsTellAndPace` | include/tinvest/streams/server_stream.hpp:109-139 | in every run no callback meets a destroyed reactor; a finished run notified the same grammar; each break waits the same backoff by distance from the latest connection told as connected |
| `ServerStream.StopAlwaysFinishes` | include/tinvest/streams/server_stream.hpp:75-157 | from any reachable stopping state: a bounded number of own steps, never stuck before the join, and then stopped was told last |
| `ServerStream.StopsOnlyWhenAsked` | include/tinvest/streams/server_stream.hpp:109-139 | stopping_ is set exactly if a stop was asked for since the latest start; with reconnection on the worker leaves its loop only then, with it off after one break |
| `ServerStream.BreakIsFollowedByConnection` | include/tinvest/streams/server_stream.hpp:109-150 | with reconnection on and no stop asked for, a connection that is done is followed by the next |
| `ServerStream.FirstMessageIsTold` | include/tinvest/streams/server_stream.hpp:159-166 | the first message of a connection makes it told as connected, later ones do not |
| `Rounding.TruncUnique` | include/tinvest/decimal.hpp:108-113 | a quotient and remainder of the right sign and size are the truncating ones |
| `Rounding.RoundedNearest` | include/tinvest/decimal.hpp:114-117 | div_round is a nearest integer, away from zero on ties, for all signs |
| `Rounding.NearestAwayUnique` | include/tinvest/decimal.hpp:73-77 | the two conditions determine the result |
| `Rounding.RoundedOdd` | include/tinvest/decimal.hpp:114-117 | div_round is odd in each argument |
| `Decimals.Normalize` | include/tinvest/decimal.hpp:118-130 | canonical with the same total; undefined exactly when the total is not representable |
| `Decimals.FromTotalExact` | include/tinvest/decimal.hpp:108-113 | a total becomes a decimal of that total if and only if it is representable, and then a canonical one |
| `Decimals.FromTotalCanonicalIff` | include/tinvest/decimal.hpp:108-113 | a total becomes a canonical decimal if and only if it is whole, or its whole units modulo 2^64 are in the 64-bit range on its side of zero |
| `Decimals.CanonicalByTotal` | include/tinvest/decimal.hpp:105-113 | a canonical decimal is determined by its total |
| `Decimals.EqualIffSameTotal` | include/tinvest/decimal.hpp:93-102 | field equality agrees with total order on canonical decimals |
| `Decimals.EqualTotalsDiffer` | include/tinvest/decimal.hpp:93-102 | a sum of canonical decimals and a decimal that == tells apart and < does not |
| `Decimals.ResultsAreStored` | include/tinvest/decimal.hpp:108-113 | every operator returns 64-bit units and under a billion billionths, so operators can be chained |
| `Decimals.OnlyProductsOverflow` | include/tinvest/decimal.hpp:65-87 | on whatever operators return, sum, difference, negation and nonzero quotient never overflow; a zero divisor is undefined |
| `Decimals.ProductDefined` | include/tinvest/decimal.hpp:73-77 | a product is defined, and is the rounded exact one, if and only if the exact one stays half a billion inside the 128-bit range |
| `Decimals.SumsAreExact` | include/tinvest/decimal.hpp:65-71 | sums, differences and negations are exact and canonical if and only if the exact result is representable |
| `Decimals.ProductsRound` | include/tinvest/decimal.hpp:75-87 | products and quotients are canonical and correctly rounded if and only if they are defined and the rounded result is representable |
| `Decimals.IntegerOperands` | include/tinvest/decimal.hpp:78-84 | by an integer: exact products and nearest quotients if and only if they fit; a quotient is undefined only by zero |
| `Decimals.SumsCanonicalIff` | include/tinvest/decimal.hpp:65-71 | exactly when a sum, difference or negation keeps the class invariant |
| `Decimals.ProductsCanonicalIff` | include/tinvest/decimal.hpp:75-87 | exactly when a product or quotient does |
| `Decimals.IntegersCanonicalIff` | include/tinvest/decimal.hpp:78-84 | exactly when a product or quotient by an integer does |
| `Decimals.SumLosesInvariant` | include/tinvest/decimal.hpp:65-67 | two canonical decimals whose sum is not canonical |
| `Decimals.MulDivUndo` | include/tinvest/decimal.hpp:75-87 | (a * b) / b == a whenever abs(b) >= 1 and the product fits |
| `Decimals.DivMulUndo` | include/tinvest/decimal.hpp:75-87 | (a / b) * b == a whenever 0 < abs(b) <= 1 and the quotient fits |
| `Decimals.MulUndoneIff` | include/tinvest/decimal.hpp:75-87 | division undoes multiplication by b for every a that fits if and only if abs(b) >= 1 |
| `Decimals.DivUndoneIff` | include/tinvest/decimal.hpp:75-87 | multiplication undoes division by b for every a that fits if and only if abs(b) <= 1 |
| `DecimalText.FromString` | include/tinvest/decimal.hpp:159-187 | the parsing loops compute the reading function |
| `DecimalText.NumeralIsRead` | include/tinvest/decimal.hpp:159-187 | every numeral is read as what it denotes, overflowing exactly from 2^63 |
| `DecimalText.PlainNumeralsAreRead` | include/tinvest/decimal.hpp:159-187 | said of characters: optional sign, digits, point or comma, digits, are read as sign, units and billionths |
| `DecimalText.AcceptedCharacters` | include/tinvest/decimal.hpp:159-187 | an accepted text has a digit, at most one sign, in front, at most one separator, and nothing else |
| `DecimalText.ReadsTheExample` | include/tinvest/decimal.hpp:39-40 | the header's example is read as it says |
| `DecimalText.AcceptedIsNumeral` | include/tinvest/decimal.hpp:159-187 | only an optional sign, digits and an optional fraction with a digit somewhere are accepted |
| `DecimalText.MeaningIsExact` | include/tinvest/decimal.hpp:173-186 | the accepted value is canonical with the numeral's sign, units and billionths |
| `DecimalText.BillionthsTruncate` | include/tinvest/decimal.hpp:39-40 | digits past the ninth are cut toward zero |
| `DecimalText.ToString` | include/tinvest/decimal.hpp:136-157 | sign, units and the shortest fraction worth exactly the nano part |
| `DecimalText.PrintedIsShortest` | include/tinvest/decimal.hpp:136-157 | a minus exactly for negative decimals and never a plus, no leading zeros, a point exactly if there are billionths, and then no trailing zero |
| `DecimalText.PrintedIsReadBack` | include/tinvest/decimal.hpp:136-187 | reading back a printed decimal gives it if and only if it is canonical with units > -2^63 |
| `RateLimits.EnterKeepsSound` | include/tinvest/rate_limiter.hpp:77-105 | every attempt keeps count, window and grant history consistent |
| `RateLimits.WindowHoldsLimit` | include/tinvest/rate_limiter.hpp:77-105 | a counted window holds at most limit grants, and windows are a length apart |
| `RateLimits.IntervalHoldsTwiceLimit` | include/tinvest/rate_limiter.hpp:77-105 | in every run any half-open interval of one length holds at most 2 * limit grants |
| `RateLimits.TwiceLimitIsReached` | include/tinvest/rate_limiter.hpp:98-105 | for every limit that bound is attained across a window boundary |
| `RateLimits.RefusalIsDue` | include/tinvest/rate_limiter.hpp:77-89 | an attempt is refused if and only if exactly limit grants were counted in a window that is still open |
| `RateLimits.UnrestrictedNeverRefuses` | include/tinvest/rate_limiter.hpp:31-32 | a limit of zero or below never refuses |
| `RateLimits.PassedOverOnlyByOthers` | include/tinvest/rate_limiter.hpp:64-73 | whatever other threads do, a waiter refused again after its window is over was passed over by limit new grants of others in between; a lone waiter is served there |
| `RateLimits.ServedTakesOneSlot` | include/tinvest/rate_limiter.hpp:64-73 | a served waiter's slot is one new grant, at its last reading |
| `RateLimiter.RateLimiter.Configure` | include/tinvest/rate_limiter.hpp:31-42 | one fresh group per row; each method goes to the last row listing it; no other method is in the table |
| `RateLimiter.RateLimiter.SetLimit` | include/tinvest/rate_limiter.hpp:44-51 | all listed methods share one fresh group; the others keep theirs |
| `RateLimiter.RateLimiter.TryAcquire` | include/tinvest/rate_limiter.hpp:76-89 | unlisted methods and unrestricted groups pass; a listed one makes one attempt on its group, is refused exactly when the counter refuses, and touches no other group |
| `RateLimiter.RateLimiter.RollWindow` | include/tinvest/rate_limiter.hpp:98-105 | restarts the count exactly when the window has run out |
| `RateLimiter.RateLimiter.Acquire` | include/tinvest/rate_limiter.hpp:58-74 | with any attempts of other threads between its turns, the waiter is served in its first turn that is not refused, in its very first if the group is unrestricted, and the group has seen exactly the attempts made meanwhile |
| `RateLimiter.ListsIff` | include/tinvest/rate_limiter.hpp:107-110 | a method is in the table if and only if it was listed as it is, without a slash, or with one put before it |
| `RateLimiter.SlashedNameListedIff` | include/tinvest/rate_limiter.hpp:107-110 | a name with a leading slash is limited if and only if a row lists it with a second slash |
| `RateLimiter.ReportedNameIsNotLimited` | include/tinvest/rate_limiter.hpp:31-42 | a row that lists a slashed name limits the bare name and not the slashed one |
| `Unary.UnarySync` | include/tinvest/detail/unary.hpp:55-87 | returns the first response that is OK, not retryable, at the cap or too long to wait for; each attempt acquires from the limiter and gets one slot of the method's group, other groups stay untouched; total sleep at most (attempts - 1) * max_wait |
| `Unary.AttemptsAreGrants` | include/tinvest/detail/unary.hpp:59-60 | each attempt of a call is one grant of its own in the group's ledger, at the reading that served it |
| `Unary.AttemptsAreLimited` | include/tinvest/detail/unary.hpp:59-60 | of one call's attempts at most 2 * limit start within one window length |
| `Unary.OverrideOnlyNarrows` | include/tinvest/detail/unary.hpp:68-73 | retry = true changes nothing, retry = false ends every call at its first attempt |
| `Unary.ForcedRetryIff` | include/tinvest/detail/unary.hpp:68-85 | with retry = true a retry comes if and only if the policy retries that code anyway and cap and wait allow it |
| `Unary.ForcedRetryIsIgnored` | include/tinvest/detail/unary.hpp:68-73 | with retry = true an unavailable service still ends the call at its first attempt if the policy does not retry it |
| `Unary.StubbornFailureTakesAllAttempts` | include/tinvest/detail/unary.hpp:72-73 | failures that may be retried and waited for take max(1, max_attempts) attempts, no fewer and no more |
| `Unary.WaitAfterExhaustion` | include/tinvest/detail/unary.hpp:75-80 | after RESOURCE_EXHAUSTED the wait is the reported reset and 200 ms, or a second per attempt made |
| `Unary.WaitAfterUnavailable` | include/tinvest/detail/unary.hpp:81-83 | otherwise 100 ms, doubled per attempt up to the ninth |
| `Unary.SleepsEachWait` | include/tinvest/detail/unary.hpp:84-85 | the whole wait is slept before each retry |
| `Backtest.RunBacktest` | include/tinvest/algo/backtest.hpp:36-109 | the loop computes the simulation, for any closes; report fields and per-bar returns follow from it, the forced close included, with the percentages that divide by a zero price infinite or no number |
| `Backtest.CountWins` | include/tinvest/algo/backtest.hpp:105-107 | counts the trades with a positive return |
| `Backtest.EquityIsProductOfTrades` | include/tinvest/algo/backtest.hpp:56-101 | for every action sequence and positive closes every return is finite and final equity is the product of 1 + return/100 over the trade log |
| `Backtest.TradesNeverOverlap` | include/tinvest/algo/backtest.hpp:61-98 | with bars in time order, trade intervals are disjoint and in order |
| `Backtest.DrawdownIsLargestFall` | include/tinvest/algo/backtest.hpp:80-84 | the one-pass drawdown is the maximum relative fall over all pairs of the equity curve, and lies in [0, 100) |
| `Backtest.ReturnsCompound` | include/tinvest/algo/backtest.hpp:52-80 | one return per bar, and the first k of them compound to the k-th point of the equity curve |
| `TradeLog.LogIsRoundTrips` | include/tinvest/algo/backtest.hpp:56-98 | for every action sequence the log is exactly the round trips read off the actions, with the last position closed at the last bar |
| `TradeLog.TradeMeans` | include/tinvest/algo/backtest.hpp:61-98 | every trade goes from a buy to the next sell or the last bar, with those bars' times and closes, and its growth takes entry price to exit price less both fees |
| `TradeLog.EquityAfterEachBar` | include/tinvest/algo/backtest.hpp:56-78 | equity after every bar is the product of the round trips so far times, in the market, one fee and the price change since entry |
| `TradeLog.HoldMeans` | include/tinvest/algo/backtest.hpp:102-103 | the first close grown by the buy-and-hold return is the last |
| `TradeLog.TotalMeans` | include/tinvest/algo/backtest.hpp:101-101 | 1 grown by the total return is the final equity |
| `TradeLog.WinRateMeans` | include/tinvest/algo/backtest.hpp:105-109 | the win rate is the share of trades that grew |
| `Averages.ExpMeanInRange` | include/tinvest/algo/indicators.hpp:42-52 | the exponential average stays within any bounds of the values seen |
| `ClosedForms.LastNElements` | include/tinvest/algo/indicators.hpp:18-25 | the window holds the values pushed last, in order |
| `ClosedForms.MeanTimesCount` | include/tinvest/algo/indicators.hpp:29-29 | a mean times the number of values is their sum |
| `ClosedForms.ExpMeanClosedForm` | include/tinvest/algo/indicators.hpp:42-52 | the value pushed j steps ago weighs k * (1 - k)^j, the first mean the rest, with k * (period + 1) == 2 |
| `ClosedForms.WilderClosedForm` | include/tinvest/algo/indicators.hpp:69-91 | the same for Wilder's average with k * period == 1 |
| `ClosedForms.ChangesElements` | include/tinvest/algo/indicators.hpp:69-80 | of rise and fall one is zero, neither negative, and their difference is the change |
| `ClosedForms.LinesElements` | include/tinvest/algo/indicators.hpp:114-120 | each line value is the difference of the averages of the prices up to its bar |
| `Momentum.IndexInRange` | include/tinvest/algo/indicators.hpp:93-97 | the relative strength index lies in [0, 100] |
| `Momentum.StrengthIsShare` | include/tinvest/algo/indicators.hpp:93-97 | the index is the share of average gain in all change, or 100 when nothing changed |
| `Momentum.MirrorsAddUp` | include/tinvest/algo/indicators.hpp:69-97 | a history and its mirror image add up to 100 unless both averages are zero |
| `Indicators.Sma.Push` | include/tinvest/algo/indicators.hpp:18-25 | window and running sum stay those of the last period values |
| `Indicators.Sma.Ready` | include/tinvest/algo/indicators.hpp:26-28 | ready exactly from push number period on |
| `Indicators.Sma.Value` | include/tinvest/algo/indicators.hpp:29-29 | the mean of the last period values |
| `Indicators.Ema.Push` | include/tinvest/algo/indicators.hpp:42-52 | the running value stays the offline exponential average, seeded with a simple mean |
| `Indicators.Rsi.Push` | include/tinvest/algo/indicators.hpp:69-91 | the running averages stay Wilder's averages of the whole history |
| `Indicators.Rsi.Value` | include/tinvest/algo/indicators.hpp:93-97 | the index of the history, within [0, 100] |
| `Indicators.Macd.Push` | include/tinvest/algo/indicators.hpp:114-120 | ready exactly from push max(fast, slow) + signal - 1 on |
| `Indicators.Macd.Histogram` | include/tinvest/algo/indicators.hpp:121-123 | the last line value less the exponential average of all line values |
| `Crossing.ActionsFollowSides` | include/tinvest/algo/strategies.hpp:20-33 | orders follow the latest known side and never repeat |
| `Crossing.BothSidesGiveOrders` | include/tinvest/algo/strategies.hpp:20-33 | once both sides have been seen there was an order, and the last one is a buy if and only if the latest side is above |
| `Crosses.SmaOrders` | include/tinvest/algo/strategies.hpp:20-33 | said of the simple averages: a buy on going above, a sell on going back, nothing else, and nothing before the slow window is full |
| `Crosses.EmaOrders` | include/tinvest/algo/strategies.hpp:48-61 | the same of the exponential averages |
| `Crosses.MacdOrders` | include/tinvest/algo/strategies.hpp:121-133 | the same of the difference and its own average |
| `Crosses.SmaBuysOnRise` | include/tinvest/algo/strategies.hpp:20-33 | after calm prices the next close is bought exactly if it is higher |
| `Crosses.EmaBuysOnRise` | include/tinvest/algo/strategies.hpp:48-61 | the same |
| `Crosses.MacdBuysOnRise` | include/tinvest/algo/strategies.hpp:121-133 | the same, with a signal period above one |
| `Crossing.CrossOrdersAlternate` | include/tinvest/algo/strategies.hpp:48-61 | between two equal orders of a cross strategy there is an opposite one, on every history |
| `Crossing.TradesAreBuys` | include/tinvest/algo/backtest.hpp:61-78 | on alternating orders trades equals buys, and every sell closes a trade except one that is the first order |
| `Crossing.CrossTradesAreBuys` | include/tinvest/algo/backtest.hpp:61-98 | so for every cross strategy and price history |
| `Crossing.ActionsAffine` | include/tinvest/algo/strategies.hpp:121-133 | actions of the cross rules are unchanged by any positive affine rescaling of prices |
| `Strategies.SmaCross.OnBar` | include/tinvest/algo/strategies.hpp:20-33 | the object answers its rule's action on the whole history |
| `Strategies.EmaCross.OnBar` | include/tinvest/algo/strategies.hpp:48-61 | the object answers its rule's action on the whole history |
| `Strategies.MacdCross.OnBar` | include/tinvest/algo/strategies.hpp:121-133 | the object answers its rule's action on the whole history |
| `Strategies.Drive` | include/tinvest/algo/backtest.hpp:56-61 | shown bar after bar, a strategy object answers its rule's actions on all it has seen |
| `Strategies.BacktestStrategy` | include/tinvest/algo/backtest.hpp:36-109 | backtesting a strategy object: the report is that of its rule's actions, trades equals buys, the only order ignored is a first sell |

## Left out

- `ServerStream.RunsTellAndPace`: the ping filter and the user's data callback are not modelled, and neither is what a second concurrent `stop` may rely on, which is as for the market-data stream.
- gRPC, protobuf, TLS, channel setup and metadata: only the reactor rules above are kept; message contents beyond the subscribe payloads are not modelled.
- Data races on fields read outside the lock (`got_data_` in `run`): steps are sequentially consistent.
- `MarketDataStream.MarketDataStream.Setup`: walks the registry in any order, not in key order; everything is proved for every order.
- The attempt counter and the backoff are unbounded integers, so an overflow after 2^31 breaks without data is not modelled.
- `RateLimiter.RateLimiter.Acquire`: clock readings and the attempts of other threads are inputs, and calls that rebuild the table meanwhile are not, since the waiter keeps its group. Fairness between waiters is not promised by the code and not modelled.
- `Unary.UnarySync`: responses and the limiter's turns are arbitrary inputs; a call whose turns run out is reported as still waiting. `unary_async` and `make_error` are not modelled.
- `Backtest.RunBacktest`: a price of negative zero, which would turn the sign of an infinite percentage, does not exist over `real`; the Sharpe ratio, which rests on a square root, is not modelled.
- Floating point: the algorithms are modelled over `real`, without rounding; `from_double` and `to_double` are not modelled.
- `Indicators.Sma.Push`: periods are at least one, as for every indicator; a window of zero values has no mean.
- Bollinger bands, the Donchian channel, RSI reversion and their strategies: window extrema and single comparisons would only add easy members.
- `awaitable.hpp`, `services.hpp`, `dispatch` and the convenience subscribe builders: coroutine plumbing, generated wrappers and case splits.
