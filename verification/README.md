# haprovider: what its state machines promise

haprovider is a failover proxy for JSON-RPC over HTTP and WebSocket. This project models the parts
of it that hold state, interleave or loop with a purpose, and proves what they promise.

* **The WebSocket relay** (`Connections`, `CloseProtocol`, `Relay`, `RelayControl`, `RelayInvariant`,
  `Pipelines`, `RelayRequests`, `RelayResponses`, `RelayAttribution`, `RelayAnswers`, `RelayMarks`,
  `RelayScripts`, `RelayStuck`, `RelayTeardown`, `RelayEndings`, `RelayHistory`, `RelayFlush`).
  The client pump, the provider pump, both write pumps, the handler and the outside world are one
  step system. A step runs from one point where a goroutine waits, or takes or gives up a lock, to
  the next; a run is any list of actions, and an action that is not enabled does nothing. So each
  theorem about `Run(judge, policy, actions)` is about every interleaving, and about any chain: `judge` is any
  reaction to error responses, `HandlerOf(kind)` that of a chain. `CloseProtocol` does the
  same for one connection with any number of callers.
* **The HTTP failover loop** (`Rpc`, `Chains`, `Providers`, `Upstream`, `ResponseMethods`, `Failover`,
  `FailoverLoop`, `FailoverLaws`, `FailoverHealth`). The loop is a method over `Provider` objects changed in place, with
  an arbitrary upstream and arbitrary traffic of other requests before, during and after each turn; it
  is proved against a description without a loop (`Failover`), about which the laws are then proved.
* **Health** (`Endpoints`, `Healthcheck`, `Traffic`, `Backoff`). Checks of one endpoint interleave at every lock;
  the worker's loop meets arbitrary traffic.
* **Label admission** (`Labels`), **the shutdown tracker** (`Tracker`), **coalescing** (`Coalesce`) and
  **paths and re-serialisation** (`Paths`, `Rpc`).
* `Runs` says of any step system what its flags tell about a run, `Subsequences` what an in-order part is.

`dafny verify dfyconfig.toml` checks everything.

## Where the code does not do what one would expect

Each is a lemma with an input that shows it, next to the exact condition under which the code does.

* Sending a response on keeps one shape of message whole and drops what does not belong to it: a method
  drives out id, result and error, so that even an error stops being one (`Rpc.MethodLosesIdAndResult`,
  `Rpc.MethodHidesError`); an error drives out a result, and so does `"error": null`, which is no error to
  the rest of the code (`Rpc.ErrorLosesResult`, `Rpc.NullErrorLosesResult`); params need a method
  (`Rpc.ParamsNeedMethod`). When each field survives is `Rpc.FieldsSurvive`, when what the code reads from
  it does is `Rpc.ReadingsSurvive`, and nothing changes exactly for a notification, an error or a result on
  its own (`Rpc.UnchangedExactly`).
* The key of an id forgets that a string is one, so `1` and `"1"` share a key (`Rpc.KeyIsNotInjective`); no other
  pair of different ids does (`Rpc.KeysCoincideExactly`).
* A response is held against the latest request under its key that no response has followed. So with several
  requests in flight under one key the relay goes wrong in three ways: a refusal of the earlier method is held
  against the later (`RelayScripts.SharedKeyMisattributes`); after one of two equal requests was answered, the other's
  refusal is held against whatever was asked for since (`RelayScripts.LateRefusalMisattributes`), or against nothing
  (`RelayScripts.SecondRefusalIsLost`). All three happen, on every chain with refusals (`RelayScripts.EthereumTells` has
  the messages for one). The relay is right about every request a response may answer exactly when those requests name
  one method and no two responses under a key come in a row while a request that names a
  method is owed its answer (`RelayAnswers.AttributionExactly`).
* The live relay can get stuck: one batch of 33 requests and 33 provider frames suffice
  (`RelayStuck.DoubleFullIsReachable`). It is the only way (`RelayStuck.StuckExactly`), and only the end of a
  context resolves it (`RelayStuck.DoubleFullStays`). The comments on `sendRequest` and `sendResponse` say
  that a pump can never block forever on a pump that has gone, which does hold
  (`RelayTeardown.TeardownAlwaysFinishes`).
* The lag test adds in 64 bits: at the very end of the range a provider ahead of the tip is turned
  away (`Endpoints.WrapRejectsLeader`, exact condition in `Endpoints.LagTestExactly`).
* A check compares against the tip as it was when read, so it may pass behind a tip raised in between
  (`Healthcheck.StaleTipLetsLaggardPass`): exactly when a check that reports too much for it has passed since its
  read (`Healthcheck.LaggardExactly`).
* A check that is turned away as behind may still have named the chain (`Healthcheck.FailedCheckNamesChain`):
  exactly when it is the first to report a chain id and later reads a tip too far ahead
  (`Healthcheck.FailedNamerExactly`).
* A Retry-After is multiplied out in 64 bits: beyond 9223372036 seconds the product wraps, at first to a time long past
  (`Providers.LongestRetryAfterIsLost`); up to there it is kept to exactly (`Providers.RetryAfterExactly`).
* The denial of a request that names no method sets no flag (`FailoverLaws.FlagsExactly`), so a pass in which nothing
  else is denied ends in "no providers available" (`FailoverLaws.UnnamedDenialsEndUnavailable`, with one such request in
  `FailoverLaws.UnnamedRequestIsDenied`).

## Model

| member | source | states |
|---|---|---|
| RelayRequests.RequestsAreConserved | internal/ws/ws.go:313-376 | while the provider connection lives, the requests on its wire, in its send queue, in the pumps' hands and in the channel are, in order, exactly the accepted client requests |
| RelayRequests.ProviderReceivesInOrder | internal/ws/ws.go:366-376 | after any teardown the provider's wire is an in-order part of the accepted requests, nothing twice or invented; a prefix while its connection lives |
| RelayRequests.StepMoves | internal/ws/ws.go:221-245 | every step of the relay is one move of a first-in first-out line from client to provider |
| Pipelines.AdvanceConserves | internal/ws/ws.go:198-209 | each move of such a line keeps its content in order, and loses some only if the move says so |
| RelayResponses.ResponsesAreConserved | internal/ws/ws.go:246-308 | while the client connection lives, wire, queue, hands and channel hold exactly the provider's frames in order, and the rejections made here likewise |
| RelayResponses.ClientReceivesInOrder | internal/ws/ws.go:378-389 | what the client is sent splits into an in-order part of the provider's frames and an in-order part of the rejections; prefixes while its connection lives |
| RelayResponses.RunConservesRejections | internal/ws/ws.go:350-355 | every run sends one rejection per member of a rejected batch, in order, and loses some only once the client's connection has ended |
| RelayAttribution.PendingIsLatest | internal/ws/ws.go:215-264 | in every reachable state pending maps a key exactly to the method of the latest request with it that no response has followed |
| RelayAnswers.ResponseFindsItsRequest | internal/ws/ws.go:256-264 | while at most one request per key is owed its answer, a response is held against exactly the request it answers |
| RelayMarks.FlagsAreExplained | internal/ws/ws.go:273-304 | after any run, and whatever others do to the provider in between: it is flagged for exactly the methods it was flagged for before and those refusals were held against, as far as others leave that flag alone, and online exactly if it was and no response said it is unhealthy, as far as others leave its health alone |
| RelayHistory.HistoryIsFaithful | internal/ws/ws.go:221-264 | in every run the responses of the recorded history are exactly the decoded frames read from the provider, in order, and while its connection lives the requests of it are exactly those written, queued or in hand |
| RelayEndings.FatalReplyEndsRelay | internal/ws/ws.go:294-300 | in every run, once a reply said the provider is unhealthy the proxy has ended or the pump holds that reply as its last one; a reply is the last one exactly when it says so |
| RelayEndings.LastResponseCloses | internal/ws/ws.go:295-299 | whether the last reply reaches the client pump or not, the proxy has ended then and the pump begins to close both connections |
| RelayEndings.ConnectionsEndExactly | internal/ws/core.go:88-160 | in every run a connection has ended exactly when a read, write or ping failed or a closer ended it, and was sent a close frame exactly when a closer handed one over, on either side |
| RelayEndings.GoodbyesAreLast | internal/ws/core.go:149-160 | in every run, on both connections: a write pump that is gone while the connection lives has sent a close frame last, and nothing follows a close frame |
| RelayEndings.ProxyEndsExactly | internal/ws/ws.go:246-339 | in every run the proxy has ended exactly when the eleventh bad frame in a row was read, garbage came from the provider, the last reply was dealt with, or the handler finished closing |
| RelayEndings.ClosedFirst | internal/ws/ws.go:538-573 | which connection each goroutine closes first, and that only the other one is closed when one has ended by itself |
| RelayEndings.BadFramesAreCounted | internal/ws/ws.go:321-344 | in every run the count is that of the bad frames since the last good one; once it passes ten the proxy has ended and the client pump closes both connections, which it does in no other case |
| RelayEndings.BadFramesAre | internal/ws/ws.go:321-328 | bad is what does not decode, an empty batch, and a batch of more than 100 |
| RelayFlush.ClientTurnAnswersAll | internal/ws/ws.go:378-389 | a client pump that takes a response hands on all that wait, in order, before it selects again |
| RelayFlush.ProviderTurnForwardsAll | internal/ws/ws.go:225-244 | a provider pump that takes a request forwards all that wait, in order, before it selects again |
| RelayFlush.WaitsEnd | internal/ws/ws.go:184-209 | each wait of a pump ends when any context it listens to has: all three for a request, the proxy's and the provider's for a response, the connection's own for a write or a select |
| RelayFlush.BurstsWait | internal/ws/core.go:54-62 | of any burst of client frames exactly the first 32 wait, in order |
| RelayFlush.RepliesWait | internal/ws/core.go:54-62 | the same for frames from the provider |
| RelayAnswers.AttributionExactly | internal/ws/ws.go:215-264 | one response answers one request: every response is held against the method of each request it may answer exactly when those name one method and no two responses under a key come in a row while a request that names a method is owed |
| RelayAnswers.HeldAgainstLatest | internal/ws/ws.go:215-264 | a response is held against the latest request under its key, which it may answer, and against nothing if another response has come since |
| RelayScripts.ConversationHappens | internal/ws/ws.go:221-392 | every conversation of up to 32 allowed requests and harmless replies is a run of the relay, with exactly that history |
| RelayScripts.SharedKeyMisattributes | internal/ws/ws.go:215-281 | a run with two requests under one key and a refusal: it is held against the second, though it may answer the first |
| RelayScripts.LateRefusalMisattributes | internal/ws/ws.go:256-281 | a run in which one of two equal requests is answered, another method is asked for, and the other request's refusal is held against that method |
| RelayScripts.SecondRefusalIsLost | internal/ws/ws.go:256-264 | a run in which the second answer to two equal requests is a refusal and is held against nothing |
| RelayScripts.EthereumTells | internal/chain/eth/eth.go:76-101 | Ethereum requests, a result and a refusal with which these runs happen |
| RelayStuck.StuckExactly | internal/ws/ws.go:184-209 | with all contexts live nothing inside can move exactly when everything is at rest or both channels hold 32 and both pumps are sending; only in the latter case does a pump hold a message |
| RelayStuck.DoubleFullStays | internal/ws/ws.go:198-209 | the double-full state lasts until some context ends, whatever arrives |
| RelayStuck.DoubleFullIsReachable | internal/ws/ws.go:366-376 | it can be reached from the start on every chain |
| RelayStuck.CloserCanMove | internal/ws/core.go:88-107 | a goroutine inside Close never waits alone: it, its write pump or the one closing the same connection can move |
| RelayTeardown.NextTowardsEnd | internal/ws/ws.go:538-573 | once some context is done and not everything has ended, some internal step is enabled |
| RelayTeardown.StepWorks | internal/ws/ws.go:221-392 | in any state every internal step uses up work, which only arriving frames and failures add to |
| RelayTeardown.LeftAloneItHalts | internal/ws/ws.go:221-392 | every sequence of enabled internal steps, from any state, is no longer than the work there is |
| RelayTeardown.TeardownAlwaysFinishes | internal/ws/ws.go:538-573 | once some context is done, every way in which the relay goes on by itself is bounded and can go no further exactly when every goroutine has returned and both connections are closed |
| RelayTeardown.DisturbanceEndsIt | internal/ws/ws.go:538-573 | in any reachable state a failing read, write or ping on either side, the primary coming back or a shutdown ends everything, on every way the relay may go on |
| RelayTeardown.LiveRelaySettles | internal/ws/ws.go:184-209 | while all contexts live it comes to rest by itself too, and rest means idle or double-full |
| RelayTeardown.TeardownCanAlwaysFinish | internal/ws/ws.go:538-573 | from any such state there is such a way to the end |
| RelayTeardown.NobodyIsLeftOpen | internal/ws/ws.go:559-571 | once some context is done, a connection that is still open is being closed, is on somebody's list to close, or the handler's select will see to it |
| RelayTeardown.NextForClientPump | internal/ws/ws.go:313-392 | with both connections done every wait point of the client pump has an enabled exit |
| RelayTeardown.NextForProviderPump | internal/ws/ws.go:221-311 | with both connections done every wait point of the provider pump has an enabled exit |
| RelayInvariant.DrainLoopsNeverWait | internal/ws/ws.go:239-244 | in every reachable state the counts of the flush loops do not exceed their queues, so receiving never blocks |
| RelayInvariant.RunKeepsInv | internal/ws/ws.go:447-574 | queues within bounds, who may have left, one closer per connection, no connection left without a closer: kept by every step |
| Connections.WriterKeepsFlushReady | internal/ws/core.go:192-199 | the write pump's own flush loop never waits |
| Connections.WriterKeepsStream | internal/ws/core.go:176-199 | the write pump keeps messages in order; a failed write loses at most the message in hand and ends the context |
| CloseProtocol.OneCloseFrameAndLast | internal/ws/core.go:149-160 | for any number of concurrent Close, Write and destroy calls, at most one close frame is written and nothing after it |
| CloseProtocol.WriterGone | internal/ws/core.go:152-160 | once the write pump has exited the context is done or the one closer is about to end it |
| CloseProtocol.NoCallerIsStuck | internal/ws/core.go:75-113 | no waiting Write or Close caller is ever stuck |
| CloseProtocol.RunKeepsInv | internal/ws/core.go:88-107 | at most one caller gets past the closed flag, and the flag is never left set without a caller or an ended context |
| CloseProtocol.EndsExactly | internal/ws/core.go:88-160 | in every run the context has ended exactly by destroy, a closer or a failed write or ping, and a close frame is on the wire exactly when some closer handed one over |
| CloseProtocol.GoodbyeIsLast | internal/ws/core.go:149-160 | a write pump that is gone while the context lives has sent a close frame last |
| CloseProtocol.WritesAreKept | internal/ws/core.go:75-84 | in every run what is written, in hand and queued is what the Write calls queued, in order, while the context lives; afterwards an in-order part of it |
| CloseProtocol.CallsComeBackDone | internal/ws/core.go:75-107 | a Write that has returned queued its message or the context has ended; a Close that has returned found or left the flag set |
| CloseProtocol.TurnWritesAll | internal/ws/core.go:176-199 | a write pump that takes a message writes all that are queued, in order, before it selects again |
| FailoverLoop.ForwardWithFailover | internal/http.go:186-359 | in any traffic of other requests, the loop over provider objects returns what the loop-free description decides, asks the same providers in the same order, leaves each as its turn and the traffic do, and the others untouched |
| FailoverLoop.CalledSettles | internal/http.go:219-336 | one call leaves the described health and flags, whether or not flags that had run out were dropped first |
| FailoverLoop.Ask | internal/http.go:204-335 | one provider's turn: its outcome, whether it denied a method, its state afterwards |
| FailoverLoop.ScanErrors | internal/http.go:299-335 | the scan ends at the first try-next or unhealthy error and records the unsupported methods before it |
| FailoverLoop.MethodsWithoutProvider | internal/http.go:158-179 | lists, once each and in order of appearance, the requested methods flagged at every provider |
| FailoverLoop.SupportsAllMethods | internal/http.go:146-153 | true exactly when no requested method is flagged; only drops flags that have run out |
| FailoverLaws.PassBlamesExactly | internal/http.go:203-336 | over the whole pass: a provider comes out of its turn online exactly when it was when its turn came and neither traffic nor its own fault took it out (transport or status fault except 413 and a single 501, size mismatch, a first stopping error that is unhealthy), and which providers are online at the end given later traffic |
| FailoverLaws.CallLeavesLittle | internal/httpx/httpx.go:236-285 | the call itself leaves nothing but the back-off of a throttled one |
| FailoverHealth.TurnBacksOffExactly | internal/http.go:252-336 | the back-off after any turn, from the raw reply: half a minute if the first other error confesses a rate limit, what a 429 or 402 asks for if the provider is still online, else what call and traffic left |
| FailoverHealth.CallBacksOffExactly | internal/httpx/httpx.go:236-250 | the call itself sets a back-off exactly on status 429 or 402: the positive Retry-After in seconds, else half a minute |
| FailoverHealth.TurnCountsExactly | internal/core/provider.go:111-126 | the count and the time of the last change after any turn: a failed call leaves a provider that is out alone, a bad answer counts against it |
| FailoverHealth.PassBacksOffExactly | internal/http.go:203-336 | over the whole pass a provider that had its turn ends with that back-off unless later traffic sets or clears one |
| FailoverHealth.RateLimitedAnswerBacksOff | internal/chain/eth/eth.go:80-81 | an Ethereum answer with error -32005 at time 0 leaves the provider out and alone until 30 seconds |
| FailoverLaws.InnocentIsUntouched | internal/http.go:228-336 | no turn brings an offline provider back; one that is not at fault has the health the traffic gives it, one whose client has gone that with which its call returns |
| FailoverLaws.HelpfulIsUntouched | internal/http.go:229-250 | 413, try-next, unsupported and served outcomes are never blamed |
| FailoverLaws.ClientMistakesBlameNobody | internal/httpx/httpx.go:251-260 | on every chain, parse errors and invalid requests or parameters, alone or beside results in a batch, go back to the client under any status but a rate limit, and take no provider out |
| FailoverLaws.FlagsExactly | internal/http.go:228-336 | a turn flags the provider exactly when it was asked, the client stayed, and it denied a method that has a name: a single request by status 501, or any by an error the scan reaches |
| FailoverLaws.OnlyDenialsFlag | internal/http.go:228-336 | a provider that serves, finds the request too large or is given up on is not flagged |
| FailoverLaws.NamedDenialsFlag | internal/http.go:305-318 | when every request names a method, any denial by an asked provider sets a flag |
| FailoverLaws.UnnamedIsNeverMissing | internal/core/provider.go:156-159 | the empty name is never reported as missing, whatever else is in the batch |
| FailoverLaws.UnnamedDenialsEndUnavailable | internal/http.go:343-359 | when those asked deny only members without a method and nobody else denies anything meanwhile, the pass ends with no provider available |
| FailoverLaws.UnnamedRequestIsDenied | internal/http.go:234-240 | one request without a method, one fresh provider, status 501: asked, not flagged, no provider available |
| FailoverLaws.QuietFlags | internal/core/provider.go:156-188 | without other traffic a provider is flagged at the end for what its turn flagged it for and what it was flagged for already |
| FailoverLaws.PassAnswersExactly | internal/http.go:203-356 | over the whole pass, in terms of what each provider sent: whose answer the client gets |
| FailoverLaws.PassFailsExactly | internal/http.go:203-359 | over the whole pass, in terms of what each provider sent: when it gets which error |
| FailoverLaws.AnswersKeepShape | internal/http.go:267-281 | every answer has one response per request and the client's own shape |
| FailoverLaws.AskedInOrder | internal/http.go:203-215 | providers are asked in list order, each at most once, exactly those neither offline nor flagged |
| FailoverLaws.MissingMeans | internal/http.go:158-179 | a method is reported missing exactly when it was requested and every provider, online or not, is flagged for it; each once |
| FailoverLaws.RepeatAsksNobody | internal/http.go:203-215 | after a pass ended for a missing method, the same request at that moment asks nobody and is told the same, unless everybody is offline |
| Failover.DistinctListsEachOnce | internal/http.go:158-179 | the list of missing methods holds each once and exactly those wanted |
| Upstream.SendRpcBatchRequest | internal/httpx/httpx.go:236-285 | classifies a call: rate limit, then JSON-RPC error in the body, then status; only a rate limit touches the provider |
| Upstream.ResponseHasError | internal/httpx/httpx.go:222-232 | finds a JSON-RPC error exactly when there is one |
| Upstream.BodyOutranksStatus | internal/httpx/httpx.go:251-260 | a status other than 200 makes no difference exactly when the body holds a JSON-RPC error and it is not a rate limit |
| Upstream.ClassifyExactly | internal/httpx/httpx.go:236-285 | for each way a call can end, the raw replies with which it does, by their literal statuses |
| ResponseMethods.ResponseMethods | internal/http.go:366-392 | each response gets the method of the only request with its key, else the one at its position |
| ResponseMethods.PermutedResponsesKeepMethods | internal/http.go:361-392 | for distinct non-empty keys and responses in any order each gets its own request's method, and the methods are a permutation |
| ResponseMethods.FallsBackToPosition | internal/http.go:384-389 | empty, unknown and shared keys fall back to the position |
| Providers.SameFlagsExactly | internal/core/provider.go:176-188 | two providers look flagged alike from now on exactly when the flags standing now were set at the same times |
| Traffic.StandingAfter | internal/core/provider.go:156-188 | what each event does to a standing flag, which stands for half an hour |
| Traffic.UnchangedAfter | internal/core/provider.go:176-188 | dropping flags that have run out is never noticed, whatever happens next |
| Traffic.FlagAges | internal/core/provider.go:156-188 | a flag nobody renews or looks up just ages, whatever else happens |
| Traffic.BackoffIsLatest | internal/core/provider.go:95-145 | after any events the back-off is that of the last one that asked for one (half a minute, or its own duration), unless the provider came back since |
| Traffic.ChangeIsLatest | internal/core/provider.go:95-141 | after any events the last change is that of the last event that took the provider out or brought it back; the first fault sets it if there was none |
| Providers.Provider.MarkUnhealthy | internal/core/provider.go:95-126 | the whole new state, with the back-off of a rate limit |
| Providers.Provider.MarkHealthy | internal/core/provider.go:130-151 | coming back clears the count and the back-off; nothing happens when already online |
| Providers.Provider.SupportsMethod | internal/core/provider.go:176-188 | answers whether the flag still stands, and drops it once it has run out |
| Providers.Provider.HandleTooManyRequests | internal/core/provider.go:192-220 | sets the back-off to a positive Retry-After in 64-bit nanoseconds, else to the default |
| Providers.RetryAfterExactly | internal/core/provider.go:199-205 | a positive Retry-After is kept to exactly when it is at most 9223372036 seconds, otherwise modulo 2^64 nanoseconds; without one it is 30 seconds |
| Providers.LongestRetryAfterIsLost | internal/core/provider.go:199-205 | one second more sets a back-off that is long over |
| Endpoints.Endpoint.SetChainID | internal/core/endpoint.go:82-97 | accepts and records the first id, afterwards only the same one |
| Endpoints.Endpoint.ObserveBlock | internal/core/endpoint.go:117-123 | raises the tip to a greater height and does nothing else |
| Endpoints.LagTestExactly | internal/healthcheck/healthcheck.go:48-56 | the 64-bit lag test equals height + tolerance < tip exactly when the sum fits or wraps without harm |
| Endpoints.BehindStays | internal/healthcheck/healthcheck.go:53-56 | a height that is behind stays behind as the tip grows, and so does every lower one |
| Healthcheck.RunCheck | internal/healthcheck/healthcheck.go:22-63 | one check on its own: its verdict and what it leaves on the endpoint |
| Healthcheck.AloneIsThreeSteps | internal/healthcheck/healthcheck.go:22-63 | three steps of the interleaved model in a row are that check |
| Healthcheck.ChecksEndExactly | internal/core/endpoint.go:82-97 | in every run a check fails for the chain exactly when the endpoint had a name and the report another, the empty one included; and exactly when each of the other ends comes about |
| Healthcheck.AcceptedNamesConfigured | internal/core/endpoint.go:86-94 | on an endpoint with a configured chain every accepted check reported that very name |
| Healthcheck.TolerancesAre | internal/healthcheck/healthcheck.go:48-56 | the lag each chain allows by default, and that a configured one counts as it is, a negative one as none |
| Healthcheck.PassingChecksAgree | internal/healthcheck/healthcheck.go:35-60 | in every interleaving the tip is the greatest height committed by a passing check, and passing checks that named a chain named the same one |
| Healthcheck.EndpointOnlyMovesForward | internal/core/endpoint.go:82-123 | from any point of a run on, a known chain id never changes and the tip never falls |
| Healthcheck.OnlyCommitsRaiseTip | internal/healthcheck/healthcheck.go:58-60 | only the last step of a passing check changes the tip, to its own greater height |
| Healthcheck.RejectedHeightStaysRejected | internal/healthcheck/healthcheck.go:53-56 | once one check was turned away as behind, no check reporting that height or less, not already let through, ever passes |
| Healthcheck.LaggardExactly | internal/healthcheck/healthcheck.go:53-60 | a check let through at its read would be turned away later exactly when a check that reports too much for it has passed since |
| Healthcheck.TipRisesByPassing | internal/core/endpoint.go:117-123 | the tip rises above a height exactly when a check that reports more passes |
| Healthcheck.StaleTipLetsLaggardPass | internal/healthcheck/healthcheck.go:53-60 | a run from the start in which a check passes although it is too far behind one that passed before it |
| Healthcheck.NamingExactly | internal/core/endpoint.go:82-97 | a step changes the chain id exactly when it identifies a check that reports one on an endpoint without |
| Healthcheck.ChainIsNamedExactly | internal/core/endpoint.go:82-97 | in every run the chain id is known exactly when some check has named it, and is the one that check reports |
| Healthcheck.TurnedAwayExactly | internal/healthcheck/healthcheck.go:53-56 | in every run a check ends as behind exactly when it read a tip too far ahead of it |
| Healthcheck.FailedNamerExactly | internal/healthcheck/healthcheck.go:35-56 | when a check that is turned away as behind has named the chain for everybody |
| Healthcheck.FailedCheckNamesChain | internal/healthcheck/healthcheck.go:35-56 | a run from the start in which that happens |
| Traffic.OnlineExactly | internal/core/provider.go:95-145 | after any events a provider is online exactly when no fault has come since it last recovered, and it was online or did recover |
| Traffic.AttemptCountsFaults | internal/core/provider.go:95-145 | after any events an online provider has no attempts, an offline one has counted the faults since it was last online, without the one that took it offline |
| Traffic.OnlineMeansNoAttempts | internal/core/provider.go:128-141 | from the initial state on, online implies a clean count, and holds exactly after a recovery with no fault since |
| Backoff.RunOnce | internal/healthcheck/healthcheck.go:79-105 | returns the interval or the delay of the count as it was read, and marks the provider after whatever happens to it in between |
| Backoff.Worker | internal/healthcheck/healthcheck.go:65-74 | every cycle of the worker, in any traffic, starts after the back-off read at its top and after the previous delay |
| Backoff.FailuresFollowSchedule | internal/healthcheck/healthcheck.go:79-116 | k failures in a row from online take delays of 10 s six times, 30 s five times, then 60 s each |
| Backoff.ChecksAreSpaced | internal/healthcheck/healthcheck.go:65-74 | a check starts no sooner than all delays before it allow, nor before the back-off |
| Backoff.DelayByFaults | internal/healthcheck/healthcheck.go:98-116 | the delay after a failed check, from the faults and recoveries of the whole history |
| Labels.CapHolds | internal/metrics/labels.go:28-42 | for any number of calls stopped anywhere, labels plus granted reservations stay within 1000 and the counter is labels plus unsettled increments; equal to the labels when all calls have returned |
| Labels.LabelsOnlyGrow | internal/metrics/labels.go:28-42 | a label is never withdrawn |
| Labels.LabelsWereAsked | internal/metrics/labels.go:28-42 | every label is a name some call was given |
| Labels.TurnedAwayOnlyAtCap | internal/metrics/labels.go:35-38 | a call is turned away exactly when labels and unsettled increments come to 1000 |
| Labels.SoloAdmits | internal/metrics/labels.go:28-42 | undisturbed, the steps of a call admit its name unless the cap is reached |
| Labels.MethodLabels.AdmitMethod | internal/metrics/labels.go:28-42 | the same for the object changed in place |
| Labels.MethodLabels.MethodLabel | internal/metrics/labels.go:46-54 | the empty name has an empty label, an admitted one its own, any other "other" |
| Tracker.IdleExactly | internal/ws/shutdown.go:40-70 | in every run idle is closed exactly when closing and no connection is open, shutdown exactly when closing, neither twice |
| Tracker.IdleIsFinal | internal/ws/shutdown.go:73-80 | once waiting can succeed no connection is open and none ever opens again |
| Tracker.HandlersDrain | internal/ws/shutdown.go:51-58 | after shutdown has begun, the open handlers returning is enough for waiting to succeed |
| Tracker.HandlersExactly | internal/ws/shutdown.go:40-70 | in every run closing has begun exactly when shutdown was called, a handler is let in exactly if it arrived before that, and is open exactly until it returns |
| Tracker.OpenConnections.Add | internal/ws/shutdown.go:40-49 | refuses once closing, else counts |
| Tracker.OpenConnections.Done | internal/ws/shutdown.go:51-58 | the last one out closes idle |
| Tracker.OpenConnections.CloseAll | internal/ws/shutdown.go:60-70 | closes shutdown once, and idle if nothing is open |
| Coalesce.KeysCollideExactly | internal/http.go:412-415 | which pairs of methods can share a key |
| Coalesce.KeyIsInjective | internal/http.go:412-415 | for methods without a NUL byte equal keys mean equal method and parameters |
| Coalesce.CoalesceableIsPlain | internal/chain/eth/eth.go:115-143 | every method that may be coalesced, on every chain, is free of NUL bytes |
| Coalesce.OneOpenCallPerKey | internal/http.go:417-441 | in every run at most one upstream call per method and parameters is open |
| Coalesce.ArrivingShares | internal/http.go:412-441 | in every run an arriving client waits for an open call with its own method and parameters; a call is added, with its own request, exactly if none was open |
| Coalesce.ComingsAndGoings | internal/http.go:443-446 | a client is still to come exactly if it has not arrived, gone only if it left, and served only if it received |
| Coalesce.ResultsAreEnds | internal/http.go:417-441 | the result of a call is exactly the one its end brought |
| Coalesce.LeavingEnds | internal/http.go:443-446 | a waiting client that leaves is gone and is not served any more |
| Coalesce.AnswerIsOwn | internal/http.go:446-465 | whoever is served gets the answer to its own method and parameters, complete but for the id, which is its own |
| Coalesce.RunKeepsInv | internal/http.go:459-465 | every waiter belongs to a call with its key, and the shared result never changes once it is there |
| Coalesce.NoStaleAnswers | internal/http.go:417-441 | nobody is served from a call that was over before it came |
| Coalesce.WaiterGetsAnswer | internal/http.go:443-465 | however the call of a waiting client ends, the client can be served from it |
| Coalesce.DepartureHarmsNobody | internal/http.go:428-446 | a client that leaves, even the one whose request went upstream, changes nothing for any call or any other client |
| Paths.AllowedHttpApiPath | internal/http.go:703-715 | allowed exactly when no segment is empty or a dot segment and the first of several is wallet, walletsolidity or walletpbft |
| Paths.EscapePath | internal/http.go:720-726 | the segments of the result are the escaped segments of the path |
| Paths.EscapesExactly | internal/http.go:717-726 | which bytes stay as they are, by their codes, and that every other becomes a percent sign and two upper-case hex digits |
| Paths.SegmentsComeBack | internal/http.go:717-726 | decoding segment by segment gives the path back for every path, so different paths stay different |
| Paths.NothingEndsThePath | internal/http.go:717-726 | the result contains neither a query nor a fragment delimiter, nor anything but slashes and harmless bytes |
| Paths.ResolvesToItself | internal/http.go:699-715 | removing dot segments (section 5.2.4 of RFC 3986) leaves a path alone exactly when it has none |
| Paths.ResolvedIsWalked | internal/http.go:699-715 | removing dot segments leads every path where its segments lead when read from left to right |
| Paths.ForwardedPathStays | internal/http.go:577-618 | an allowed path resolves to itself before and after escaping, under the root that allowed it |
| Rpc.DecodesExactly | internal/rpc/response.go:100-108 | which values decoding refuses, and that null and absent ids stay apart |
| Rpc.EncodeIsStable | internal/rpc/response.go:33-74 | whatever was received, what is sent on decodes and serialises to itself again |
| Rpc.FieldsSurvive | internal/rpc/response.go:33-74 | for each field of a response, exactly when it survives being sent on |
| Rpc.ReadingsSurvive | internal/rpc/response.go:76-94 | exactly when being an error, the result and the key survive; the error itself always does with being one |
| Rpc.UnchangedExactly | internal/rpc/response.go:33-74 | sending on changes nothing exactly for a notification, an error or a result on its own |
| Rpc.NullErrorLosesResult | internal/rpc/response.go:49-52 | a received object with a null error whose result is gone afterwards |
| Rpc.ErrorLosesResult | internal/rpc/response.go:49-60 | the same with an error |
| Rpc.MethodLosesIdAndResult | internal/rpc/response.go:35-46 | a method beside an id and a result drives out both |
| Rpc.MethodHidesError | internal/rpc/response.go:35-46 | an error beside a method is one before and none afterwards |
| Rpc.ParamsNeedMethod | internal/rpc/response.go:62-73 | params without a method are dropped |
| Rpc.EncodeBatchIsStable | internal/rpc/batch.go:36-72 | a batch keeps its shape, arrives member by member as what is sent on of each, and serialises to itself again; only an empty one cannot be sent |
| Rpc.KeysCoincideExactly | internal/rpc/id.go:50-61 | two ids share a key exactly when they have one JSON kind and text, or one is a string that spells the other |
| Rpc.KeyIsNotInjective | internal/rpc/id.go:50-61 | every id that is not a string shares its key with a string |
| Chains.CodesAcrossChains | internal/chain/eth/eth.go:76-101 | internal errors are the provider's fault on every chain, application errors never, and the text matters for one Ethereum code only |
| Chains.DispositionsExactly | internal/chain/solana/solana.go:64-99 | for each reaction, exactly the codes that cause it on each chain |
| Chains.UnavailableExactly | internal/chain/eth/eth.go:64-72 | a message says data is unavailable exactly when some part of it spells one of the hints, in whatever case |
| Chains.RejectDisallowed | internal/chain/chain.go:82-106 | nothing exactly when every method is allowed, else one error per member, in order and with its id |
| Chains.RejectionsExactly | internal/chain/chain.go:82-106 | each member of a rejected request is refused with its id, code -32002 and a text that tells the offending ones from the others |
| Chains.JudgedByCode | internal/rpc/response.go:87-94 | on every chain an error is judged by its code and message if it has them, and reaches the client if it cannot be read |

## Left out

- The relay, the close protocol and label admission are step systems on values rather than objects changed
  in place: interleaving is the point there, and a method body has none. What is not captured is aliasing.
- The relay starts after the upgrade, both connections set, and its parent context is not cancelled.
- The read pumps: a frame arrives in their channel when there is room; what they hold while it is full
  and the liveness deadlines they set are not part of the model. Pings only matter when they fail.
- Failures to serialise a request or a response, which drop one message and log it.
- Dialing (DialProvider, DialAnyProvider), TLS, timeouts, body limits and redirects: upstream outcomes are arbitrary values.
- FailoverLoop.ForwardWithFailover: other requests reach a provider before its turn, during its call, before the call's
  outcome has its consequences and after its turn, but not between the lookups of one turn, between the errors of one
  answer, or between the lookups at the end; all lookups of one turn use one time.
- RelayScripts.ConversationHappens: conversations of more than 32 turns, for which queues would have to be emptied
  in between, are not written out.
- The failover loop of the TRON HTTP API, a simpler copy of the one modelled.
- Rpc: JSON is a tree, so the text of an id or of parameters is kept only for numbers; null elements of a batch,
  which decode to an unhandled nil pointer, are decoded to an empty response instead. A key that occurs twice in an
  object is one field.
- Chains.RejectDisallowed: the allowlists themselves are data; the policy is a parameter.
- Chains: error texts are compared without case for ASCII letters only, and the text put before an error message
  is left off, as it can hold none of the hints.
- Healthcheck.RunCheck: what a chain reads from its node arrives as a chain id and a height; the client version and
  the provider's own highest block, which only serve display, are not kept.
- Backoff.Worker: the endless loop is cut off after any given number of cycles.
- Coalesce: singleflight is its contract (a key has one open call; whoever comes while it is open shares its result).
- Paths: url.PathEscape is written from its rule for path segments, as it is part of the standard library.
- Authentication, client addresses, logging, metrics other than label admission, configuration: short branches without
  a property of their own.
