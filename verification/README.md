# http-dragonfly: a verified model

http-dragonfly is an HTTP proxy that sends each request to several targets and answers with one
response chosen by a strategy. This project models its three stateful cores in Dafny and proves what
they promise.

1. **AWS credentials** (`Credential*.dfy`, `AwsAuth.dfy`, `HttpsClientCache.dfy`). One cached provider
   is a class with the source's two checks and its refresh. The whole process (any number of signing
   calls, the provider map and its lock, one cache and lock per provider, a clock, inner providers
   that answer anything at any time, calls dropped at an await) is a transition system. Theorems hold
   for every state of every run: single flight, binding stability, refresh rate, freshness, progress,
   and refinement to an atomic cache. The answer of
   a call is traced to the clock reading the call took and to the cell it found.
2. **The request pipeline** (`Config.dfy`, `Routing.dfy`, `Response.dfy`, `Handler.dfy`,
   `DroppedTargets.dfy`, `Panics.dfy`). The code of
   `RequestHandler::handle` is followed loop by loop: target selection, building and dispatching
   requests, awaiting them while they complete in any order, folding the results, choosing the
   response. The validators are proved to accept exactly what the handler relies on, and the causes
   of the panics that remain are given exactly, for every listener they accept.
3. **Small languages and structures** (`Headers.dfy`, `Context.dfy`, `ListenOn.dfy`, `Text.dfy`): the
   header transformations, the chained context with its nested iterator, and the listen address.

Conventions: time is a natural number of nanoseconds, so `validity / 2` rounds down. A header map is
a map from lower-case names to non-empty sequences of values. A loop over a hash map or a set takes
the elements in an order chosen by `:|`, so a proof covers every order; for the responses map, where the
order shows in the reply, it is a parameter, and the replies all orders lead to are given exactly. A panic is an outcome, not a
precondition. Clock readings, an inner provider's answers, what targets respond, and the value of a
condition filter are parameters.

## Where the code and its documentation differ

The model follows the code.

- `src/config/response.rs:139-140` removes `content-length` because a new body makes it wrong, but the
  headers were copied into the response before (lines 133-135). `Response.ContentLengthStays` says exactly
  when a reply with a new body has one, `Response.ContentLengthMisleads` gives one that is wrong.
- The condition filters see a map collected from the context iterator (`src/config/target.rs:527`), where
  an outer frame replaces an inner one of the same name, while `Context::get` prefers the inner frame.
  `Context.FilterDiffers` names the names on which they differ, `Context.FilterSeesOuterValue` is a case.
- `src/aws_auth/cache.rs:47` reads the clock before the read lock is granted. A hit found by that reading
  can be dead already, exactly if the inner provider returned credentials that had expired when they
  were installed (`CredentialCache.EveryHitIsLive`); `CredentialAnswers.DeadHitReached` is a run to it.
- Validation looks neither at status codes (`src/config/response.rs:50-54`) nor for a host in a URL, so an
  accepted listener can panic. `Panics.ListenerPanicsExactly` lists the causes for every accepted listener;
  `Panics.AcceptedListenerCanPanic`, `Panics.HostlessTargetPanics` and `Panics.ConflictPanics` are cases.
- Filters panic on a request header that is not text (`src/config/target.rs:525`), and a body that breaks
  off panics (`src/handler.rs:79`, `src/handler.rs:249`). Both are among those causes.
- The no-target answer given before any target is queried reports an impossible status as an HTTP error
  (`src/handler.rs:140`), the one given by a strategy panics on it (`src/config/response.rs:265-274`).

## Model

| member | source | states |
|---|---|---|
| CredentialCache.RefreshingCredentials.CheckCached | src/aws_auth/cache.rs:47-55 | the first check answers with the entry exactly when it has no refresh time or the reading is below it, and changes nothing |
| CredentialCache.RefreshingCredentials.Refresh | src/aws_auth/cache.rs:57-96 | under the write guard: a second check; otherwise the inner provider is asked, a success replaces the entry, a failure leaves it and is answered with it while it lasts |
| CredentialCache.RefreshingCredentials.GetOrRefresh | src/aws_auth/cache.rs:46-97 | a whole call, with other tasks free to change the cell between the two guards: when the inner provider is asked, what is answered and what is left in the cell |
| CredentialCache.RefreshTimeIsMidpoint | src/aws_auth/cache.rs:71-74 | the refresh time of live credentials is the floored middle of their window and strictly before the expiry; that of expired ones is the install time |
| CredentialCache.HitExactly | src/aws_auth/cache.rs:51-91 | an installed entry is hit exactly before the middle of the window it had at its install, always without an expiry, and stands in for a failed fetch exactly until it expires |
| CredentialCache.LateHitIsLive | src/aws_auth/cache.rs:57-64 | a hit by a reading taken at or after the install is never past the expiry |
| CredentialCache.EveryHitIsLive | src/aws_auth/cache.rs:47-55 | every hit, by whatever reading, is live if and only if the credentials had not expired when they were installed |
| CredentialSystem.StepsAreRefresh | src/aws_auth/cache.rs:57-96 | the system's steps under the write guard leave the same cell and give the same answer as the class's refresh |
| CredentialInvariant.RunKeepsInv | src/aws_auth/cache.rs:46-97 | every reachable state: locks are held by exactly the tasks inside, calls use bound providers, a cell holds its latest install, installs are half a validity apart, a reading carried by a call was taken since it came, and one carried into a fetch missed the cell and is not older than it |
| CredentialInvariant.KeepsCacheLocks | src/aws_auth/cache.rs:49-57 | each step keeps reader and writer exclusion on every cache |
| CredentialInvariant.KeepsReferences | src/aws_auth/mod.rs:95-140 | each step keeps calls on bound providers, and built but not yet inserted providers unbound and owned by one call |
| CredentialTheorems.BindingKept | src/aws_auth/mod.rs:131-139 | a bound identity is never rebound or removed in any run |
| CredentialTheorems.OneProviderPerIdentity | src/aws_auth/mod.rs:95-140 | any two calls for one identity, at any two moments of a run, use one provider object |
| CredentialTheorems.SingleFlight | src/aws_auth/cache.rs:57-66 | at most one inner fetch per identity is in flight in the process |
| CredentialTheorems.LoserNeverAsked | src/aws_auth/mod.rs:128-139 | a provider that lost the insertion race is never fetched from and no call ever holds it |
| CredentialTheorems.RefreshRate | src/aws_auth/cache.rs:59-79 | from install a to install b of an identity at least (b - a) times half the validity passes, for runs of any length |
| CredentialAnswers.ReadingIsOwn | src/aws_auth/cache.rs:47-59 | a reading a call carries is the clock at an earlier step of that call: its own first sampling, or its recheck under the write guard |
| CredentialAnswers.FirstCheckExactly | src/aws_auth/cache.rs:49-55 | in every run the first check answers from the cell exactly if the call's reading lies in the first half of the window of the latest install, and else queues for the write guard |
| CredentialAnswers.SecondCheckExactly | src/aws_auth/cache.rs:57-66 | in every run the second check does so by the clock, and else, from the middle of the window on or without an install, goes on to fetch |
| CredentialAnswers.DroppedCallLeavesCells | src/aws_auth/cache.rs:49-66 | a call can be dropped exactly at its awaits; that changes no cell, history or binding and frees its write guard |
| CredentialAnswers.AnswersAreSound | src/aws_auth/cache.rs:46-97 | every answer of every run rests on two steps of its call, where it read the clock and where it decided: hits are the cell's credentials in the first half of their window; past it the call is answered by its own fetch, which is installed at the clock, or after a failure by credentials live at a reading taken under the write guard, or by the error only if there are none; second-check hits are live, first-check hits unless the cell was installed dead |
| CredentialAnswers.DeadHitReached | src/aws_auth/cache.rs:47-55 | for any credentials fetched already expired some run answers a call with them by a reading at which they are dead |
| CredentialTheorems.FreshEntryShared | src/aws_auth/cache.rs:57-64 | while the clock is below the entry's refresh time nobody fetches and the entry stays, however many calls wait |
| CredentialTheorems.WaitersGetSharedEntry | src/aws_auth/cache.rs:57-64 | every call that ends in that time answers with the shared credentials |
| CredentialTheorems.NoExpiryIsForever | src/aws_auth/cache.rs:51-61 | after credentials without expiry are installed the entry and the fetch count never change, and no call is fetching, queued ones included |
| CredentialTheorems.FetchNeedsOwnMiss | src/aws_auth/cache.rs:59-66 | the fetch count grows only by a second check whose own reading finds nothing usable |
| CredentialTheorems.EntryFollowsInstalls | src/aws_auth/cache.rs:66-96 | an entry changes only by a successful fetch; failed and cancelled fetches leave it |
| CredentialTheorems.FailureNotShared | src/aws_auth/cache.rs:82-94 | after a failed fetch every waiter that rechecks fetches again, until one succeeds |
| CredentialProgress.CallsAreShort | src/aws_auth/mod.rs:95-140 | in any run each call takes at most eleven steps, by a rank that every step of the call lowers and no other step raises |
| CredentialProgress.RunsAreBounded | src/aws_auth/mod.rs:95-140 | all calls of a run together take at most eleven times their number of steps |
| CredentialProgress.NoSelfWait | src/aws_auth/cache.rs:48-57 | no call waits for a lock it holds |
| CredentialProgress.NoDeadlock | src/aws_auth/cache.rs:46-97 | in every reachable state with an unfinished call some call can move otherwise than by being dropped, and not by a grant of a lock that somebody holds |
| CredentialRefinement.ActEntries | src/aws_auth/cache.rs:75-79 | an action leaves every identity's entry alone unless it is a fetch that succeeded |
| CredentialRefinement.StepRefines | src/aws_auth/cache.rs:46-97 | each step of the system is a step of an atomic cache that decides by a reading taken since the call came, and, but for first-check hits, not older than the entry: hit, fetch and install, stale, error, or nothing |
| CredentialRefinement.RunRefines | src/aws_auth/cache.rs:46-97 | every run, with any interleaving, delays and cancellation, shows a run of the atomic cache |
| CredentialRefinement.AtomicHitIsLive | src/aws_auth/cache.rs:83-91 | what the atomic cache answers from an entry is live at the reading, unless installed dead and found by an early reading |
| AwsAuth.ConfigsFound | src/aws_auth/mod.rs:36-44 | a signing configuration is collected if and only if some target of some listener has it |
| AwsAuth.IdentitiesOfConfigs | src/aws_auth/mod.rs:46-77 | the identities to warm are those of the targets that sign; there are none exactly when no signing is required |
| AwsAuth.CredentialsRegistry.ProviderFor | src/aws_auth/mod.rs:95-140 | returns the bound provider, or binds a fresh empty one of the identity's name, and touches no other binding or cell |
| AwsAuth.CredentialsRegistry.Warm | src/aws_auth/mod.rs:83-93 | binds the identity, leaves its cell as its own call does and every other one alone, and ends as that call does, a failure under the identity's name |
| AwsAuth.CredentialsRegistry.WarmAll | src/aws_auth/mod.rs:76-78 | warms each role once, in any order, up to the first failure, each with what its own call found |
| AwsAuth.CredentialsRegistry.Init | src/aws_auth/mod.rs:52-81 | the identities tried, the default one first, are each left with what their own calls found, nothing else is bound or changed, and on success they are all that are configured; nothing happens when no target signs |
| AwsAuth.FirstWarmUp | src/aws_auth/cache.rs:66-80 | without an entry the inner provider's answer decides, and what it brought is hit exactly in the first half of its window counted from when it came |
| AwsAuth.FirstWarmUps | src/aws_auth/mod.rs:52-81 | from an empty map a successful warm-up leaves exactly the identities tried, each with what its own provider brought, cached from when it came |
| HttpsClientCache.ClientCache.GetHttpsClient | src/config/target.rs:149-185 | returns the cached client of the pair or creates, stores and returns one built from it |
| HttpsClientCache.LookupsAgree | src/config/target.rs:149-185 | in every interleaving the second look never misses, a lookup starts over at most once and returns a client built from the pair it asked for, which is cached by then |
| HttpsClientCache.CachedIsTaken | src/config/target.rs:159-171 | in every run a check goes on to take the cached client exactly if its pair is cached, and itself changes nothing |
| HttpsClientCache.ReturnedWasCached | src/config/target.rs:165-171 | what a lookup returns was cached under its pair in the step it took it |
| HttpsClientCache.CreatesOnlyAfterMiss | src/config/target.rs:172-181 | a client is created or replaced only by a lookup whose own check found nothing |
| HttpsClientCache.StepsAreGetHttpsClient | src/config/target.rs:149-185 | the steps of a lookup that runs alone do what the class's method does |
| HttpsClientCache.KeysGrow | src/config/target.rs:170-181 | cached keys are never removed |
| HttpsClientCache.LookupsAreShort | src/config/target.rs:149-185 | a lookup takes at most four steps however many writers race |
| Headers.Transform | src/config/headers.rs:131-179 | the in-place interpreter computes the list's effect, and fails to complete exactly where the program panics |
| Headers.HeadersAreIndependent | src/config/headers.rs:131-179 | the final values of a header depend only on its initial values and on the actions that name it or drop everything |
| Headers.ActionsMean | src/config/headers.rs:134-177 | `add` sets only a header that is not there, `update` only one that is, `drop` takes out one or all, and none touches another |
| Headers.ActionPanics | src/config/headers.rs:135-150 | an action panics if and only if it sets a header and has no value, or an impossible name or value |
| Headers.NamesMatch | src/config/headers.rs:136-169 | two names are one exactly if they differ at most in the case of ASCII letters |
| Headers.AddAndUpdateForce | README.md:425-427 | add and update of one header, however its name is spelled, with one value, in either order and with nothing else on it between or after, force the value |
| Headers.DropAllForgets | README.md:428-429 | after drop of everything the result is that of the rest of the list on an empty map |
| Headers.LegalNeverPanics | src/config/headers.rs:131-179 | a list whose actions carry values and legal text is always carried out |
| Headers.VisitMap | src/config/headers.rs:61-119 | accepts the fields if and only if they say one action and, unless it drops, one value; the result is what they say and always has the value the interpreter unwraps |
| Headers.SaysOne | src/config/headers.rs:61-119 | fields say at most one transformation |
| Context.EveryEntryMet | src/context.rs:134-142 | iterating over a frame leaves no entry out |
| Context.ContextIterator.Next | src/context.rs:150-172 | yields the next entry of the chain, none exactly when all were yielded, and then for good |
| Context.Drain | src/context.rs:134-172 | draining meets each frame's entries exactly once, innermost frame first, for chains of any depth |
| Context.GetIsFirst | src/context.rs:52-68 | a lookup finds the first occurrence in iteration order, and nothing exactly when there is none |
| Context.CollectedIsOutermost | src/config/target.rs:527 | the collected map binds each name as the outermost frame does |
| Context.FilterAgrees | src/config/target.rs:527 | a filter and a lookup agree on a name if and only if no frame binds it or the innermost and outermost frame that do bind it alike |
| Context.FilterDiffers | src/context.rs:70-106 | over a request's frame and the root's they differ in exactly the `CTX_LISTENER_NAME` and `CTX_REQUEST_*` names that the accepted environment binds to another value |
| Context.FilterSeesOuterValue | src/config/target.rs:527 | a request whose path a filter sees as the environment's |
| ListenOn.RoundTrip | src/config/listener.rs:251-298 | printing and reading back gives the address if and only if its port is not zero |
| ListenOn.AcceptedIsPrintable | src/config/listener.rs:252-291 | an accepted address has a port from 1 to 65535 and its printed form is accepted as the same |
| ListenOn.ParsedExactly | src/config/listener.rs:266-291 | a text is read as an address if and only if, but for white space around it, it is a usable port number, on all interfaces, or one after a colon and nothing, a star, or the address in its printed form |
| ListenOn.PrintedForm | src/config/listener.rs:294-298 | an address is printed as four numbers without leading zeros with dots between, a colon and such a port |
| ListenOn.WildcardForms | src/config/listener.rs:269-287 | `p`, `:p` and `*:p` are read alike, errors included |
| ListenOn.WildcardPort | src/config/listener.rs:269-287 | the three spellings of a usable port give the wildcard address with that port |
| Config.EachAccepted | src/config/target.rs:440-475 | all targets pass if and only if each has a URL, an error status exactly with `on_error: status`, and a valid signing section |
| Config.TargetsAccepted | src/config/target.rs:477-505 | a target list passes if and only if it is not empty, each target passes, and the ids are distinct |
| Config.StrategyAccepted | src/config/listener.rs:141-198 | conditions, the single default and the selector are demanded exactly as the strategy needs them |
| Config.ListenerAccepted | src/config/listener.rs:325-333 | a listener passes if and only if it meets all of these |
| Config.ConfigAccepted | src/config.rs:84-98 | a configuration passes if and only if it has listeners and all of them pass |
| Config.TargetsRejected | src/config/target.rs:477-505 | a list is rejected as empty, for its first invalid target with that one's error, or for an id used twice, exactly so |
| Config.StrategyRejected | src/config/listener.rs:141-198 | a strategy is rejected for the first of its demands that is not met, exactly so |
| Config.MethodAllowedExactly | src/config/listener.rs:90-103 | a request method is allowed without a list, and with one exactly if the list names it, in whatever case |
| Routing.SelectTargets | src/handler.rs:109-159 | the one-pass scan decides as the declarative choice does, including where it panics |
| Routing.RoutingTable | src/handler.rs:109-159 | for a validated listener: two true filters give the no-target answer, the only true filter wins, else the default, else nothing; the id named is the target's |
| Routing.RoutingIgnoresOrder | src/handler.rs:109-159 | the selection for a validated listener is the same for every permutation of its targets |
| Routing.OthersQueryAllAllowed | src/handler.rs:142-157 | every other strategy selects exactly the targets without a condition, with `default`, or with a true filter, in order and each once, and routes to none |
| Routing.AllowedTargets | src/handler.rs:142-157 | a target is among the allowed ones exactly then |
| Routing.SelectionIsDistinct | src/config/target.rs:491-502 | the selection of a validated listener has distinct ids, and no condition is missing |
| Response.FindFirstResponse | src/config/response.rs:154-193 | finds the first target of the kind in the map's order: one of the kind if there is one, none otherwise |
| Response.OverrideResponse | src/config/response.rs:112-152 | the override: own status and body unless replaced, headers transformed and then copied, and a panic where no response can be built |
| Response.OverrideSets | src/config/response.rs:117-151 | without an override section the response goes out as it is; with one, with the status and the expanded body it sets and its own where it sets none |
| Response.RepliesStartFrom | src/config/response.rs:230-322 | unless overridden, a target's reply has its response's status and body, and an empty one status 200 or the no-target status |
| Response.OverriddenHeader | src/config/response.rs:128-135 | a header of the reply is what its own transformations make of it |
| Response.ContentLengthStays | src/config/response.rs:128-143 | a reply with a new body has a content length if and only if the transformations leave it one; without any about it, the response's old one |
| Response.ContentLengthMisleads | src/config/response.rs:128-143 | an empty body sent with a content length of three |
| Response.SelectFromTwoTargets | src/config/response.rs:244-276 | the first target's response if its id is in the map, else the second's if it has one, else the no-target answer, made in the second target's context if its failure was dropped; the entry is taken out |
| Response.SelectTargetOrOverride | src/config/response.rs:278-297 | the target's response if its id is in the map, else the override of an empty 200 |
| Response.SelectTargetOrError | src/config/response.rs:299-322 | the target's response if it has one, else the no-target answer, made in the target's own context if its failure was dropped |
| Response.SelectResponse | src/handler.rs:302-347 | each of the nine strategies replies with what the map's order leads to, which the strategy table allows |
| Response.EveryFitIsFound | src/config/response.rs:154-193 | everything the strategy table allows is what some order of the map leads to |
| Response.PairedStrategies | README.md:376-380 | `ok_then_failed` and `failed_then_ok` answer from a target if and only if some response survived, and with the no-target answer otherwise |
| Response.FirstKindReachesClient | README.md:376-381 | when some target has a response of the kind a strategy names first, the client gets a status of that kind, unless the override sets it |
| Handler.BuildOne | src/handler.rs:168-204 | one target's request: expanded URL and body, listener headers transformed again in its own context, and a host header |
| Handler.RequestIs | src/handler.rs:168-204 | a request has the client's method and the target's expanded URL and body, or else the client's body; it is an HTTP error if and only if the URL does not parse or has a needed host that no header can hold |
| Handler.TargetContextBinds | src/context.rs:108-117 | a target's context binds its id and its lower-case host and leaves every other name alone |
| Handler.TargetHeaders | src/handler.rs:86-195 | a target gets each client header as the listener's and then its own list leave it; the client's host never reaches it, and its URL's host stands in when no list sets one |
| Handler.DispatchAll | src/handler.rs:168-236 | the request, context and id vectors stay aligned with the targets by position; the loop stops at the first request that cannot be built |
| Handler.AwaitAll | src/handler.rs:238-259 | the results are each target's own for every completion order; a body that breaks off panics |
| Handler.FoldResults | src/handler.rs:261-300 | the loop over positions fills the map as folding the targets does |
| Handler.FoldedKeys | src/handler.rs:278-299 | the map's keys are exactly the queried ids |
| Handler.FoldedEntry | src/handler.rs:278-299 | for distinct ids each is bound to its target's context and to what the target left: its own response as it came, nothing for a dropped failure, an empty response with `error_status`, or with 502, 500 or 504 by what failed |
| Handler.FoldPanics | src/handler.rs:286-296 | folding panics exactly if a failed target has an impossible error status; a failure is never left without a response |
| Handler.Handle | src/handler.rs:49-353 | a request ends as specified for the given order of the responses map: method check, header transforms, selection, fan-out, strategy, and every error on the way |
| Handler.OutcomesExactly | src/handler.rs:302-347 | the orders of the responses map lead to exactly the outcomes the strategy table allows |
| Handler.MethodRejected | src/handler.rs:65-72 | a method that is not allowed is answered with an empty 405 whatever else is wrong |
| Handler.ConflictReported | src/handler.rs:136-140 | two true filters are answered with the no-target status, and an impossible one is an HTTP error |
| Handler.AcceptedListenerFansOut | src/config/target.rs:491-502 | for a validated listener the map holds one entry per selected target, in its own context: what the target left when it was answered or could not be signed for |
| Handler.ClientGetsFirstKind | src/handler.rs:302-347 | from a selected target's own answer of the kind a strategy names first to the status the client gets, for a whole request to a validated listener |
| Panics.BuildAllPanics | src/handler.rs:168-236 | dispatch panics if and only if the first request that cannot be built has a list that cannot be carried out, or neither a host header nor a host in its URL |
| Panics.ListenerPanicsExactly | src/handler.rs:49-353 | a validated listener panics on a request under some order of the responses map if and only if a cause is present: a body broken off, a list that cannot be carried out, a filter and a header that is not text, two true filters and an override that fails, a first unbuildable request, an impossible error status, or a fitting reply, a dropped target's included, whose override or status fails |
| Panics.PanicIsCertain | src/handler.rs:49-353 | it panics under every order if and only if such a cause is present that does not depend on it: any but the last, or the last for every fitting reply |
| Panics.ListenerErrsExactly | src/handler.rs:136-204 | handling ends in an HTTP error if and only if two filters are true and the no-target status is impossible, or the first request that cannot be built does not panic |
| Panics.AcceptedListenerNeverPanics | src/config/listener.rs:325-333 | a validated listener with possible statuses does not panic on a request whose lists are legal in the contexts it expands them in, whose target URLs name hosts, whose bodies arrive, and whose filters meet only text |
| Panics.AcceptedListenerCanPanic | src/config/response.rs:120-148 | a listener that validation accepts and whose override status panics |
| Panics.HostlessTargetPanics | src/handler.rs:183-188 | a listener that validation accepts, with legal lists and possible statuses, whose target URL has no host |
| Panics.ConflictPanics | src/handler.rs:136-140 | a listener that validation accepts, two true filters, and a panic in reporting them |
| Panics.DroppedTargetPanics | src/config/response.rs:306-313 | a listener that validation accepts, a dropped target whose id the override cannot put into a header, and every condition of the no-panic theorem but the one on the override's list |
| DroppedTargets.InsistedTargetAnswers | src/config/response.rs:244-322 | where a strategy insists or falls back on a selected target that left a response, the client gets just that one, overridden in that target's context |
| DroppedTargets.UnqueriedTargetAnswers | src/config/response.rs:268-271 | where that target was not selected, the no-target answer, made in the request's context |
| DroppedTargets.DroppedTargetAnswers | src/config/response.rs:259-267 | where its failure was dropped, the no-target answer, made in that target's context |
| DroppedTargets.DroppedTargetIsNamed | tests/basic.rs:253-260 | so a routed request's reply can carry the dropped target's id |
| DroppedTargets.WrongPortIsNamed | tests/configs/integration/basic.yaml:262-290 | the listener of the integration tests: a request only its target on the wrong port is true for gets status 500 and that target's id |

## Left out

- The SigV4 computation and the builder of assume-role providers: foreign crates. Signing is a success or an error per request; a missing region is one of its errors.
- Variable expansion, the jq engine, the failed-status expression, URI parsing and serde: uninterpreted functions. An invalid `failed_status_regex`, on which the handler panics, is taken not to occur.
- The values in the frames `with_request` and `with_response` build: the first is part of the context a request starts with, of which only the names are modelled; the second is an uninterpreted function of the response. `with_target` is modelled.
- TLS, certificates and the HTTP client. Creating a client is taken to succeed; a client is known by the pair it was built from.
- Which client object racing callers of `get_https_client` get: the later insert replaces the earlier, so they may differ. Only what it was built from is stated.
- A spawned request task that itself panics or is aborted (`handle.await.unwrap()`).
- The unwraps inside debug log arguments, evaluated only at debug level; limits on the number and length of headers.
- Clocks that run backwards and overflow of system time. Freshness is stated at the reading the code compares with, not at the moment of return.
- The order in which waiters are granted a lock: any waiter may be next, so the theorems hold for every policy, but no bound on one call's waiting time is stated.
- Poisoned locks: the `expect`s on the map locks in `src/aws_auth/mod.rs` fire only after a panic inside a critical section that has none.
- Which characters the `http` crate takes in a header value: as text for a new value all but control characters (section 5.5 of RFC 9110), read as text only visible ASCII, spaces and tabs.
- Latency of a request, and the order and number of log lines.
- Command line, logging set-up, signals, the health check and the accept loops of `src/lib.rs`.
- Loading the SDK configuration once, and its region.
- CredentialCache.RefreshingCredentials.GetOrRefresh: covers one call, with the effect of all others given as a parameter; interleavings are the subject of the transition system, which is a model on values.
- AwsAuth.CredentialsRegistry.Init: warm-up is modelled without other tasks, since it runs before any listener serves.
- Response.SelectFromTwoTargets: the map is passed and returned as a value instead of being updated through a reference.
- Headers.VisitMap: reads fields whose names serde has already recognised; a value that is not a string and an unknown field are serde's errors.
