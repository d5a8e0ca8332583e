# Nexus-Match: the matchmaking core, modelled and proved

Nexus-Match queues players by rating, pulls ten of them into a room, asks all ten to
accept, and starts a session only if they all do. This project models that core and
proves what it guarantees. `dafny verify dfyconfig.toml` checks everything.

The model has three layers, and a fourth that ties them together.

**The pool** (`internal/state/pool.go`). `MatchPool.Pool` is the pool object: a player map,
bracket slices over backing arrays that are searched, shifted, compacted and shrunk in
place, and the match channels. Every method is proved against a function on values
(`PoolIndex.Insert`, `PoolIndex.Delete`, `Extraction.Extracted`), and the theorems are
about those functions: the bracket index always agrees with the map, an extraction
removes exactly its ten and disturbs no one else, the chosen window is optimal, long
waits are honoured, and no more than 171 players can be left waiting for an extraction
that fails. That bound is attained. `ExtractionOutcomes` says when an extraction fails, when
it succeeds and whom it takes in terms of ratings, ids and enqueue times alone.

**The ready-check protocol** (`internal/services/matchmaker.go`,
`internal/services/gateway.go`). `ReadyCheck` is a transition system with 25 kinds of
action. One action is one step of one goroutine: a stream handler, a client reader, a
tick (several may run at once, since an administrator can force one beside the worker),
a fan-in goroutine, a coordinator. They interleave freely. A `select` is one action per
ready case; a timer may fire whenever it runs. One inductive invariant
(`ReadyCheckInvariant.Inv`) spans all of it, and `ReadyCheckGuarantees` draws the
consequences: agreement on the verdict, no lost event, no send on a closed channel, no
blocked send, exclusive ownership of player objects, progress, self-healing,
conservation, and the language of every status stream. `ReadyCheckDelivery` proves that the
verdict is the players' own (what a gateway answers is what its coordinator receives, and
ten accepts make a game); `GatewayRuns` and `GatewayEndings` follow one stream over a run,
turn by turn and word by word, to its last. The loops of the tick, the
coordinator and the stream handler are also written as methods (`Matchmaking`,
`Coordination`, `GatewayStream`), the first two over the pool and store objects.
`LoopsFollowProtocol` proves that what the tick and the coordinator promise, run to the
end undisturbed, is where a run of the protocol leads, step for step;
`GatewayRuns.StreamsAreServed` proves that every stream of the protocol is what the
handler's loop makes of the turns its actions stand for.

**The session store** (`internal/state/session.go`). `SessionRegistry.SessionStore` holds
session objects that are updated in place; `Sessions` proves when a session becomes
final, that results are written once and in any order, and that the deltas balance.

**The connections** (`Refinement`, `LiveServer`). `Refinement` relates the pool as a value
to the protocol's abstract pool, action by action. `LiveServer.Server` puts the pool
object itself to work in the protocol: one method per action that concerns it, each
making the actual call (`Enqueue`, `ExtractMatch`, `Send`, `Receive`, `Dequeue`,
`ReEnqueue`), each proved to meet the call's precondition, to keep the object valid and
to leave it where the protocol goes. `LiveServer.Execute` does so for any script of requests. Every session
the protocol stores satisfies what the session theorems need.

Player objects are named by a handle, the identity of the object and its channel, because
an id may join again while its earlier object is still in a ready-check.
Scores and waits are exact reals. The order of a map range and the result of the unstable
sort are left open: the proofs hold for every one. Time, timers, fresh session ids and the
scheduler are nondeterministic choices. Ratings in [0, 10000] are assumed only where a
statement says so (`Players.Rated`), as are enqueue times that are not in the future.

Where the code and its own comments disagree, the model follows the code:

- `matchmaker.go:11`, `matchmaker.go:298` and `gateway.go:12` say the players who did
  accept are re-enqueued. The code puts back those whose accept the coordinator had
  gathered when it decided. `AcceptersFate.PutBackExactlyWhen` states the exact condition,
  `AcceptersFate.StrandedAccepter` is a run in which a player answers true, is told it is
  queued again and is not, and `AcceptersFate.LeftForGood` shows that this is permanent.
- `gateway.go:18` and `pool.go:92` call ResultCh an unbuffered broadcast channel. There is
  one per player, buffered for one verdict.
- `pool.go:81` says MatchCh is written exactly once. A re-enqueued player's channel is
  written again by the next room.

## Model

| member | source | states |
|---|---|---|
| Slices.Search | internal/state/pool.go:369-371 | the binary search finds the first position whose rating is not below the given one |
| Slices.InsertSorted | internal/state/pool.go:368-377 | shifting in place or in a grown copy yields the slice with the player put before the first one not rated below it |
| Slices.Shrink | internal/state/pool.go:395-401 | a backing array used to less than a quarter is replaced by an exact copy of fitting length; any other slice stays as it is |
| Slices.RemoveFromSlice | internal/state/pool.go:387-407 | the first player with the id is gone, all others are there in the same order; afterwards at least a quarter of the capacity is in use, unless nothing was removed or is left |
| Ordered.InsertedAt | internal/state/pool.go:366-377 | an inserted player stands right after all rated below it and before all others, so before its equals |
| Ordered.RemoveUndoesInsert | internal/state/pool.go:366-407 | removal undoes insertion on any slice without that id |
| Ordered.InsertedSorted | internal/state/pool.go:366-377 | insertion keeps a bracket sorted by rating |
| PoolIndex.InsertKeepsIndex | internal/state/pool.go:166-169 | after an insertion the index still refines the map: each player exactly once, in the bracket of its rating (`Players.BracketIs`: 500b up to 500b + 499), brackets sorted, none empty, nothing else in them |
| PoolIndex.DeleteKeepsIndex | internal/state/pool.go:217-229 | the same after a removal |
| PoolIndex.DeleteUndoesInsert | internal/state/pool.go:150-237 | Enqueue then Dequeue restores map and brackets exactly |
| PoolIndex.MapDeterminesIndex | internal/state/pool.go:109-121 | any two indexes over the same players have the same brackets, up to the order of equal ratings |
| PoolIndex.LengthsSumToSize | internal/state/pool.go:109-121 | bracket lengths sum to the number of queued players |
| MatchPool.Pool.Enqueue | internal/state/pool.go:150-179 | refuses exactly the ids already queued and then changes nothing; otherwise adds a new object with an open, empty channel of its own |
| MatchPool.Pool.ReEnqueue | internal/state/pool.go:184-204 | of any object: refuses exactly the ids already queued; otherwise the same object goes back, with its enqueue time, and the index is kept; the queued channels stay open and empty if the object's is |
| MatchPool.Pool.Dequeue | internal/state/pool.go:208-237 | returns whether the id was queued; if so removes it from map and bracket and closes its channel, once |
| MatchPool.Pool.FindFullest | internal/state/pool.go:276-288 | finds some bracket no other is longer than, whatever the order of the map range, or reports that there is none |
| MatchPool.Pool.GatherCandidates | internal/state/pool.go:290-301 | collects, in an array of its own, the players of the bracket and of the two on either side (by `ExtractionOutcomes.NeighbourhoodHolds`, all within 1000 points of it) |
| MatchPool.Pool.RemoveSelected | internal/state/pool.go:340-348 | ten in-place removals equal ten removals from the value, and leave the separately stored selection intact |
| MatchPool.Pool.Select | internal/state/pool.go:274-338 | picks ten that some map order and some sort make the choice, or reports fewer than ten candidates |
| MatchPool.Pool.ExtractMatch | internal/state/pool.go:270-360 | success returns such a selection and leaves the pool without exactly those ten; failure changes nothing; the index survives both |
| MatchWindow.WindowScore | internal/state/pool.go:320-330 | the loop computes spread less five times the average wait |
| MatchWindow.ChooseWindow | internal/state/pool.go:316-336 | the loop picks the first window of least score |
| MatchWindow.ScoreIs | internal/state/pool.go:316-330 | a window's score is the spread of its ratings less half a point for each second its ten have waited between them |
| MatchWindow.ChoiceMinimises | internal/state/pool.go:316-336 | on valid candidates the sentinel loses to every window, so the choice is a true minimum |
| MatchWindow.ChoiceWeighs | internal/state/pool.go:316-336 | against any window, twice the spread the choice gives up is at most the seconds its ten were queued earlier between them; against an earlier window it is less |
| MatchWindow.ChoiceBeatsAnyTen | internal/state/pool.go:307-338 | the chosen spread, less half a point per second the chosen ten have waited, is at most the spread of any ten candidates, contiguous or not; with equal waits so is the chosen spread |
| MatchWindow.ChoiceHonoursWaits | internal/state/pool.go:312-338 | if a candidate has waited W seconds, the ten enqueue times of the chosen lie W/10 - 499.8 seconds before now on average, or more |
| Extraction.SelectionFacts | internal/state/pool.go:338-348 | a selection is ten players of the pool with ten distinct ids |
| Extraction.ExtractionFrame | internal/state/pool.go:340-348 | the size falls by ten, the map loses exactly the selected ids, every bracket keeps the others in order, the index is kept |
| Extraction.SelectionBeatsAnyTen | internal/state/pool.go:290-338 | the optimality result for the ten taken from a pool, against any ten of the same neighbourhood |
| Extraction.SelectionHonoursWaits | internal/state/pool.go:290-338 | the waiting bound for the ten taken from a pool; spread at most 2499; no window outweighs it in ratings and enqueue times |
| Extraction.FailureStrandsFew | internal/state/pool.go:276-305 | a pool of valid ratings on which any run of the extraction can fail holds at most 171 players |
| ExtractionOutcomes.NeighbourhoodHolds | internal/state/pool.go:290-301 | the candidates around bracket k are exactly the queued players rated from 500k - 1000 to 500k + 1499, each once |
| ExtractionOutcomes.FailsExactlyWhen | internal/state/pool.go:276-305 | an extraction can fail if and only if nobody is queued, or some 500-point range no other outnumbers has fewer than ten players from 1000 below to 1000 above it |
| ExtractionOutcomes.SucceedsExactlyWhen | internal/state/pool.go:276-338 | and can succeed if and only if some such range has ten of them |
| ExtractionOutcomes.SelectionIs | internal/state/pool.go:270-338 | whoever is taken: ten queued players in reach of a fullest range, in order of rating, no worse than any ten in reach, honouring the wait of everyone there |
| CrowdedPool.BoundIsTight | internal/state/pool.go:276-305 | there is a pool of exactly 171 on which it fails |
| Extraction.ReEnqueueRestores | internal/state/pool.go:184-204 | putting removed players, such as an extracted ten, back in any order restores the player map with its enqueue times, and the brackets up to the order of equal ratings |
| Matchmaking.Matchmaker.Announce | internal/services/matchmaker.go:143-162 | every selected player's channel receives its own event, with its own index; no other channel changes |
| Matchmaking.Matchmaker.Match | internal/services/matchmaker.go:119-172 | one turn of the tick loop: an extraction, ten delivered events, the counter up by one; or nothing at all |
| Matchmaking.Matchmaker.Tick | internal/services/matchmaker.go:118-179 | the loop ends; the rooms are successive extractions, all their players are told, the counter rises by their number, and the pool left is one an extraction can fail on |
| Matchmaking.DrainedIsShared | internal/services/matchmaker.go:118-179 | the rooms of a tick are disjoint tens of distinct players; together with those left, unchanged, they are the whole pool |
| Matchmaking.TickOutcome | internal/services/matchmaker.go:118-123 | a tick leaves at most 171 players of valid rating, and sizes add up |
| Coordination.Gather | internal/services/matchmaker.go:223-257 | the gather loop accepts the room exactly when all ten sent true, and otherwise has recorded exactly the accepts that came before the first refusal or the timeout |
| Coordination.GatherFollowsProtocol | internal/services/matchmaker.go:223-257 | the protocol's gather steps end in the same phase with the same record |
| Coordination.Tell | internal/services/matchmaker.go:280-296 | every result channel holds the verdict and is closed |
| Coordination.PutBack | internal/services/matchmaker.go:298-313 | the re-enqueue loop over the real pool puts back the recorded accepters whose id is free |
| Coordination.FailedRoomReturns | internal/services/matchmaker.go:298-313 | after an undisturbed failed room the pool is the one before the extraction without the players whose accept was not gathered; times and index kept |
| Coordination.Coordinate | internal/services/matchmaker.go:192-314 | the whole room: session stored with the ten ids and pool untouched, or no session and the accepters back; ten results told either way |
| ReadyCheckPool.ActionKeeps | internal/services/matchmaker.go:118-314 | every action of every goroutine keeps the protocol invariant |
| ReadyCheckPool.RunsOk | internal/services/matchmaker.go:118-314 | the invariant holds in every state of every run |
| ReadyCheckGuarantees.ExclusiveOwnership | internal/services/matchmaker.go:118-167 | an object is in the pool at most once or held by at most one seat of one room, never both; each room has ten distinct ids |
| ReadyCheckGuarantees.VerdictMeansAllAccepted | internal/services/matchmaker.go:223-272 | in every reachable state, a room's verdict is true exactly when a true response of each of the ten indices was gathered |
| ReadyCheckDelivery.ResponsesArrive | internal/services/matchmaker.go:207-221 | in every reachable state, until a room's context is done, each gateway's answer is in its response channel or was forwarded as it was given, and nothing else was forwarded |
| ReadyCheckDelivery.VerdictIsTheirs | internal/services/matchmaker.go:223-272 | in every run, the verdict of a room that did not time out is true exactly when all ten said true, and false exactly when one said false |
| ReadyCheckDelivery.TenAcceptsMakeAGame | internal/services/matchmaker.go:192-284 | from any reachable state in which all ten of a gathering room have said true in time, some run stores the session with their ids and tells each of the ten IN_GAME |
| ReadyCheckGuarantees.Agreement | internal/services/gateway.go:223-258 | all gateways of a room that read a verdict read the same one |
| ReadyCheckGuarantees.InGameIsCommitted | internal/services/gateway.go:239-258 | IN_GAME is sent only for a stored session of the room's ten distinct ids, all of whom accepted and none of whom is re-enqueued from it |
| ReadyCheckGuarantees.VerdictsAreFinal | internal/services/matchmaker.go:258-296 | over any run a verdict, once reached, never changes, nor does what a seat said or heard |
| ReadyCheckGuarantees.ChannelsSafe | internal/services/matchmaker.go:143-162 | queued players have open, empty channels; no send hits a closed channel, none is closed twice, no default branch of a send is ever taken |
| ReadyCheckGuarantees.SendsNeverBlock | internal/services/matchmaker.go:207-221 | fan-in, result and cancel channels always have room when they are sent to |
| ReadyCheckGuarantees.FateOfWaiting | internal/services/gateway.go:223-237 | a waiting gateway's object is queued, held by an undecided or failed room, closed, or left behind ungathered or refused; nothing else |
| ReadyCheckGuarantees.SelfHealing | internal/services/gateway.go:89-92 | an object extracted once its gateway has begun to return, before or after the deferred Dequeue, fails its room, is never re-enqueued and never extracted again |
| ReadyCheckGuarantees.SpentForGood | internal/services/gateway.go:186-220 | the same from any state in which a seated object's gateway is returning without having accepted: timed out, gone, or never asked |
| ReadyCheckGuarantees.RoomCanStep | internal/services/matchmaker.go:192-314 | until it is done, a room has an enabled step of its own |
| ReadyCheckGuarantees.RoomsRunDown | internal/services/matchmaker.go:192-314 | each such step decreases a measure of at most 200 that no other action increases and that is zero only when the room is done |
| ReadyCheckGuarantees.AwaitingIsServed | internal/services/gateway.go:223-225 | a gateway waiting for a verdict can read one or its room can step |
| ReadyCheckGuarantees.StreamLanguage | internal/services/gateway.go:94-291 | every stream is a prefix of WAITING, rounds of WAITING or READY_CHECK WAITING, and an ending, with IN_GAME for the session just asked about |
| ReadyCheckGuarantees.AcceptTokens | internal/services/gateway.go:107-141 | a stream answers true at most as often as it received AcceptMatch |
| ReadyCheckGuarantees.SessionNeedsTenAccepts | internal/services/matchmaker.go:259-272 | a session exists only if each of its ten streams received an AcceptMatch |
| ReadyCheckGuarantees.Conservation | internal/services/matchmaker.go:118-172 | enqueues plus re-enqueues equal queued plus dequeued plus ten per extraction; the matches counter counts the rooms whose tick passed the increment |
| AcceptersFate.PutBackExactlyWhen | internal/services/matchmaker.go:298-313 | the re-enqueue loop puts a player back if and only if its accept was gathered and its id is not queued |
| AcceptersFate.StrandedAccepter | internal/services/matchmaker.go:239-247 | a reachable state, after a fast fail, in which a player answered true, was told it is queued again, and is in neither pool nor room |
| AcceptersFate.LeftForGood | internal/services/matchmaker.go:298-313 | an object let go by a failed room stays out of the pool and of every room in all that follows |
| StatusStream.UnbrokenIsPrefix | internal/services/gateway.go:94-291 | a stream the automaton accepts is a prefix of one in the grammar |
| StatusStream.PrefixIsUnbroken | internal/services/gateway.go:94-291 | and conversely |
| GatewayStream.AnswerMatch | internal/services/gateway.go:152-258 | one match turn of the handler: READY_CHECK, the response, then CANCELLED, WAITING or IN_GAME; IN_GAME only after an accept and a true verdict |
| GatewayStream.Serve | internal/services/gateway.go:94-293 | whatever the selects pick, what the handler sends is a prefix of the stream language, complete when the handler concluded; every IN_GAME room had a true response |
| GatewayRuns.StreamsAreServed | internal/services/gateway.go:94-293 | in every run, what a gateway has sent and accepted is what the handler's loop has after exactly the turns its actions stand for (a cancel taken, a closed channel, a status tick, a client gone, a match with its event, answer and verdict), up to the turn it is in |
| GatewayEndings.StreamIsItsWords | internal/services/gateway.go:94-293 | in every run a stream is, word for word, one message per step of its handler: WAITING for a greeting, a tick or a verdict false, READY_CHECK and IN_GAME with the room's session, CANCELLED for a cancel, a closed channel or a failed ready-check |
| GatewayEndings.LastWordsAreLast | internal/services/gateway.go:152-290 | after a cancel, a closed channel or a failed ready-check CANCELLED is the last message for the rest of the run, as is IN_GAME after a verdict true, or a message that could not be sent |
| GatewayEndings.NoOtherWayOut | internal/services/gateway.go:148-291 | a handler returns in no other way |
| GatewayEndings.RemovalIsLasting | internal/services/gateway.go:272-273 | a cancel and the deferred Dequeue leave the id unqueued, and the object is never queued again unless a room held it at the time and put it back when it failed |
| GatewayEndings.ClosedIsLasting | internal/services/gateway.go:152-160 | a gateway that finds its channel closed has an object that is in neither pool nor room for the rest of the run |
| GatewayEndings.RequestsWait | internal/services/gateway.go:107-141 | a cancel or an accept the client sent can be taken by the handler at any later time it waits for one, until it is |
| Refinement.StepRefines | internal/state/pool.go:150-360 | whatever the pool, as a value, does in an action, the protocol's abstract pool and channels do the same |
| Refinement.ExtractionAllowed | internal/state/pool.go:270-360 | every extraction the pool can make is one the protocol allows, and takes the objects selected |
| Refinement.PoolStaysReady | internal/state/pool.go:158-164 | in every reachable state the pooled players have open, empty channels of their own |
| Refinement.ReEnqueueAllowed | internal/services/matchmaker.go:300-302 | whenever the loop puts a player back, its channel is open and empty and no one queued has it, however the steps interleaved |
| Refinement.JointRunsStayCoupled | internal/state/pool.go:109-121 | in every run of the protocol beside the pool as a value, index, map, channels and protocol agree in every state |
| LiveServer.Server.Join | internal/services/gateway.go:78-92 | a join calls Enqueue on the pool object; it is refused exactly when the id is queued, and otherwise is the protocol's join |
| LiveServer.Server.Match | internal/services/matchmaker.go:119-123 | ExtractMatch on the pool object is the protocol's extraction of those ten, whatever else is under way; it fails only on a pool where an extraction can, which leaves at most 171 queued |
| LiveServer.Server.Deliver | internal/services/matchmaker.go:152-162 | the send of one event meets an open, empty channel, puts that seat's event in it and in no other, and is the protocol's delivery |
| LiveServer.Server.Receive | internal/services/gateway.go:152-178 | a gateway's receive takes the event in its object's channel, and the client is asked about its session, as in the protocol |
| LiveServer.Server.Leave | internal/services/gateway.go:272-279 | a cancel's or a deferred Dequeue on the pool object is the protocol's: the id is out of the player map, and after a cancel the client is told CANCELLED and the handler returns |
| LiveServer.Server.Requeue | internal/services/matchmaker.go:300-313 | one turn of the re-enqueue loop calls ReEnqueue on the pool object with an object fit to go back, and is the protocol's step |
| LiveServer.Server.Handle | internal/services/gateway.go:71-79 | a request is met exactly when it can be: a valid join of a free id, any other action when it is enabled; a match is refused only for a room id in use or where an extraction can fail |
| LiveServer.Execute | internal/services/matchmaker.go:118-314 | any script of requests put to a server with a real pool object is a run of the protocol beside the pool, with one step for each request in turn that could be met, ending in what the object holds |
| LoopsFollowProtocol.MatchFollowsProtocol | internal/services/matchmaker.go:119-172 | what one turn of the tick loop promises is where the protocol's extraction, ten sends, launch and count lead |
| LoopsFollowProtocol.TickFollowsProtocol | internal/services/matchmaker.go:118-179 | what a whole undisturbed tick promises is where a run of the protocol leads, room by room, with the counter up by their number |
| LoopsFollowProtocol.CoordinateFollowsProtocol | internal/services/matchmaker.go:192-314 | what an undisturbed coordinator promises, verdict, session, result channels and pool, is where a run of the protocol leads |
| Refinement.JointRunsStrandFew | internal/state/pool.go:276-305 | in any state of a concurrent run in which an extraction can fail, and every object made so far has a valid rating, at most 171 players are queued |
| Refinement.StoredSessionsFinalize | internal/services/matchmaker.go:264-272 | a session a coordinator stored has ten distinct ids and is final exactly when each of the ten players has made a valid submission |
| Sessions.FinalExactlyWhenAllSubmitted | internal/state/session.go:150-157 | after any submissions, accepted or not, a session is final if and only if its ids are distinct, not none, and every player is the author of a submission with result 1, 2 or 3 |
| Sessions.EntryMeansSubmitted | internal/state/session.go:105-148 | a player of the session has an entry exactly when it submitted a result of 1, 2 or 3, whatever else was submitted |
| Sessions.ResultsAreWriteOnce | internal/state/session.go:124-148 | no later submission changes an entry, and a final session stays final |
| Sessions.AcceptableAreAccepted | internal/state/session.go:105-162 | submissions of different players of the session, without earlier entries and with valid results, are all accepted and leave exactly their entries |
| Sessions.AcceptedWereAcceptable | internal/state/session.go:105-162 | and only such submissions are all accepted |
| Sessions.OrderDoesNotMatter | internal/state/session.go:105-162 | any reordering of accepted submissions is accepted and ends in the same state |
| Sessions.DeltasBalance | internal/state/session.go:129-148 | the deltas handed out add up to 25 times wins less losses |
| SessionRegistry.Session.Submit | internal/state/session.go:114-161 | the membership loop, the checks in their order and the in-place update: a player outside, a second submission and a result other than 1, 2 or 3 are refused, each as such, and change nothing; else the entry is stored with the delta returned |
| SessionRegistry.SessionStore.CreateSession | internal/state/session.go:86-101 | a fresh, empty session object under the id; all others are the same objects as before |
| SessionRegistry.SessionStore.RecordResult | internal/state/session.go:105-162 | reports an unknown session, else answers and stores in that session as above, and changes no other |
| SessionRegistry.SessionStore.ActiveCount | internal/state/session.go:177-188 | the loop counts exactly the sessions that are not final |
| SessionRegistry.ActiveIsCreatedLessFinalized | internal/state/session.go:86-188 | over any operations, active sessions are those created less those finalized, less active ones replaced under their own id |
| SessionRegistry.FreshIdsReplaceNothing | internal/state/session.go:86-188 | with fresh ids nothing is replaced, so active is created less finalized |
| SessionRegistry.SessionsAreSeparate | internal/state/session.go:86-162 | each session is its last creation followed by the submissions made to it since, whatever happened to others |

## Left out

- LiveServer.Server: one action at a time, as the mutexes make each pool call; the goroutines are the interleaving of its requests.
- Coordination.Coordinate: runs one room with nothing in between its steps; what other goroutines may do between them is the subject of ReadyCheck and LiveServer.
- Matchmaking.Matchmaker.Tick: likewise runs undisturbed; concurrent ticks, joins and leaves are in ReadyCheck and LiveServer.
- GatewayRuns.StreamsAreServed: goes one way; not every sequence of turns is one the rest of the system can bring about (the same event twice, say), so the handler alone can send more than the protocol does.
- GatewayStream.Serve: takes what its selects picked as given and leaves its pool calls (the join, the cancel and the deferred removal) to ReadyCheck.
- ReadyCheckGuarantees.ExclusiveOwnership: a room holds a seat until its re-enqueue loop has passed it, so an object put back early may be in a new room while the old one is still busy with later seats.
- Slices.SortByMMR: stands in for the library sort; callers know only that the result is a sorted permutation.
- Vacated slice slots are not set to nil, since nothing reads them; a slice grows to twice its length plus one, the library's growth policy being its own.
- Float64 rounding of waits and scores: exact reals.
- Real time: the 10 and 12 second timers and the tickers fire whenever they run.
- The mutexes: each pool or store method is one step.
- The stream's first message and its validation, refused joins beyond ending the stream, heartbeats, message texts and queue positions: read off single branches.
- Starting and stopping the worker, and its recovered double close.
- ForceMatch's reply: the difference of two counter readings, of which nothing holds when ticks run side by side.
- GetSession: it returns the shared object, so it promises no snapshot; StartedAt and EndedAt.
- Pool.Contains and Pool.Size: single look-ups.
- The tracker service, gRPC, interceptors, generated code, logging, server wiring and the client.
