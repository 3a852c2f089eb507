# relume-tv, modelled and verified

relume-tv stands between an Ambilight TV and a Hue Bridge Pro. The TV believes it talks to
an old Hue bridge; relume-tv takes its light writes and its entertainment stream and passes
them on to the Pro. This project models the parts of it whose correctness is decided by the
code and is hard to see from any one function, and proves what they promise.

- **Writes** (`WriteQueue`, `Delivery`, `LightWrites`): the TV's light states are acknowledged
  at once, queued latest-per-light and drained by one goroutine to the Pro, while a shutdown
  may raise its fence at any moment.
- **Lights** (`LightMap`, `LightCache`, `Zone`): the numbering of the Pro's colour lights, the
  list cache with its single fetch in flight, and the zone the TV declares, which the server
  and the streamer each keep.
- **The entertainment stream**: `Receiver` replaces TV sessions so that Start and Stop
  alternate; `StreamRun` is the resource protocol those calls drive (activate, dial, send,
  tear down, retry); `Members` and `EnsureConfig` find, check and create the Pro's
  configuration; `Median`, `Easing` and `Pipeline` are the colour path from a TV sample to
  the frame sent; `Streaming` runs receiver and streamer together, and `EndToEnd` joins zone,
  configuration, colour path and encoding.
- **Fallback** (`Fallback`): the watchdog that returns the TV to REST when it announces a
  stream and never opens it.
- **Wire formats** (`Mdns`, `Strings`, `HueStream`): DNS name decompression, section 4.1.4 of RFC 1035,
  and the HueStream datagrams.
- **Setup** (`Setup`): the wizard's steps.

## How it is modelled

Code that changes fields under a lock is a class whose methods are the critical sections;
each is proved against a function on the value of those fields. Code that runs concurrently
is a step system over such values: a step is one critical section, one atomic load, one
Pro call, or one channel operation, every reply and every interleaving is allowed, and a
run is a value of type `Trace` (or `Run`). A theorem about a run holds for every legal one.
Logs of what was submitted, attempted, started, activated or reported are part of the state
of the step system only.

Loops are loops, with the invariants that tie them to their specification. 8- and 16-bit
values are the subset types `Byte` and `Word`; wherever the source narrows a value, the
model shows that it fits or skips it as the source does.

## What turned out otherwise than documented or expected

- `SecondFrameTakesSpike`: with two samples in its window the filter takes the upper one for
  the median, so a spike in the first frame replaces the second, exactly when it exceeds it
  by more than the threshold. Odd windows avoid this once full, not while they fill.
- `LeakIffUnnamed`: Stop leaves a stream active exactly when its configuration id is empty;
  only a later failing attempt on the same client and id stops it (`LeftUntilNextAttempt`).
- `GrowsIff`, `FailedDeleteGrows`: the comment that the listing prevents duplicate
  configurations holds as long as a stale one can be deleted. A new one is created even if
  that failed.
- `CancelLetsFramesOut`: when the context is cancelled, the receiver may forward frames after
  the session's Stop has begun; `FrameFollowsStopIff` says exactly when.
- `ActiveAfterLatch`: the group can be active while the fallback is latched, because checking
  and activating are separate critical sections; `LatchAmidIff` says exactly in which runs.
- `ActiveUnwatched`: the group can be active with no watchdog, because a stream's end leaves it
  active; `WatchedIffAwaiting` says exactly when it is watched.
- `ZonesCanDiffer`: two group updates served at once can leave the server and the streamer
  with different zones for good; `AgreeIff` says exactly when they agree.
- `AlwaysArrivesIffMoves`: easing reaches every target exactly when 257 times its weight is
  at least one half; below that it stalls forever at a distance of 257.

## Model

| member | source | states |
|---|---|---|
| Mdns.ReadName | backend/internal/diag/mdns.go:116-155 | succeeds exactly when following labels and pointers reaches a zero byte inside the message, with those labels and the position behind the name on the wire; always ends |
| Mdns.DnsQuestionNames | backend/internal/diag/mdns.go:97-113 | the names of the announced questions in order, up to the first unreadable one; none for a message shorter than its header |
| Mdns.FiniteNameIsShort | backend/internal/diag/mdns.go:119-140 | a name that ends takes fewer hops, pointers included, than the message has bytes, so the jump budget rejects no name |
| Mdns.NoOffsetTwice | backend/internal/diag/mdns.go:119-140 | a walk that ends never visits an offset twice, the heart of the budget's exactness |
| Mdns.StuckIsNoName | backend/internal/diag/mdns.go:128-149 | a walk stuck before a zero byte, or as long as the message, shows that there is no name |
| Mdns.WrittenNameReads | backend/internal/diag/mdns.go:116-155 | a name written label by label reads back as those labels and ends behind its zero byte |
| Mdns.CompressedNameReads | backend/internal/diag/mdns.go:127-141 | labels followed by a pointer read as the labels and those of the target; the name ends behind the first pointer |
| Mdns.SectionReads | backend/internal/diag/mdns.go:97-113 | every question of a well-formed section is found, in order, under its own name |
| Mdns.PointerTarget | backend/internal/diag/mdns.go:128-136 | a pointer leads to the offset in the low 14 bits of its two bytes |
| Mdns.NameIsWhole | backend/internal/diag/mdns.go:142-149 | every label of a name lies whole inside the message |
| Mdns.JoinedByte | backend/internal/diag/mdns.go:124-149 | the text of a name: every byte of every label in its place, behind the labels before it and a dot for each, and nothing else |
| Mdns.JoinedDot | backend/internal/diag/mdns.go:124-127 | every label but the first has a dot before it |
| Strings.ByteInPlace | backend/internal/diag/mdns.go:124-127 | in joined texts every byte of every text stands behind the texts before it and a separator for each |
| HueStream.Parse | backend/internal/huestream/huestream.go:98-140 | a datagram decodes to its header fields and whole records, or to the error its length, magic or version calls for |
| HueStream.ParseRecords | backend/internal/huestream/huestream.go:117-136 | the record loops take every whole record and leave the rest |
| HueStream.Encode | backend/internal/huestream/huestream.go:54-85 | the datagram is header, padded configuration id (v2) and the records of the channels that fit |
| HueStream.EncodeV2 | backend/internal/huestream/huestream.go:60-73 | a channel whose id needs two bytes is left out, all others appear in order |
| HueStream.EncodeV1 | backend/internal/huestream/huestream.go:74-83 | every channel appears in order with its two-byte id |
| HueStream.AppendU16 | backend/internal/huestream/huestream.go:87-92 | two bytes whose big-endian value is the number |
| HueStream.EncodeThenParse | backend/internal/huestream/huestream.go:54-140 | decoding an encoded frame gives the frame with its id cleared (v1), or padded or cut to 36 bytes and channels above 255 dropped (v2), or unsupported |
| HueStream.RoundTripIffWellFormed | backend/internal/huestream/huestream.go:54-140 | encode then parse is the identity exactly on the well-formed frames |
| HueStream.ParsedIsWellFormed | backend/internal/huestream/huestream.go:98-140 | every accepted datagram gives a well-formed frame whose channel count is fixed by the length |
| HueStream.ParseThenEncode | backend/internal/huestream/huestream.go:54-140 | parsing what an accepted datagram re-encodes to gives the same result |
| HueStream.TrailingBytesIgnored | backend/internal/huestream/huestream.go:117-136 | bytes behind the last whole record change nothing |
| HueStream.AcceptedIff | backend/internal/huestream/huestream.go:98-116 | a datagram is accepted exactly if it has a whole header, starts with the nine letters, and is of version 1, or of version 2 with a whole configuration id |
| HueStream.RefusedFor | backend/internal/huestream/huestream.go:98-140 | any other is refused for the first thing wrong with it: length, letters, version, or a cut id |
| HueStream.HeaderLayout | backend/internal/huestream/huestream.go:103-126 | the byte each header field is read from |
| HueStream.ChannelLayoutV1 | backend/internal/huestream/huestream.go:128-140 | the bytes a v1 channel is read from, big-endian, in records of nine |
| HueStream.ChannelLayoutV2 | backend/internal/huestream/huestream.go:117-127 | the bytes a v2 channel is read from, big-endian, in records of seven |
| HueStream.ReservedAreZero | backend/internal/huestream/huestream.go:54-73 | an encoded frame is zero in its reserved bytes and begins with the nine letters |
| HueStream.TypeIsZero | backend/internal/huestream/huestream.go:74-83 | the first byte of an encoded v1 record is zero |
| LightMap.LightsV1 | backend/internal/translate/lights.go:25-39 | the colour lights are numbered from 1 in list order |
| LightMap.Invert | backend/internal/bridge/provider.go:194-201 | whatever order the map is visited in, each id is sent to a number it occurs under |
| LightMap.MutualInverses | backend/internal/bridge/provider.go:194-201 | with distinct ids the two maps undo each other on exactly 1 to n |
| LightMap.InverseIsUnique | backend/internal/bridge/provider.go:194-201 | with distinct ids the inverse does not depend on the order of the visit |
| LightMap.NumberedIffColor | backend/internal/translate/lights.go:28-37 | a light has a number exactly when it has colour |
| LightMap.NumbersFollowList | backend/internal/translate/lights.go:25-39 | a colour light's number is one more than the number of colour lights before it in the list |
| LightCache.Provider.Poll | backend/internal/bridge/provider.go:127-160 | the first section of a list request: serve, wait for the fetch in flight, or start one |
| LightCache.Provider.Publish | backend/internal/bridge/provider.go:173-202 | the end of a fetch: new list and both maps on success, the old ones kept on failure |
| LightCache.Provider.Collect | backend/internal/bridge/provider.go:140-160 | what a waiter is answered once the fetch it waited for has ended |
| LightCache.OneFetch | backend/internal/bridge/provider.go:127-202 | at most one fetch is ever in flight |
| LightCache.CacheNeverLost | backend/internal/bridge/provider.go:127-202 | a list once fetched is never lost, and every later request returns at once |
| LightCache.AnswersAreSound | backend/internal/bridge/provider.go:127-160 | a request yields a list or an error, never neither; an error exactly if no fetch had succeeded by then |
| LightCache.RefreshesAreSpaced | backend/internal/bridge/provider.go:130-137 | with a list at hand, a fetch starts no sooner than a TTL after the last one ended, failed or not |
| LightCache.MapsAreInverse | backend/internal/bridge/provider.go:173-220 | in every published state the id maps are mutual inverses on 1 to n |
| LightCache.FetchStartsIff | backend/internal/bridge/provider.go:127-150 | a request starts a fetch exactly if none is in flight and there is no list, or the last fetch ended five seconds ago or more |
| LightCache.CacheIsNewest | backend/internal/bridge/provider.go:173-202 | the cached list is the newest a fetch brought, and the error kept that of the newest fetch, if it failed |
| LightCache.AnswerIsNewest | backend/internal/bridge/provider.go:127-160 | a request that returns yields the newest list fetched by then, or if there is none the newest error |
| LightCache.WaitsForFetch | backend/internal/bridge/provider.go:138-150 | a request waits exactly if there is no list, and then for a fetch in flight |
| Zone.ParseGroupLights | backend/internal/clipv1/server.go:233-252 | a light list gives the valid ids in order, and counts only if there is one |
| Zone.IdsAreTheListed | backend/internal/clipv1/server.go:240-247 | the ids are exactly the listed numbers from 1 to 65535; none wraps into another light |
| Zone.Server.SetRequestedMembers | backend/internal/clipv1/server.go:256-263 | the zone becomes exactly the ids |
| Zone.Server.AllowsMember | backend/internal/clipv1/server.go:272-279 | a light passes exactly if it is in the zone or none is declared |
| Zone.NeverUndeclared | backend/internal/clipv1/server.go:256-267 | a declared zone never becomes empty or undeclared, in the server and in the streamer |
| Zone.AgreeIff | backend/internal/clipv1/server.go:256-267 | with no update half done, server and streamer agree exactly if the last to store was the last to hand over, or both declared the same lights |
| Zone.AgreeWhenSerial | backend/internal/clipv1/server.go:256-267 | if whoever hands over is always the last that stored, they agree whenever no update is half done |
| Zone.ZonesCanDiffer | backend/internal/clipv1/server.go:256-267 | two interleaved updates after which they differ |
| WriteQueue.Provider.SetLightV1 | backend/internal/bridge/provider.go:227-252 | a state is queued over an older one of its light, refused once closed, and starts a drain if none runs |
| WriteQueue.Provider.TakeBatch | backend/internal/bridge/provider.go:258-277 | a drain takes the whole queue, or finds it empty and gives up its place in the same section |
| WriteQueue.Provider.BeginClose | backend/internal/bridge/provider.go:284-293 | Close raises the fence, empties the queue, and learns of the drain to wait for |
| WriteQueue.NoLostWakeUp | backend/internal/bridge/provider.go:227-277 | at most one drain is in its loop, and one is whenever a state is queued |
| WriteQueue.WritesAreConserved | backend/internal/bridge/provider.go:227-293 | every accepted state is in exactly one place: queued, in a taken batch, attempted, superseded by a newer one, or discarded by Close |
| WriteQueue.ProSeesSubmissionOrder | backend/internal/bridge/provider.go:227-277 | per light, states are attempted and written in the order submitted, each at most once |
| WriteQueue.LastWriteWins | backend/internal/bridge/provider.go:227-277 | at rest and not closed, the last state submitted for a light is the last one attempted |
| WriteQueue.DrainProgress | backend/internal/bridge/provider.go:258-277 | every step of a drain uses up work, so without new writes it ends |
| WriteQueue.DrainsToRest | backend/internal/bridge/provider.go:258-277 | from every reachable state, drain steps alone empty the queue and end the drain |
| WriteQueue.CloseIsFinal | backend/internal/bridge/provider.go:284-307 | once Close has returned true, no Pro write is under way and none ever starts |
| WriteQueue.AtMostOneLateWrite | backend/internal/bridge/provider.go:336-383 | from the raising of the fence on, at most one more Pro write starts |
| Delivery.AcceptedIffOpen | backend/internal/bridge/provider.go:227-252 | a state is queued under its own light exactly while the provider is open, and else changes nothing |
| Delivery.AttemptReachesProIff | backend/internal/bridge/provider.go:336-383 | a forward that is over has called the Pro exactly if its state says something, its light was found, and neither load of `closed` found the fence up |
| Delivery.LookupDecides | backend/internal/bridge/provider.go:349-362 | a fetch is made only for a light whose id was not known, and the Pro is called only for one whose id was found |
| Delivery.LastWriteReachesPro | backend/internal/bridge/provider.go:227-277 | at rest and open, the newest state of a light is the last of it the Pro was called with, if it says something and its light was found |
| Delivery.NewestIsDelivered | backend/internal/bridge/provider.go:227-277 | whatever is queued, the newest state of each light reaches the Pro once the TV pauses, if it says something and its lookups succeed |
| Delivery.AnswerTellsEnd | backend/internal/bridge/provider.go:284-307 | Close answers true exactly if no drain ran or the one it waited for has ended, a timeout included |
| Delivery.CloseCanAnswer | backend/internal/bridge/provider.go:284-307 | from every reachable state a waiting Close can come to answer true, by steps of the drain and its own |
| LightWrites.Server.SetLightProvider | backend/internal/clipv1/server.go:173-181 | installs the provider, closed before it is visible if writes are closed |
| LightWrites.Server.RaiseFence | backend/internal/clipv1/server.go:197-203 | marks writes closed for good and names the provider to close |
| LightWrites.FenceHolds | backend/internal/clipv1/server.go:197-203 | after CloseLightWrites returned true, the provider current at its fence has no Pro call under way and never starts one, and no later provider wrote or writes |
| LightWrites.CurrentStaysSilent | backend/internal/clipv1/server.go:197-203 | the same over every continuation of a run, for the provider current at the fence |
| LightWrites.LaterNeverWrites | backend/internal/clipv1/server.go:173-203 | a provider installed while the fence is up never accepts a write and never makes a Pro call, whether CloseLightWrites still waits, timed out or returned true |
| LightWrites.BehindEveryFence | backend/internal/clipv1/server.go:173-203 | likewise every provider installed after some call raised the fence, whatever became of that call |
| LightWrites.EachProviderIsQueue | backend/internal/clipv1/server.go:173-203 | in every run each provider ever installed does exactly what a write queue of its own does, born open or closed, so that everything proved of those holds of it |
| LightWrites.InstallTells | backend/internal/clipv1/server.go:173-181 | a provider set is the current one, empty, and closed exactly if the fence is up; the others stay as they are |
| LightWrites.FenceIffCalled | backend/internal/clipv1/server.go:197-203 | writes are closed exactly once some CloseLightWrites was called |
| LightWrites.AnswerTellsClose | backend/internal/clipv1/server.go:197-203 | CloseLightWrites answers what the Close of the provider current at its fence answered, and true without one |
| LightWrites.FenceCaptures | backend/internal/clipv1/server.go:197-203 | each call is about the provider current when it raised the fence |
| Receiver.Sessions.Register | backend/internal/entertainment/receiver.go:140-144 | a handler becomes the current session and learns which one it replaces |
| Receiver.Sessions.Superseded | backend/internal/entertainment/receiver.go:160-165 | whether the registry names another session than this one |
| Receiver.SupersededIffNewer | backend/internal/entertainment/receiver.go:154-166 | the check after waiting finds another session exactly if one has registered since |
| Receiver.Sessions.Unregister | backend/internal/entertainment/receiver.go:145-153 | a handler clears the current session only if that is still itself |
| Receiver.CallbacksAlternate | backend/internal/entertainment/receiver.go:138-174 | for any number of overlapping connections the callbacks are Start x, Stop x, Start y, Stop y for increasing sessions, none beginning before the last returned |
| Receiver.SupersededIsSilent | backend/internal/entertainment/receiver.go:154-166 | a session superseded while it waited emits neither callback nor frame |
| Receiver.FramesStayInBracket | backend/internal/entertainment/receiver.go:201-316 | only after a context cancel is a frame forwarded outside its session's Start and Stop |
| Receiver.FrameFollowsStopIff | backend/internal/entertainment/receiver.go:201-316 | once a session's Stop has begun, a frame of it may still be forwarded exactly if its queue is not drained or its reader not done, and only a cancel leaves it so |
| Receiver.CancelLetsFramesOut | backend/internal/entertainment/receiver.go:310-313 | a run in which it happens |
| Receiver.DropsOnlyWhenFull | backend/internal/entertainment/receiver.go:249-258 | a frame is dropped only when it finds eight queued, and it is the newest that goes |
| Receiver.QueueDrainedBeforeStop | backend/internal/entertainment/receiver.go:201-316 | accepted frames are forwarded in order, at most eight queued, and all of them before a Stop that no cancel forced |
| Receiver.PutKeepsFrame | backend/internal/entertainment/receiver.go:249-258 | a frame that finds fewer than eight queued is itself queued, last; any other is dropped and counted |
| Receiver.AcceptedAreReads | backend/internal/entertainment/receiver.go:226-258 | in every run a session's accepted frames are exactly those the TV sent, in order, without the ones that found eight queued; all of them if none was dropped |
| Receiver.ForwardedAreReads | backend/internal/entertainment/receiver.go:201-316 | frames reach the sink as the TV sent them, and before a Stop that no cancel forced, all that were accepted |
| Receiver.FramesAreLogged | backend/internal/entertainment/receiver.go:211-220 | the log shows exactly the frames handed to the sink, so the brackets speak of all of them |
| Receiver.OneFrameAtATime | backend/internal/entertainment/receiver.go:213-218 | the next frame is handed over only when OnFrame has returned from the last |
| Receiver.CallbacksAreMade | backend/internal/entertainment/receiver.go:138-174 | who is past its start has had its Start and who is past its stop its Stop, superseded sessions excepted |
| Receiver.SupersededHasNewer | backend/internal/entertainment/receiver.go:154-166 | only a newer session supersedes one |
| Receiver.NewestStarts | backend/internal/entertainment/receiver.go:138-174 | from every point, with nothing more from the TV, the newest session gets its Start |
| Receiver.DoneIffDisconnected | backend/internal/entertainment/receiver.go:222-241 | a reader ends exactly when the TV hangs up or its connection is cut, and reads nothing afterwards |
| Receiver.DisconnectedEnds | backend/internal/entertainment/receiver.go:295-316 | a started session whose reader has ended comes to its end by its own steps alone, its Stop called |
| Receiver.NeverStuck | backend/internal/entertainment/receiver.go:154-166 | whenever a session waits for its predecessor, some session can take a step of its own |
| Receiver.RankFalls | backend/internal/entertainment/receiver.go:138-316 | such steps use up a bounded budget |
| Receiver.ReplacementCompletes | backend/internal/entertainment/receiver.go:138-174 | so from every reachable state the newest session gets past its waiting |
| StreamRun.Streamer.Start | backend/internal/entertainment/streamer.go:375-396 | a run is spawned exactly if none is running and a pairing is usable; without one the path falls to REST |
| StreamRun.Streamer.Establish | backend/internal/entertainment/streamer.go:533-584 | succeeds exactly when the stream could be activated, at the second try if need be, and dialled; a failed attempt leaves no connection and no activation of its own |
| StreamRun.Streamer.Publish | backend/internal/entertainment/streamer.go:572-582 | connection, client, id and path change together |
| StreamRun.Streamer.Clear | backend/internal/entertainment/streamer.go:713-721 | takes what is live and leaves nothing |
| StreamRun.Streamer.Teardown | backend/internal/entertainment/streamer.go:712-735 | closes the connection held and stops its stream on the client that started it, an empty id excepted |
| StreamRun.AttemptIsEstablish | backend/internal/entertainment/streamer.go:511-584 | a run's attempt, step by step amid any interleaving around it, does what Establish does |
| StreamRun.PathTellsConnection | backend/internal/entertainment/streamer.go:511-584 | the path reads "dtls" exactly while a connection is held, and never are two open |
| StreamRun.SendsOnLiveStream | backend/internal/entertainment/streamer.go:588-645 | a datagram goes to the one open connection while its stream is activated |
| StreamRun.StopSettles | backend/internal/entertainment/streamer.go:407-427 | when Stop returns the run has ended, every dialled connection is closed, and every activated stream with a non-empty id was stopped on the same client and id |
| StreamRun.NothingLeftActive | backend/internal/entertainment/streamer.go:407-427 | with non-empty ids nothing at all is left active, even if each attempt resolved another client |
| StreamRun.LeakIffUnnamed | backend/internal/entertainment/streamer.go:712-735 | in every run, the end of a teardown leaves the stream that was live active exactly when its configuration id is empty |
| StreamRun.TeardownTakesLive | backend/internal/entertainment/streamer.go:712-735 | a teardown of a published connection takes exactly its stream, client and id |
| StreamRun.LeftUntilNextAttempt | backend/internal/entertainment/streamer.go:546-570 | a stream left so is stopped only by a later attempt on the same client and id, whose start is rejected or whose dial fails |
| StreamRun.UnnamedStreamLeft | backend/internal/entertainment/streamer.go:727-734 | a run from start to Stop for every stream, left active if its id is empty |
| StreamRun.ReceiverIsServed | backend/internal/entertainment/streamer.go:398-406 | a callback step of the receiver is one the streamer can take, with no other callback under way when one begins |
| StreamRun.RankFalls | backend/internal/entertainment/streamer.go:511-645 | once cancelled, each step of a run but a tick and a successful send brings its end nearer |
| StreamRun.StopReturns | backend/internal/entertainment/streamer.go:407-427 | from every point after its cancel, even with the Pro refusing everything, Stop can return |
| StreamRun.TornDownForCause | backend/internal/entertainment/streamer.go:634-643 | a run tears its stream down only right after a failed send |
| StreamRun.GivenUpForCause | backend/internal/entertainment/streamer.go:588-643 | a published connection is given up exactly when a send on it failed or by a Stop that cancelled the run |
| StreamRun.StaysUp | backend/internal/entertainment/streamer.go:588-645 | without either, any number of ticks and sends leaves the run in its loop, on the same connection and stream |
| StreamRun.OneSendPerTick | backend/internal/entertainment/streamer.go:623-645 | every tick with something to send makes exactly one send, and nothing else makes one |
| StreamRun.RunGoesOn | backend/internal/entertainment/streamer.go:511-528 | between a Start that spawned and the Stop, the run never ends, and after a failed attempt the path is "rest" |
| StreamRun.StartTells | backend/internal/entertainment/streamer.go:375-396 | a Start with a usable pairing leaves a run behind, and one without leaves none and the path at "rest" |
| StreamRun.CanComeUp | backend/internal/entertainment/streamer.go:511-584 | from every point of a run, after any failures, the stream can come up by steps of the run alone, for the client and configuration the attempt resolves |
| StreamRun.RetriesPause | backend/internal/entertainment/streamer.go:511-524 | a failed attempt is followed by no other before its pause is over |
| StreamRun.BackoffDoubles | backend/internal/entertainment/streamer.go:513-526 | the pauses are 1, 2, 4, 8 and then always 16 seconds, and begin anew once the stream was up |
| Streaming.BothLegal | backend/internal/entertainment/receiver.go:138-174 | receiver and streamer running together, joined only by the callbacks: whatever the receiver does the streamer can take, so each part of a joint run is a run of its own |
| Streaming.OneCallAtATime | backend/internal/entertainment/streamer.go:398-406 | for any number of overlapping connections, a callback begins with no other under way in the streamer |
| Streaming.EveryStopSettles | backend/internal/entertainment/streamer.go:407-427 | whenever a session's Stop returns, the streamer has no run, no open connection and no named stream left active |
| Streaming.StartsSettled | backend/internal/entertainment/streamer.go:375-396 | a session's Start begins with the last one's stream settled |
| Streaming.CallbackCanReturn | backend/internal/entertainment/streamer.go:407-427 | in a callback the streamer can always get to its return by its own steps |
| Streaming.ReplacementCompletes | backend/internal/entertainment/receiver.go:138-174 | from every point of every joint run the waiting sessions get past their waiting with nothing more from the TV, through whatever the streamer has to tear down |
| Members.Collect | backend/internal/entertainment/streamer.go:756-808 | the members and the service map of a configuration, from lights, services and zone |
| Members.WantedExactly | backend/internal/entertainment/streamer.go:782-799 | a service is wanted exactly if some light has colour, that service is the last listed for its device, its number fits 16 bits, and the zone, if declared, names the number |
| Members.OwnedIsLast | backend/internal/entertainment/streamer.go:763-769 | of a device's services the one listed last counts |
| Members.WantedNumber | backend/internal/entertainment/streamer.go:796-799 | the number a wanted service stands for is that of the last light that calls for it |
| Members.MembersFollowLights | backend/internal/entertainment/streamer.go:782-799 | the members stand in the order of their lights, one for each light that calls for a service |
| Members.CoversServices | backend/internal/entertainment/streamer.go:925-943 | comparing sizes and one inclusion decides that the channels reference exactly the desired services, placeholders aside |
| Members.RemapFromConfig | backend/internal/entertainment/streamer.go:947-964 | the channel map: first members that stand for a light, channel ids of one byte, later channels first |
| Members.RemapLeadsTo | backend/internal/entertainment/streamer.go:947-964 | each entry leads to the last channel whose first member stands for the light |
| Members.RemapHasAll | backend/internal/entertainment/streamer.go:947-964 | each light with a usable channel has an entry |
| Members.NoLightLeftOut | backend/internal/entertainment/streamer.go:925-964 | if channels of one service each cover exactly what is wanted, the map has every wanted light |
| Members.RemapStaysInZone | backend/internal/entertainment/streamer.go:778-799 | every mapped channel drives first the service of a colour light in the zone, under that light's number |
| EnsureConfig.Streamer.Ensure | backend/internal/entertainment/streamer.go:746-896 | the whole call, its result, memory and effect on the bridge, for every combination of replies |
| EnsureConfig.Streamer.PickCandidate | backend/internal/entertainment/streamer.go:832-846 | the persisted id if listed, else the first configuration of relume-tv's name |
| EnsureConfig.Streamer.UseListed | backend/internal/entertainment/streamer.go:823-892 | reuse of the candidate, or deletion and creation, or failure |
| EnsureConfig.SuccessCovers | backend/internal/entertainment/streamer.go:746-896 | a success names a configuration on the bridge that covers exactly the wanted services, with a non-empty map, cached and persisted |
| EnsureConfig.CandidateIsFirst | backend/internal/entertainment/streamer.go:832-846 | without the persisted id in the listing, the first listed configuration of relume-tv's name is taken |
| EnsureConfig.ReusedIff | backend/internal/entertainment/streamer.go:812-896 | a success counts as reused exactly if its configuration was on the bridge before the call |
| EnsureConfig.FailureForgets | backend/internal/entertainment/streamer.go:812-892 | a failure leaves the store alone, and forgets a cached id that no longer serves |
| EnsureConfig.WorkingBridgeSucceeds | backend/internal/entertainment/streamer.go:746-896 | with a bridge that works and something wanted the call succeeds, and its map has exactly the wanted lights |
| EnsureConfig.NothingWantedFails | backend/internal/entertainment/streamer.go:804-826 | with nothing wanted, or neither cache nor listing, it fails and changes nothing on the bridge |
| EnsureConfig.WantUnchanged | backend/internal/entertainment/streamer.go:759-808 | unchanged lights, services and zone are wanted alike, in whatever order the maps are visited |
| EnsureConfig.RepeatReuses | backend/internal/entertainment/streamer.go:812-821 | the next call, reading the same lights and services for the same zone, returns the same id and map and creates and deletes nothing |
| EnsureConfig.AgreeKept | backend/internal/entertainment/streamer.go:812-892 | the id cached in the process and the one in the store never come to disagree |
| EnsureConfig.RestartReuses | backend/internal/entertainment/streamer.go:823-866 | likewise after a restart, given a config store |
| EnsureConfig.BridgeChange | backend/internal/entertainment/streamer.go:848-892 | a call creates one configuration exactly when it knows none or a stale one, deletes only that one, and touches no other |
| EnsureConfig.GrowsIff | backend/internal/entertainment/streamer.go:848-876 | the number of configurations grows exactly when one is created and none was known or the stale one could not be deleted |
| EnsureConfig.FailedDeleteGrows | backend/internal/entertainment/streamer.go:858-876 | a call, with the lights and services it reads, on which a bridge grows though the persisted id is listed |
| EnsureConfig.OthersUntouched | backend/internal/entertainment/streamer.go:848-876 | other applications' configurations, and any that covers the lights, are never deleted or changed |
| EnsureConfig.NeverPilesUp | backend/internal/entertainment/streamer.go:746-896 | over any number of calls and restarts with lights and zone changing, relume-tv's configurations never exceed those found, or one, while deleting works |
| EnsureConfig.ReadyStaysInZone | backend/internal/entertainment/streamer.go:778-799 | every Pro channel of a success drives first the service of a colour light in the zone read then |
| Median.MedianSplits | backend/internal/entertainment/streamer.go:95-102 | at most half of the samples lie below the median and fewer than half above |
| Median.MedianInBand | backend/internal/entertainment/streamer.go:95-102 | with fewer than half of the samples outside a band, the median lies inside |
| Median.MedianComesFrom | backend/internal/entertainment/streamer.go:95-102 | the median is one of the samples |
| Median.FlagTellsChange | backend/internal/entertainment/streamer.go:112-132 | the flag, set by the threshold test of any component, says exactly whether the output differs from the input |
| Median.QuietContentPasses | backend/internal/entertainment/streamer.go:112-132 | content that moves by no more than the threshold within a window passes untouched |
| Median.FilterStaysNearBand | backend/internal/entertainment/streamer.go:112-132 | at any history length, while fewer than half of the samples stray from a band, the output is within the threshold of it |
| Median.MajorityPasses | backend/internal/entertainment/streamer.go:112-132 | a newest value held by a strict majority of the window, wherever in it, passes verbatim |
| Median.OddWindow | backend/internal/entertainment/streamer.go:309-315 | an effective window is odd and at most one larger than asked for |
| Median.HeldCutPasses | backend/internal/entertainment/streamer.go:490-507 | with a window of 2k+1 a held cut is delayed by at most k frames |
| Median.SecondFrameTakesSpike | backend/internal/entertainment/streamer.go:95-132 | with two samples, a first-frame spike replaces the second frame exactly when it exceeds it by more than the threshold |
| Easing.Smooth | backend/internal/entertainment/streamer.go:62-71 | the eased value lies between current and target, is no farther from the target, and is the target within 256 |
| Easing.EasedOnce | backend/internal/entertainment/streamer.go:62-71 | one more tick eases the last value once more |
| Easing.ArrivedStays | backend/internal/entertainment/streamer.go:62-71 | a target once reached is kept |
| Easing.ReachesTarget | backend/internal/entertainment/streamer.go:62-71 | if 257 times the weight is at least one half, a fixed target is reached exactly |
| Easing.Stalls | backend/internal/entertainment/streamer.go:62-71 | below that weight no distance of 257 is ever closed: not one tick moves |
| Easing.AlwaysArrivesIffMoves | backend/internal/entertainment/streamer.go:62-71 | so every transition completes exactly under that condition |
| Easing.DefaultArrivesInThirteen | backend/internal/entertainment/streamer.go:46-58 | with the default weight, from any 16-bit start within 13 ticks |
| Pipeline.Streamer.Publish | backend/internal/entertainment/streamer.go:572-582 | a new stream starts with empty targets, sent colours and histories |
| Pipeline.Streamer.SetMedianFilter | backend/internal/entertainment/streamer.go:309-315 | the filter's window and threshold, an even window rounded up |
| Pipeline.Streamer.SetRequestedMembers | backend/internal/entertainment/streamer.go:339-350 | the zone becomes the list, an empty list changing nothing |
| Pipeline.Streamer.MedianFilter | backend/internal/entertainment/streamer.go:490-507 | one sample through the window and the gate |
| Pipeline.Streamer.Push | backend/internal/entertainment/streamer.go:431-483 | with DTLS up, every mapped channel is sampled in turn; otherwise exactly the channels in the zone are forwarded by REST |
| Pipeline.InZone | backend/internal/entertainment/streamer.go:476-482 | what the REST fallback forwards: all channels of the zone and no other |
| Pipeline.ForwardedInOrder | backend/internal/entertainment/streamer.go:476-482 | the channels forwarded stand in the order of the frame, each behind those of the zone before it, and no other |
| Pipeline.AllAdvanced | backend/internal/entertainment/streamer.go:692-700 | the loop over the sorted ids is one simultaneous step of every channel |
| Pipeline.Streamer.BuildFrame | backend/internal/entertainment/streamer.go:674-708 | no frame without a target; otherwise the eased colours of all channels in ascending order under the next sequence number |
| Pipeline.PushIsRun | backend/internal/entertainment/streamer.go:431-450 | pushing a TV frame is a run of samples, each carrying the channel it is mapped to |
| Pipeline.PushFeedsColours | backend/internal/entertainment/streamer.go:431-450 | a push adds to a Pro channel's samples exactly the TV's colours for it, in order, component by component |
| Pipeline.HistoryIsWindow | backend/internal/entertainment/streamer.go:490-507 | the filter always sees the last samples of its channel since the stream was established, as many as the window holds |
| Pipeline.HistoryIsNewest | backend/internal/entertainment/streamer.go:490-498 | namely the newest, in order, as many as there are but no more than the window |
| Pipeline.TargetIsFiltered | backend/internal/entertainment/streamer.go:431-507 | a target is the filtered newest sample over that window |
| Pipeline.SpikesAreReplaced | backend/internal/entertainment/streamer.go:499-506 | the spike count is the number of samples the filter replaced |
| Pipeline.FirstTickSnaps | backend/internal/entertainment/streamer.go:692-700 | a channel that has sent nothing yet sends its target at the first tick |
| Pipeline.SendsEased | backend/internal/entertainment/streamer.go:674-708 | in every run, while no sample comes for a channel, what it sends after n ticks is what it had sent, eased n times towards its target, component by component |
| Pipeline.HeldTargetIsSent | backend/internal/entertainment/streamer.go:674-708 | with a weight that moves, a held target is sent exactly after at most as many ticks as its distance, and from then on |
| Pipeline.HeldTargetIsSentByDefault | backend/internal/entertainment/streamer.go:46-58 | with the default weight, after 13 ticks |
| Pipeline.SmallWeightStalls | backend/internal/entertainment/streamer.go:674-708 | below that weight a component 257 away from a held target is sent unchanged for ever |
| Pipeline.HeldCutShows | backend/internal/entertainment/streamer.go:309-315 | whatever window was asked for, a cut held for half of the effective window and one sample more is the channel's target, in every run |
| Pipeline.FilteredInRange | backend/internal/entertainment/streamer.go:490-507 | filtering never leaves the range of the raw samples |
| Pipeline.SentInRange | backend/internal/entertainment/streamer.go:674-708 | in every interleaving of pushes and ticks, every component sent lies between two raw components pushed for that channel since the stream was established |
| Pipeline.FrameIsComplete | backend/internal/entertainment/streamer.go:674-708 | a frame's channel ids ascend strictly, fit one byte, and cover every channel with a target |
| Pipeline.EncodeDropsNone | backend/internal/huestream/huestream.go:60-73 | so encoding drops none of them |
| EndToEnd.FrameStaysInZone | backend/internal/entertainment/streamer.go:778-799 | every channel of every frame sent drives first the service of a colour light in the zone read when the stream was resolved |
| EndToEnd.SentIsReceived | backend/internal/huestream/huestream.go:54-140 | the channels the Pro decodes from a sent datagram are exactly the frame's |
| Fallback.StreamState.TryRecoverFallback | backend/internal/clipv1/state.go:244-255 | a latched fallback is cleared exactly when recovery is enabled and the cooldown has passed |
| Fallback.StreamState.SetActive | backend/internal/clipv1/state.go:290-300 | activation and owner change together |
| Fallback.StreamState.ArmWatchdog | backend/internal/clipv1/state.go:314-328 | a timer of a new generation replaces the old one, unless REST mode, fallback or a running stream forbids |
| Fallback.StreamState.DisarmWatchdog | backend/internal/clipv1/state.go:332-340 | the timer is stopped and every callback made stale |
| Fallback.StreamState.MarkStreamUp | backend/internal/clipv1/state.go:348-365 | the stream is up, nothing is latched, and every callback is stale |
| Fallback.StreamState.MarkStreamDown | backend/internal/clipv1/state.go:370-379 | only the stream flag changes |
| Fallback.StreamState.WatchdogFired | backend/internal/clipv1/state.go:387-403 | it latches exactly with the stream down and the current generation |
| Fallback.StreamState.GroupUpdate | backend/internal/clipv1/server.go:1150-1176 | a group update without interruption: recovery, confirmation, activation, arming or disarming |
| Fallback.HandlerIsGroupUpdate | backend/internal/clipv1/server.go:1150-1176 | the handler's steps, uninterrupted, do what GroupUpdate does |
| Fallback.ActivationConfirmedIff | backend/internal/clipv1/server.go:1150-1176 | an activation is confirmed exactly in entertainment mode with nothing latched, or as soon as a positive cooldown has passed; then the group is active for its user and watched if the stream is down, and else nothing changes |
| Fallback.DeactivationConfirmedIff | backend/internal/clipv1/server.go:1150-1176 | a deactivation is confirmed exactly in entertainment mode with nothing latched, and leaves the group inactive and unwatched |
| Fallback.NothingAsked | backend/internal/clipv1/server.go:1150-1176 | an update that says nothing about the stream changes nothing |
| Fallback.OneLiveCallback | backend/internal/clipv1/state.go:314-403 | at most one undelivered callback carries the current generation, and then the stream is down and nothing is latched; stream-up and fallback never hold together |
| Fallback.StaleCallbacksDoNothing | backend/internal/clipv1/state.go:332-365 | after a stream-up or a deactivation no callback still to come changes anything |
| Fallback.ConfirmedIsWatched | backend/internal/clipv1/server.go:1150-1174 | an activation confirmed with the stream down and not followed by a stream-up or deactivation has a live callback, or the fallback is latched, or a newer activation is about to arm |
| Fallback.LatchesAreSpaced | backend/internal/clipv1/state.go:244-255 | consecutive latches with no stream-up between them are a positive cooldown apart; without a cooldown there are none |
| Fallback.SpacedFromAll | backend/internal/clipv1/state.go:244-255 | and so is each from all earlier ones since the last stream-up |
| Fallback.LiveLatches | backend/internal/clipv1/state.go:387-403 | the live callback can be delivered at any time, and then latches the fallback and deactivates the group |
| Fallback.UpNeverLatches | backend/internal/clipv1/state.go:348-403 | from a stream-up until the stream closes nothing latches, whatever callbacks come |
| Fallback.FlagTellsStream | backend/internal/clipv1/state.go:348-379 | the stream flag is what the last stream event said |
| Fallback.FallbackMeansInactive | backend/internal/clipv1/server.go:1156-1167 | a latched fallback means an inactive group in every run in which no callback latches between a handler's check and its activation |
| Fallback.LatchAmidIff | backend/internal/clipv1/server.go:1156-1167 | and in no other: a run has such a latch exactly if somewhere in it a handler's next step leaves the group active with the fallback latched |
| Fallback.WatchedIffAwaiting | backend/internal/clipv1/state.go:314-379 | with nothing latched and no activation about to arm, a live callback is outstanding exactly if an activation was confirmed with the stream down and neither a stream-up nor a deactivation followed |
| Fallback.ActiveUnwatched | backend/internal/clipv1/state.go:370-379 | a run that ends active and unwatched: confirmed while the stream was up, which then went down |
| Fallback.ActiveAfterLatch | backend/internal/clipv1/server.go:1156-1167 | a run in which a handler that checked before a latch sets the group active after it |
| Setup.SetupStatus.constructor | backend/cmd/relume-tv/setup.go:92-106 | a committed configuration starts at the end, any other at the first step |
| Setup.SetupStatus.Recompute | backend/cmd/relume-tv/setup.go:198-251 | goes on exactly as far as the signals allow |
| Setup.SetupStatus.DoCommit | backend/cmd/relume-tv/setup.go:256-269 | the commit action runs unless it has run before |
| Setup.SetupStatus.SetReachable | backend/cmd/relume-tv/setup.go:155-164 | a report is latched and then evaluated |
| Setup.SetupStatus.MarkTVDescriptorSeen | backend/cmd/relume-tv/setup.go:169-177 | a descriptor fetch counts only while the TV is to be rebooted |
| Setup.SettledIsFixpoint | backend/cmd/relume-tv/setup.go:198-251 | recompute stops at a step whose own signal is missing, and doing it again changes nothing |
| Setup.NoStepWithoutSignal | backend/cmd/relume-tv/setup.go:198-241 | recompute leaves no step without its own signal: Pro paired, Pro down after up or TV paired, descriptor or TV paired, TV paired, Pro up, TV traffic |
| Setup.SignalLeavesStep | backend/cmd/relume-tv/setup.go:198-241 | and with its signal every step is left |
| Setup.SkippedIffPaired | backend/cmd/relume-tv/setup.go:206-216 | the power cycle counts as skipped exactly if the power-off step was left with a TV paired |
| Setup.LoopsAreRecompute | backend/cmd/relume-tv/setup.go:198-251 | turned without interruption the loop ends after at most as many turns as steps are left, where Recompute does |
| Setup.ReportsAreEvaluated | backend/cmd/relume-tv/setup.go:155-192 | every report, every descriptor fetch at the reboot step and every recompute is evaluated, to where the signals allow |
| Setup.SignalsAreHeard | backend/cmd/relume-tv/setup.go:155-177 | in every run pairings stay, traffic is what the TV last did, and a descriptor counts exactly if fetched at the reboot step |
| Setup.StepsAscend | backend/cmd/relume-tv/setup.go:198-251 | over every run, pairings arriving inside the loop included, the step never decreases |
| Setup.CommitOnceIffDone | backend/cmd/relume-tv/setup.go:238-269 | from an uncommitted start the commit runs exactly once if the end is reached, and else not |
| Setup.FinishedStays | backend/cmd/relume-tv/setup.go:92-106 | a setup committed before stays done and is never committed again |
| Setup.DoneMeansPaired | backend/cmd/relume-tv/setup.go:198-251 | done implies that the Pro and a TV are paired and the Pro was reported up |
| Setup.DoneMeansDrivenToo | backend/cmd/relume-tv/setup.go:237-269 | done implies that the TV has driven the lights, and nothing is committed before it has |
| Setup.PowerCycleObserved | backend/cmd/relume-tv/setup.go:206-236 | leaving the power-off step unskipped took an up and a later down report; leaving the power-on step one more up |

## Left out

- DTLS, sockets, HTTP, JSON and the wording of logs: calls into them are steps with any reply.
- Discovery, pairing, the web UI, activity summaries and statistics: display or text.
- Colour conversion between the TV's and REST's form: floating-point rounding would decide it.
- The weight of the easing as `1 - exp(-dt/tau)`: it is any real in (0, 1], and the default is taken to lie between 0.393 and 0.394.
- v1 light ids as decimal strings: they are numbers, and an entry of a group's list that is no number is `None`.
- The text of DNS labels while a name is read: labels are offsets until the name is complete.
- WriteQueue.AtMostOneLateWrite: counts starts of Pro writes; a write under way when the fence is raised may still end after it.
- LightWrites.FenceHolds: a provider replaced before CloseLightWrites is not covered, as the source documents.
- Receiver: failed handshakes, which end before registration, and a receiver without an OnFrame sink.
- Pipeline.SpikesAreReplaced: counts from the stream's start; the five-second report that sets the counter back is not modelled.
- StreamRun.BackoffDoubles: counts the pauses; how long each really takes is not modelled.
- StreamRun: a StartStream that answers with an error is not counted as an activation; the send loop's statistics are not modelled.
- StreamRun.StopReturns: shows that an end can always be reached and that only ticks and successful sends put it off; which ready case a select picks is not modelled.
- The process shutdown in which two parties stop the stream at once.
- EnsureConfig: cosmetic positions of members, and the StopStream before a delete, whose answer is ignored.
- EnsureConfig.SuccessCovers: assumes a bridge that lists what it has and gives a new configuration channels for exactly the given services.
- Pipeline.Streamer.BuildFrame: the library sort is a scan over all one-byte ids.
- Fallback: the one-shot REST notice, and real time between arming and firing; a timer may fire at any moment.
- Setup: discovery preconditions, snapshots, and a commit action that fails; a failed one is not retried in the source either.
