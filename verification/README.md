# Kerry home automation: a verified model

This project models the parts of the home-automation system whose correctness depends
on long runs of events, and proves what those parts guarantee in every run:

- **The tunnel** between the cloud proxy and the home server: the messages and their
  base64 payloads (`Base64`, `TunnelMessages`), the proxy's table of pending requests
  (`TunnelProxy`), the home's streaming jobs (`TunnelHome`, `StreamedPaths`), both ends joined
  by two first-in-first-out channels (`TunnelView`, `TunnelProtocol`, `TunnelTheorems`,
  `TunnelReplies`, `TunnelRoundTrips`), and the sockets that become the tunnel (`TunnelSockets`).
- **The automation engine**: which triggers become runs (`RunAdmission`, `AdmissionLaws`,
  `RunReloads`), the index from devices to triggers (`DeviceIndex`), triggers with a `for`
  duration (`HoldTrigger`, `SharedTimers`), and the interpreter of nested actions under an
  abort signal (`ActionRun`, `ActionMeaning`).
- **The device store and the helpers on it**: merging and comparing devices, aggregation
  (`Devices`, `AggregateMeaning`), the cascade of group and combine helpers (`HelperStore`), the sensors
  (`ThresholdSensor`, `IntegralSensor`, `HistorySensor`), and what connected clients see of
  the store (`LiveView`).
- **Self-contained algorithms**: severity-aware log eviction (`LogBuffer`), the streaming
  sentence splitter and its ordered audio queue (`JsText`, `Speech`, `SpeechPipeline`,
  `SpeechChunks`, `SpeechDeltas`), the boot-report tokenizer, its filters and the unquoting
  (`Tokenizer`, `XorrisoReport`), and the recipe sync (`Paprika`).

Code that changes state is a class whose methods equal a function from the old to the new
state; the theorems are about runs of that function, for every order of events.

## Where the code does not do what one would expect

Each of these is proved, with an input or a run that shows it and with the condition under
which it happens.

- A streaming request whose fetch fails at the home is answered by an `end` frame before
  any `start`. The proxy drops the entry, its timer finds nothing, and the remote caller
  waits for ever (`TunnelTheorems.FailedFetchHangs`). That, and cancelling a buffered
  request, are the only events that forget a caller (`TunnelTheorems.ForgetsIff`).
- The proxy ends a stream normally when the error text is empty or `cancelled`, so an
  upstream failure with such a text yields a cut-off reply that looks complete. Replies are
  always complete exactly when no such text occurs (`TunnelTheorems.CompleteIffErrorsAreTold`).
- The route replies when its stream ends normally. A stream that is destroyed only logs a
  warning, and its HTTP request is never answered (`TunnelTheorems.DestroyedNeverReplies`,
  with a failed read in `TunnelTheorems.FailedReadHangs`). A stream is destroyed by its
  cancellation, by the tunnel's close and by an end frame with a told error, and by nothing
  else (`TunnelTheorems.DestroysIff`); one that has ended gets its reply
  (`TunnelTheorems.EndedReplies`).
- The proxy's message handler takes a registration from any socket it listens on. One that
  is read from a socket already closing, after the next one has connected, registers that
  next one, which has not shown who it is, and starts the wrong heartbeat
  (`TunnelSockets.MistakenIff`, `TunnelSockets.LateRegistrationRun`). Nothing of the kind
  happens when registrations are read while their socket is open
  (`TunnelSockets.OnTimeIsNotMistaken`).
- The proxy's close handler resets the tunnel for whatever socket closes. When an earlier
  socket closes after a new one has registered, the new one is open, registered in the eyes
  of the home, and refused by the proxy; its heartbeat is off, and new connections are
  turned away because it is open (`TunnelSockets.StrandsIff`, `TunnelSockets.StrandingRun`).
  Once the authentication timer is gone, nothing ends that but the other side, by leaving
  or by registering (`TunnelSockets.ForGoodIff`, `TunnelSockets.StrandedStays`).
- A queued automation can have two runs going on. A reload does not wait for the old
  runtime's run (`RunReloads.OverlapRun`). A trigger that finds no runtime starts a run of
  its own, past mode and queue: for a disabled automation (`RunReloads.UnregisteredRun`) and
  between the two halves of a reload (`RunReloads.GapRun`). An overlap begins exactly when
  the registered runtime is triggered while a run of a torn-down one or such a direct run is
  going on, or a direct run starts while any is (`RunReloads.OverlapsIff`).
- A teardown tells the live run to stop in the queued mode, and none in the parallel mode
  (`RunAdmission.TeardownStopsIff`).
- A `for` trigger with a `from` can fire although its value was not held: leaving the value
  does not cancel the timer, and coming back from elsewhere does not re-arm it. And a
  duration above 2147483647 ms, which no timer can take, makes a trigger fire after one
  millisecond. Firings are always justified exactly when there is no `from` and the duration
  is within that bound, or `from` equals `to`, or no duration is asked for
  (`HoldTrigger.JustifiedIff`, `HoldTrigger.FlickerFires`, `HoldTrigger.LongDurationFires`).
- The `for` triggers of one automation on one attribute of a device share a timer. An armed
  trigger loses its firing exactly when a change comes whose last listener in the list is
  another one (`SharedTimers.LosesIff`); of those that listen to the same change only the
  last fires (`SharedTimers.OnlyLastFires`).
- The history sensor only knows the state from the first event inside its period, so a
  device that entered the state earlier is under-reported, down to zero for one that stays
  in it longer than the period (`HistorySensor.CompleteIff`, `HistorySensor.LongStayForgotten`).
- With a negative hysteresis a threshold sensor no longer means what it should
  (`ThresholdSensor.UpperMeaningIff`, `ThresholdSensor.LowerMeaningIff`).
- Where a delta happens to end can change what is spoken as one piece. No text is lost by it.
  There are three causes. A sentence ends with the text so far and no white space follows:
  `3.` and `14` against `3.14` (`SpeechPipeline.ChunkingShows`). More than 200 characters
  wait for their sentence to end and are cut by force: 201 letters and `b.`
  (`SpeechDeltas.ForcedCutShows`). Or the white space in front of a delta moves its forced
  cuts. The pieces of two deltas are those of the two at once exactly when none of the three
  takes effect (`SpeechDeltas.DeltasAgreeIff`).
- With a maximal length of zero the sentence splitter ends exactly when only white space is
  left to cut (`Speech.LoopEndsIff`).
- Boot-report arguments are unquoted after the filters, so an option in quotes passes them
  and comes out as an option: `'-V'` (`XorrisoReport.QuotedOptionPasses`). The arguments are
  free of those options exactly when no token the filters keep is one once it is unquoted
  (`XorrisoReport.CleanIff`).
- A remote list that gives one uid two hashes never comes to rest (`Paprika.ConvergesIff`).
- A binary group goes by the `on` of its members' devices, and a member without one plays no
  part (`HelperStore.BinaryMeaning`, `HelperStore.NoFlagsIff`). The devices of group and
  combine helpers have none, so a binary group of such helpers never changes
  (`HelperStore.GroupOfHelpers`).

## Assumptions

- Numbers are reals instead of doubles; `parseFloat` and `Math.sqrt` are parameters. No
  NaN, no infinities. A character is one string element; surrogate pairs do not occur.
- Equality of devices is equality of their attributes; key order in JSON is not modelled.
- Request identifiers are random UUIDs and never used twice. `TunnelProtocol` follows one
  connection; each direction of the socket keeps its order. A buffered job's answer and the
  outcome of every fetch and read are events of the environment.
- The proxy reads nothing from a socket after its close event. A timer of the proxy may run
  at any moment.
- Starting a trigger is one atomic step, up to the first `await` of the run, and so is what a
  trigger without a runtime does after it has read the automation's row.
- The clock does not go back. A timer runs at or after its deadline; one that was asked for a
  delay outside 1 to 2147483647 ms has a deadline one millisecond away.
- The group and combine helpers' member lists are acyclic, and no device is removed.
- What a condition evaluates to and whether an action throws is given per started action.
  Evaluating a condition does not throw.
- A device is not updated again while its own update is being announced; other devices may
  be. Clients connect between updates.
- The reply is fed to the speech pipeline first and flushed once.
- Reloads and syncs do not overlap. Writes to the recipe store succeed.

## Model

| member | source | states |
|---|---|---|
| Base64.RoundTrip | packages/backend/src/tunnel/client.ts:412 | decoding what was encoded gives the same bytes, for all byte sequences |
| Base64.EncodesGroups | packages/backend/src/tunnel/client.ts:412 | the encoding is that of section 4 of RFC 4648: three bytes are a 24-bit number and become its four digits to the base 64; one or two bytes left over are padded |
| TunnelProxy.TunnelManager.SendRequest | proxy/src/tunnel/manager.ts:174-207 | refused at once without a connection, else one buffered entry, one armed timer, one request frame |
| TunnelProxy.TunnelManager.OnTimeout | proxy/src/tunnel/manager.ts:187-194 | a request nothing has arrived for is rejected and forgotten, any other is left alone |
| TunnelProxy.TunnelManager.Cancel | proxy/src/tunnel/manager.ts:210-219 | the entry, its timer and an open stream go, the home is told; no effect once the entry is gone |
| TunnelProxy.TunnelManager.HandleTunnelMessage | proxy/src/tunnel/manager.ts:229-310 | the effect of every frame on entry, timer, promise and stream, including frames that come too late |
| TunnelProxy.TunnelManager.RejectAll | proxy/src/tunnel/manager.ts:368-383 | the loop rejects every buffered caller, destroys every open stream, disarms every timer and empties the table |
| TunnelProxy.TunnelManager.OnSocketClose | proxy/src/tunnel/manager.ts:115-125 | for whatever socket closes: its timer, the heartbeat, the registration and the version are gone and every pending request is rejected; the tunnel is forgotten only if it is the one |
| TunnelProxy.ReplyRoute.End | proxy/src/routes/proxy.ts:75-93 | the reply is the concatenation of all chunks received |
| TunnelHome.TunnelClient.HandleMessage | packages/backend/src/tunnel/client.ts:248-258 | which job a request starts, and what a cancel does to it |
| TunnelHome.TunnelClient.OnFetched | packages/backend/src/tunnel/client.ts:347-378 | a start frame, then an end at once if there is no body |
| TunnelHome.TunnelClient.OnSlice | packages/backend/src/tunnel/client.ts:382-414 | a slice becomes one encoded chunk frame, an empty one no frame |
| TunnelHome.TunnelClient.OnFailure | packages/backend/src/tunnel/client.ts:421-434 | a rejected fetch or read becomes an end frame with its error text, `cancelled` for an abort |
| TunnelHome.TunnelClient.OnSocketClose | packages/backend/src/tunnel/client.ts:138-143 | the loop aborts every active stream, and nothing is sent or received any more |
| TunnelProtocol.StepKeeps | proxy/src/tunnel/manager.ts:229-310 | every event of the joined system keeps the invariant of every request |
| TunnelTheorems.StreamGrammar | packages/backend/src/tunnel/client.ts:321-434 | per request the home sends nothing, one response, `end(error)`, or `start chunk* (end or end(error))?` |
| TunnelTheorems.BytesInOrder | proxy/src/tunnel/manager.ts:276-295 | the bytes written to a proxy stream are at every moment a prefix, in order, of those the home has read |
| TunnelTheorems.ReplyIsWhatWasRead | proxy/src/routes/proxy.ts:75-93 | a reply is exactly what the home read, and upstream's whole body when the end frame carried no error |
| TunnelTheorems.ReplyCompleteIf | proxy/src/tunnel/manager.ts:297-310 | replies are complete if no upstream error text is empty or `cancelled` |
| TunnelTheorems.CompleteIffErrorsAreTold | proxy/src/tunnel/manager.ts:297-310 | replies are always complete if and only if no upstream error text is empty or `cancelled` |
| TunnelTheorems.CutShort | proxy/src/tunnel/manager.ts:297-310 | with such a text a failed read yields an empty reply for a body that was not empty |
| TunnelTheorems.MjpegIsStreamed | packages/backend/src/tunnel/client.ts:44-47 | a camera's picture path is streamed, whatever the camera is called |
| StreamedPaths.StreamedIff | packages/backend/src/tunnel/client.ts:44-47 | a request is streamed if and only if it is not for the frontend and its path, cut before its first `?`, is `/api/cameras/`, a non-empty name without `/`, and `/mjpeg` or `/hls/` with anything after it |
| StreamedPaths.RequestStartsJob | packages/backend/src/tunnel/client.ts:281-309 | exactly those requests become a fetching job with an abortable stream, all others a buffered job |
| TunnelReplies.ReplyIsTheAnswer | proxy/src/tunnel/manager.ts:229-274 | status, headers, body and encoding a caller is told are those the local server gave for that request, and the home's answer to it begins with them |
| TunnelReplies.StreamsAreForStreamedPaths | packages/backend/src/tunnel/client.ts:286-309 | in every run a caller is handed a stream only for a request that is streamed, and a buffered reply only for one that is not |
| TunnelRoundTrips.BufferedRoundTrip | proxy/src/tunnel/manager.ts:174-253 | from any undisturbed state a request that is not streamed is answered by what the local server gave |
| TunnelRoundTrips.StreamRoundTrip | proxy/src/routes/proxy.ts:75-93 | from any undisturbed state a streamed request is answered by upstream's whole body, in whatever slices it was read |
| TunnelRoundTrips.CancelAborts | proxy/src/tunnel/manager.ts:210-219 | a cancel destroys the caller's stream and, once it has arrived, aborts the home's job |
| TunnelRoundTrips.CloseAborts | packages/backend/src/tunnel/client.ts:138-143 | when the home's socket closes, exactly its active streams are aborted and none is left |
| TunnelTheorems.SettledAtMostOnce | proxy/src/tunnel/manager.ts:174-274 | no promise settles twice; buffered entries are unsettled with an armed timer, streaming ones resolved once with theirs cleared |
| TunnelTheorems.ForgetsIff | proxy/src/tunnel/manager.ts:210-310 | an event removes an unsettled entry without telling its caller if and only if it is an end before any start or a cancel of a buffered entry |
| TunnelTheorems.ForgottenForever | proxy/src/tunnel/manager.ts:297-310 | such a promise never settles, whatever happens afterwards |
| TunnelTheorems.FailedFetchHangs | packages/backend/src/tunnel/client.ts:421-434 | a fetch that fails at the home leaves the remote caller waiting in every continuation |
| TunnelTheorems.CloseTellsEveryone | proxy/src/tunnel/manager.ts:115-125 | after a close the table is empty, every buffered caller was rejected, every stream destroyed, and no other caller disturbed |
| TunnelTheorems.DestroysIff | proxy/src/tunnel/manager.ts:210-383 | an open stream is destroyed if and only if its request is cancelled, the tunnel closes, or an end frame for it brings an error that is told |
| TunnelTheorems.EndedReplies | proxy/src/routes/proxy.ts:86-93 | a stream that ended gets its reply, of all the bytes written to it, as soon as they are taken |
| TunnelTheorems.FailedReadHangs | packages/backend/src/tunnel/client.ts:421-434 | a run in which a read fails with a told error, after which the request is never answered |
| TunnelTheorems.DestroyedNeverReplies | proxy/src/routes/proxy.ts:78-93 | once a request's stream is destroyed, no continuation ever replies to it |
| TunnelTheorems.NothingWaitsAfterClose | proxy/src/tunnel/manager.ts:181-185 | until the home registers again no request is ever left waiting |
| TunnelSockets.TunnelServer.OnConnection | proxy/src/tunnel/manager.ts:69-86 | a second connection is turned away only while the tunnel's socket is open |
| TunnelSockets.TunnelServer.OnRegistration | proxy/src/tunnel/manager.ts:95-110 | from any socket it listens on: a valid registration authenticates, disarms that socket's timer, starts its heartbeat and tells the tunnel's home; an invalid one closes |
| TunnelSockets.TunnelServer.OnClose | proxy/src/tunnel/manager.ts:115-122 | whatever socket closes: nobody is registered, no heartbeat runs, and its own timer is gone |
| TunnelSockets.OneTunnel | proxy/src/tunnel/manager.ts:69-113 | at most one admitted socket is open, it is the tunnel, and while the proxy is connected its home was told so |
| TunnelSockets.ClosesIff | proxy/src/tunnel/manager.ts:69-125 | an open socket stops being open exactly by an invalid registration or an overdue one while nobody is registered, a missed pong, or the other side's leaving |
| TunnelSockets.LetInIff | proxy/src/tunnel/manager.ts:69-86 | a new socket is let in if and only if the tunnel is not open; then it is the tunnel, not registered, with its timer armed |
| TunnelSockets.ConnectsIff | proxy/src/tunnel/manager.ts:95-110 | the proxy becomes connected exactly by a valid registration while the tunnel is open and nobody is registered |
| TunnelSockets.DisconnectsIff | proxy/src/tunnel/manager.ts:115-149 | it stops being connected exactly when its tunnel begins to close, or any socket has closed |
| TunnelSockets.Agreement | proxy/src/tunnel/manager.ts:147-149 | a home that was told it is registered, on an open socket, is connected, unless it is stranded |
| TunnelSockets.MistakenIff | proxy/src/tunnel/manager.ts:87-110 | requests begin to be relayed over a socket whose home has not registered if and only if a valid registration is read from another socket, with the tunnel open and nobody registered |
| TunnelSockets.OnTimeIsNotMistaken | proxy/src/tunnel/manager.ts:87-110 | that never happens when every registration is read while its socket is open |
| TunnelSockets.LateRegistrationRun | proxy/src/tunnel/manager.ts:69-110 | four events after which a socket that never registered is connected, with the heartbeat of another |
| TunnelSockets.StrandsIff | proxy/src/tunnel/manager.ts:115-125 | a tunnel gets stranded if and only if another socket's close event comes while it is connected |
| TunnelSockets.StrandingEndsIff | proxy/src/tunnel/manager.ts:69-125 | exactly the events that end a stranding |
| TunnelSockets.ForGoodIff | proxy/src/tunnel/manager.ts:69-125 | only the other side, by leaving or registering, can end it, if and only if its authentication timer is gone |
| TunnelSockets.StrandedStays | proxy/src/tunnel/manager.ts:69-125 | then it stays stranded in every continuation without that, and every new connection is turned away |
| TunnelSockets.StrandingRun | proxy/src/tunnel/manager.ts:69-125 | five events that strand a tunnel for good |
| RunAdmission.AdmissionControl.ExecuteTrigger | packages/backend/src/automations/engine.ts:443-477 | start, queue or drop, by mode and counters |
| RunAdmission.AdmissionControl.RunEnded | packages/backend/src/automations/engine.ts:491-499 | a finished run makes room and starts the oldest queued one |
| RunAdmission.AdmissionControl.Stop | packages/backend/src/automations/engine.ts:210-213 | a teardown discards what is queued and aborts the run whose signal the runtime holds |
| RunAdmission.QueuedRuns | packages/backend/src/automations/engine.ts:443-500 | for one runtime, in every run: at most one live, at most ten queued, none queued while nothing runs, accepted = finished + live + queued + discarded |
| RunAdmission.StartOrder | packages/backend/src/automations/engine.ts:479-500 | runs start in the order of acceptance; one that was passed over was discarded |
| AdmissionLaws.QueuedAdmission | packages/backend/src/automations/engine.ts:443-460 | after every history a queued trigger is accepted if and only if fewer than ten wait; it starts at once if and only if no run is going on, and is appended to the queue otherwise |
| AdmissionLaws.ParallelAdmission | packages/backend/src/automations/engine.ts:462-475 | after every history a parallel trigger starts if and only if fewer than ten runs are going on, and never waits |
| AdmissionLaws.EndStartsNext | packages/backend/src/automations/engine.ts:491-500 | the end of a run starts the one that has waited longest, if any waits, and only that one |
| AdmissionLaws.QueuedBurst | packages/backend/src/automations/engine.ts:443-460 | k triggers with nothing going on: the first runs and the next min(k-1, 10) wait, in order |
| AdmissionLaws.ParallelBurst | packages/backend/src/automations/engine.ts:462-475 | k triggers with nothing going on: the first min(k, 10) run, and no other |
| RunAdmission.DiscardedNeverStarts | packages/backend/src/automations/engine.ts:206-217 | a trigger thrown away by a teardown does not start in any continuation |
| RunAdmission.ParallelRuns | packages/backend/src/automations/engine.ts:462-475 | the counter equals the number of the runtime's live runs and never exceeds ten |
| RunAdmission.TeardownStopsIff | packages/backend/src/automations/engine.ts:206-217 | after a teardown every live run has been told to stop, if and only if the mode is queued or none is live |
| RunReloads.OverlapsIff | packages/backend/src/automations/engine.ts:124-165 | two runs of a queued automation begin to overlap if and only if its runtime is triggered while a torn-down runtime's run or a direct run is going on, or a direct run starts while any is |
| RunReloads.LeftBehindIff | packages/backend/src/automations/engine.ts:124-134 | a torn-down runtime has a run going on if and only if a reload came while it had |
| RunReloads.DirectIff | packages/backend/src/automations/engine.ts:153-162 | a direct run starts if and only if a trigger found no runtime and then found the automation |
| RunReloads.NoOverlap | packages/backend/src/automations/engine.ts:124-165 | a queued automation never has two runs going on if every trigger finds a runtime and every reload one with nothing going on |
| RunReloads.OverlapRun | packages/backend/src/automations/engine.ts:124-134 | a reload while a run is going on, and a trigger, after which two are |
| RunReloads.UnregisteredRun | packages/backend/src/automations/engine.ts:153-162 | two triggers of an automation that is not registered, after which two runs are going on |
| RunReloads.GapRun | packages/backend/src/automations/engine.ts:131-162 | a reload with nothing going on and a trigger in its gap, after which two runs are going on |
| RunAdmission.DrainFinishesAll | packages/backend/src/automations/engine.ts:479-500 | when live runs finish, everything queued runs to its end, in order |
| DeviceIndex.AutomationEngine.Register | packages/backend/src/automations/engine.ts:169-204 | registering keeps the index equal to the registered device triggers |
| DeviceIndex.AutomationEngine.RemoveFromDeviceIndex | packages/backend/src/automations/engine.ts:234-246 | removing a runtime leaves exactly the entries of the others, and no empty list |
| DeviceIndex.AutomationEngine.Reload | packages/backend/src/automations/engine.ts:124-134 | afterwards the automation is registered as its row says, or not at all; the others stay; the index agrees |
| DeviceIndex.AutomationEngine.ReloadAll | packages/backend/src/automations/engine.ts:135-145 | afterwards exactly the enabled rows are registered and the index agrees |
| DeviceIndex.AutomationEngine.HandleDeviceUpdate | packages/backend/src/automations/engine.ts:343-361 | the indexed handler fires exactly the pairs, in order, that a scan of every automation would |
| DeviceIndex.ScanIsFiring | packages/backend/src/automations/engine.ts:343-361 | scanning all automations is filtering what watches the device |
| DeviceIndex.ScanIff | packages/backend/src/automations/engine.ts:351-361 | what fires are exactly the triggers of registered automations for that device whose attribute changed, from the value `from` names, if any, to the one `to` names, if any |
| DeviceIndex.WithoutAll | packages/backend/src/automations/engine.ts:234-246 | dropping a runtime's entries is indexing without that runtime |
| HoldTrigger.HoldTimers.OnDeviceUpdate | packages/backend/src/automations/engine.ts:351-381 | a matching change re-arms the timer; any other, leaving the value included, does not touch it |
| HoldTrigger.HoldTimers.OnTimer | packages/backend/src/automations/engine.ts:370-377 | fires if the attribute has the armed value at that moment |
| HoldTrigger.FiresOnlyIfHeld | packages/backend/src/automations/engine.ts:362-383 | without a `from`, and with a duration a timer can take, it fires only if the value was held for the whole duration |
| HoldTrigger.FiringHasCause | packages/backend/src/automations/engine.ts:351-378 | every firing goes back to a change to the present value that `from` and `to` allow, at least the duration ago, or a millisecond for durations a timer cannot take |
| HoldTrigger.JustifiedIff | packages/backend/src/automations/engine.ts:343-383 | that holds in every run if and only if there is no `from` and the duration is within the timers' bound, or `from` equals `to`, or no duration is asked for |
| HoldTrigger.FlickerFires | packages/backend/src/automations/engine.ts:343-383 | for every other trigger with a `from`, a run in which it fires unjustified |
| HoldTrigger.LongDurationFires | packages/backend/src/automations/engine.ts:369-378 | for every other trigger without one, a run in which it fires a millisecond after the change |
| HoldTrigger.HeldValueFires | packages/backend/src/automations/engine.ts:362-383 | a value that is held makes the trigger fire when its timer runs |
| SharedTimers.SharedTimer.OnDeviceUpdate | packages/backend/src/automations/engine.ts:351-382 | the loop leaves the shared timer to the last trigger that listens to the change |
| SharedTimers.OneAlone | packages/backend/src/automations/engine.ts:364-378 | a trigger alone on its key behaves as in `HoldTrigger` |
| SharedTimers.LosesIff | packages/backend/src/automations/engine.ts:365-378 | an armed trigger's timer is taken over if and only if a change comes whose last listener is another trigger |
| SharedTimers.OnlyLastFires | packages/backend/src/automations/engine.ts:365-378 | of the triggers that listen to a change to a value that is held, the last and no other fires |
| SharedTimers.SharedFiresOnlyIfHeld | packages/backend/src/automations/engine.ts:364-378 | a trigger without a `from` and within the timers' bound fires only if the value was held, whatever it shares the timer with |
| ActionRun.Interpreter.ExecuteActions | packages/backend/src/automations/engine.ts:667-732 | the loop and its recursion run the actions as specified |
| ActionMeaning.WhatStarts | packages/backend/src/automations/engine.ts:667-712 | a run starts its list, and under each conditional its `then` list if the condition held and its `else` list otherwise, in order and completely unless it is aborted; the commands are those of the started actions |
| ActionMeaning.WhatIsLogged | packages/backend/src/automations/engine.ts:682-726 | a conditional is logged as a success if and only if its condition held, else as skipped; a command or a call as a success if and only if it did not throw |
| ActionMeaning.WhereIsLogged | packages/backend/src/automations/engine.ts:716-732 | a log entry's index is the number of actions of the same list started before |
| ActionRun.NothingStartsAfterAbort | packages/backend/src/automations/engine.ts:673-678 | once the signal is aborted no action starts, at any depth |
| ActionRun.CommandsArePrefix | packages/backend/src/automations/engine.ts:667-732 | an aborted run's commands and starts are a prefix of the unaborted run's under the same answers |
| ActionRun.OneLogEach | packages/backend/src/automations/engine.ts:716-732 | every started action has exactly one log entry, nested ones before their parent's |
| Devices.AverageWithin | packages/backend/src/helpers/engine.ts:709-732 | min, max, mean, median, first and last lie between the least and the greatest reading |
| Devices.SortSorts | packages/backend/src/helpers/engine.ts:717 | the median is taken of an ordered permutation of the readings |
| AggregateMeaning.ExtremesMean | packages/backend/src/helpers/engine.ts:712-721 | min is a reading none is below, max one none is above, range the largest difference of two |
| AggregateMeaning.SumsMean | packages/backend/src/helpers/engine.ts:714-722 | sum and product of one reading are that reading, and of two lists the sum and product of the parts |
| AggregateMeaning.MeanMeans | packages/backend/src/helpers/engine.ts:715-729 | the mean times the count is the sum; first and last are the end readings |
| AggregateMeaning.MedianMeans | packages/backend/src/helpers/engine.ts:716-720 | the median is the reading at the middle place, or the midpoint of the two there; a reading is at place k if at most k readings are below it and more than k not above it |
| AggregateMeaning.OneAtPlace | packages/backend/src/helpers/engine.ts:716-720 | a place in the order has one reading only |
| AggregateMeaning.StdevMeans | packages/backend/src/helpers/engine.ts:723-727 | the deviation is the root of q, where n*n*q is n times the sum of the squares less the square of the sum |
| AggregateMeaning.NothingToShow | packages/backend/src/helpers/engine.ts:709-732 | there is no aggregate if and only if there are no readings or the method is unknown |
| AggregateMeaning.NumbersJoin | packages/backend/src/helpers/engine.ts:656-667 | readings come in the order of the members, list by list |
| AggregateMeaning.ReadingOrder | packages/backend/src/helpers/engine.ts:689-700 | a device's number is its value, or what its text parses to, else the first of temperature, brightness, power and battery level it has |
| AggregateMeaning.GroupsShow | packages/backend/src/helpers/engine.ts:283-288 | a numeric group shows what a combine helper with its aggregation would, and the mean if it names none |
| Devices.SameStateIff | packages/backend/src/state/store.ts:10-18 | two devices are the same state if and only if one is the other with its own two timestamps |
| Devices.LastTextsStay | packages/backend/src/state/store.ts:25-32 | over any sequence of updates a name or area once given is the device's until an update brings another |
| Devices.LastAliasesStay | packages/backend/src/state/store.ts:25-32 | so are aliases |
| Devices.LastMapStays | packages/backend/src/state/store.ts:33-37 | and the map time of what stays a vacuum |
| Devices.OthersAreLast | packages/backend/src/state/store.ts:25-43 | all other attributes, and what was never given, are those of the last update |
| HelperStore.StateStore.Update | packages/backend/src/state/store.ts:25-47 | stores the merged device, terminates through any cascade, and disturbs only helpers standing higher |
| HelperStore.StateStore.Report | packages/backend/src/state/store.ts:25-47 | after an update every helper, nested to any depth, shows its aggregate of the present store, suppressed announcements notwithstanding |
| HelperStore.StateStore.StartHelper | packages/backend/src/helpers/engine.ts:251-290 | starting a helper keeps all helpers in agreement with the store |
| HelperStore.StateStore.Compute | packages/backend/src/helpers/engine.ts:270-289 | a helper's handler computes the aggregate of its members as they are |
| HelperStore.BinaryMeaning | packages/backend/src/helpers/engine.ts:270-281 | all-on is true if and only if no member's device shows off, any-on if and only if one shows on |
| HelperStore.NoFlagsIff | packages/backend/src/helpers/engine.ts:272-278 | a binary group has nothing to go by if and only if no member's device has an `on` |
| HelperStore.GroupOfHelpers | packages/backend/src/helpers/engine.ts:270-283 | in every state of the store a binary group of group and combine helpers is off for any-on and on for all-on |
| HelperStore.HigherThanMembers | packages/backend/src/helpers/engine.ts:251-268 | with acyclic member lists a helper stands strictly above its members: the bound on a cascade |
| HelperStore.ValueDetermined | packages/backend/src/helpers/engine.ts:270-290 | all helper values are determined by the other devices: however a cascade runs, it ends in one result |
| HelperStore.ResultAlike | packages/backend/src/state/store.ts:10-18 | stores that read the same on a helper's members give it the same value |
| HelperStore.StoreKeeps | packages/backend/src/state/store.ts:44-46 | a device that is the same save for timestamps puts no helper out of date |
| LiveView.Hub.Broadcast | packages/backend/src/api/websocket.ts:17-24 | the loop is the step that tells all local clients: every open one is sent the message once, every other nothing |
| LiveView.Hub.OnConnect | packages/backend/src/api/websocket.ts:62-72 | a socket that connects is one more client, with a snapshot |
| LiveView.Sessions.Forward | packages/backend/src/tunnel/client.ts:634-640 | the loop is the step that tells all remote clients, over the shared socket; if that is not open, nobody |
| LiveView.Sessions.HandleWsOpen | packages/backend/src/tunnel/client.ts:583-610 | a new session is one more client, with a snapshot if the socket is open; a known one changes nothing |
| LiveView.StepKeepsOk | packages/backend/src/state/store.ts:20-66 | every event keeps every client's view right |
| LiveView.ViewIsStore | packages/backend/src/api/websocket.ts:26-34 | in every reachable state the fold of a client's messages equals the store, save for timestamps and announcements on their way |
| LiveView.AnnouncedIff | packages/backend/src/state/store.ts:44-46 | an update is announced, with what is stored, if and only if the device is new or something other than a timestamp differs from what was stored |
| LiveView.UpdateReachesAll | packages/backend/src/state/store.ts:25-47 | after an update and its deliveries every open client has the stored device, save for timestamps |
| LiveView.RemovalReachesAll | packages/backend/src/state/store.ts:62-66 | after a removal and its deliveries no open client has the device |
| LiveView.QuietView | packages/backend/src/api/websocket.ts:62-72 | between updates it is the same map, save for timestamps |
| LiveView.SameForAll | packages/backend/src/tunnel/client.ts:583-675 | local and remote clients then see the same devices |
| ThresholdSensor.Threshold.OnSample | packages/backend/src/helpers/engine.ts:454-476 | the output follows the specified function of all samples |
| ThresholdSensor.UpperMeaning | packages/backend/src/helpers/engine.ts:463-465 | with hysteresis h >= 0, on if and only if some sample exceeded U+h and every later one stayed at or above U-h |
| ThresholdSensor.LowerMeaning | packages/backend/src/helpers/engine.ts:466-468 | the mirror image for a lower limit |
| ThresholdSensor.UpperMeaningIff | packages/backend/src/helpers/engine.ts:451-465 | the meaning for an upper limit holds for all inputs if and only if h >= 0 |
| ThresholdSensor.LowerMeaningIff | packages/backend/src/helpers/engine.ts:466-468 | the meaning for a lower limit holds for all inputs if and only if h >= 0 |
| ThresholdSensor.UpperFlips | packages/backend/src/helpers/engine.ts:463-465 | (flips - 1) times 2h is at most the total variation of the input |
| ThresholdSensor.LowerFlips | packages/backend/src/helpers/engine.ts:466-468 | the same for a lower limit |
| ThresholdSensor.BothLimitsMeaning | packages/backend/src/helpers/engine.ts:460-462 | with both limits the output is on if and only if the last reading lies between them, whatever came before |
| ThresholdSensor.NoLimitsMeaning | packages/backend/src/helpers/engine.ts:469-471 | without limits it is never on |
| IntegralSensor.Integral.OnSample | packages/backend/src/helpers/engine.ts:354-376 | the stored value is the rounded running sum over all samples |
| IntegralSensor.Drift | packages/backend/src/helpers/engine.ts:367-372 | after n additions the stored total is off by at most n half steps of the precision |
| IntegralSensor.AreaMeans | packages/backend/src/helpers/engine.ts:361-365 | an area times the time unit is the elapsed time times the first reading, times the last, or under the straight line between them |
| IntegralSensor.ConstantReading | packages/backend/src/helpers/engine.ts:360-376 | whatever the rule, the exact total of a constant reading is the reading times the whole time |
| IntegralSensor.RoundedMeans | packages/backend/src/helpers/engine.ts:370-371 | with the default precision a value is stored in whole thousandths, within half of one |
| IntegralSensor.RulesInOrder | packages/backend/src/helpers/engine.ts:361-372 | for rising readings the stored left, trapezoidal and right results stay ordered, rounding included |
| HistorySensor.HistoryStats.OnUpdate | packages/backend/src/helpers/engine.ts:424-429 | the list kept is the full log filtered to the last period, and the value is the report on it |
| HistorySensor.HistoryStats.OnTimer | packages/backend/src/helpers/engine.ts:432 | the same after a minute's recomputation without an event |
| HistorySensor.HistoryStats.DropOld | packages/backend/src/helpers/engine.ts:399-401 | the trimming loop leaves exactly the log entries not older than the cutoff |
| HistorySensor.TimeInMeasures | packages/backend/src/helpers/engine.ts:403-413 | the time computed is the number of milliseconds in the state since the oldest entry kept; with the time out of it, it makes up the whole span |
| HistorySensor.CompleteIff | packages/backend/src/helpers/engine.ts:397-413 | it is the whole time in the state during the period if and only if the device was not in it as the period began, or an entry falls on that moment |
| HistorySensor.LongStayForgotten | packages/backend/src/helpers/engine.ts:397-418 | a device in the state throughout the period, with no event in it, is reported with zero |
| HistorySensor.RatioIsPercentage | packages/backend/src/helpers/engine.ts:417 | the reported ratio is between 0 and 100 |
| HistorySensor.ReportMeans | packages/backend/src/helpers/engine.ts:415-418 | the report is the time in hours to the nearest thousandth, its percentage of the period to the nearest hundredth, or the number of entries in the state |
| LogBuffer.Buffer.Append | packages/backend/src/log-buffer.ts:27-40 | after any appends the buffer is the specified view of everything appended |
| LogBuffer.AppendKeeps | packages/backend/src/log-buffer.ts:27-36 | trimming after an append turns the view of the old entries into the view of the new ones: the last min(H,C) high and min(H+L,C) - min(H,C) low entries, in order |
| LogBuffer.KeptPlaces | packages/backend/src/log-buffer.ts:27-36 | the buffer keeps an entry, in order, if and only if fewer entries of its kind follow it than there is room for: min(H,C) high and min(H+L,C) - min(H,C) low |
| LogBuffer.StaysIff | packages/backend/src/log-buffer.ts:22-36 | a warn, error or fatal entry is kept if and only if fewer than 2500 of these follow; any other if and only if those others that follow and all of these are fewer than 2500 |
| LogBuffer.KeptFits | packages/backend/src/log-buffer.ts:27-36 | the buffer holds min(H+L,C) entries, min(H,C) of them of high severity |
| LogBuffer.CutLow | packages/backend/src/log-buffer.ts:29-31 | dropping the oldest low entry is keeping one low entry fewer |
| Speech.ExecIsLeftmost | packages/backend/src/api/tts.ts:60-63 | the scanner finds a match if and only if the expression has one, and the leftmost |
| Speech.ExecSomeIff | packages/backend/src/api/tts.ts:60 | there is a match if and only if somewhere `.`, `!` or `?` stands, alone or with one of `"`, `'`, `)`, `]` after it, in front of white space or the end; and the match ends there |
| Speech.ExtractSentences | packages/backend/src/api/tts.ts:56-80 | both loops end, and compute the specified split, whenever the second one can end |
| Speech.LoopEndsIff | packages/backend/src/api/tts.ts:70-77 | the second loop ends if and only if maxLen is positive or only white space is left |
| Speech.ExtractSplits | packages/backend/src/api/tts.ts:56-80 | no character but white space is lost or moved; every piece is one trimmed sentence or part of one; the rest is at most maxLen long with no finished sentence in it |
| Speech.CutsAtBlank | packages/backend/src/api/tts.ts:71-73 | a forced cut is at the last blank within the length that has more than 40 characters before it, or at the length if there is none |
| SpeechPipeline.Pipeline.FeedTts | packages/backend/src/api/chat.ts:2402-2408 | a delta's finished sentences are enqueued, in order, and the rest stays |
| SpeechPipeline.Pipeline.FlushTts | packages/backend/src/api/chat.ts:2410-2416 | the rest is enqueued unless it is blank |
| SpeechPipeline.NothingLost | packages/backend/src/api/chat.ts:2402-2416 | at every moment what was handed on and what is buffered make up what was fed, white space aside |
| SpeechPipeline.AnyChunking | packages/backend/src/api/chat.ts:2402-2416 | after the flush any two ways of cutting the text have handed on the same |
| SpeechPipeline.ChunkingShows | packages/backend/src/api/tts.ts:60-70 | yet the pieces can differ: `3.` and `14` against `3.14` |
| SpeechChunks.PartsAgreeIff | packages/backend/src/api/tts.ts:60-68 | a text in two parts yields the sentences of the whole if and only if the second is empty or begins with white space, or the first does not end a sentence |
| SpeechDeltas.FedInTwoIff | packages/backend/src/api/tts.ts:56-80 | a text fed in two parts yields the pieces of the whole if and only if none of three causes takes effect: a sentence that ends between them, a sentence cut by force before it ended, white space that moves forced cuts |
| SpeechDeltas.DeltasAgreeIff | packages/backend/src/api/chat.ts:2402-2408 | from any state, two deltas of any length hand on the same pieces as the two fed at once under that condition, and no other |
| SpeechDeltas.ShortDeltasAgreeIff | packages/backend/src/api/tts.ts:60-68 | up to 200 characters the condition is that the second delta is empty or begins with white space, or the first does not end a sentence |
| SpeechDeltas.ForcedCutShows | packages/backend/src/api/tts.ts:70-77 | 201 letters and `b.` are spoken in other pieces than the two at once |
| SpeechPipeline.Pipeline.EnqueueTts | packages/backend/src/api/chat.ts:2379-2400 | a piece with something to say gets the next number, a promise that waits for the latest one, and becomes the latest; it is collected |
| SpeechPipeline.Pipeline.OnThen | packages/backend/src/api/chat.ts:2393-2397 | the callback sends the recording, if there is one, under the job's number to a connected client |
| SpeechPipeline.ThenIsNext | packages/backend/src/api/chat.ts:2383-2399 | whatever syntheses are done, the only callback that can run is that of the first unsettled promise |
| SpeechPipeline.SettledInOrder | packages/backend/src/api/chat.ts:2383-2399 | in every run the settled promises are those of the first jobs, though each waits only for its synthesis and one other promise |
| SpeechPipeline.SentInOrder | packages/backend/src/api/chat.ts:2379-2400 | so audio goes out in strictly increasing order for any completion order, failures included, with nothing after the end message |
| SpeechPipeline.EachSentOnce | packages/backend/src/api/chat.ts:2393-2418 | a connected client is sent each successful synthesis whose promise has settled and no other; by the end message that is all of them |
| SpeechPipeline.FinishSent | packages/backend/src/api/chat.ts:2399-2418 | when the promises the flush collected have settled, every job has had its turn |
| SpeechPipeline.EndComes | packages/backend/src/api/chat.ts:2417-2418 | when all syntheses are done, the callbacks that are due can all run, and bring every recording and the end message |
| Tokenizer.TokenizeMkisofsReportLine | packages/backend/src/iso-generator/index.ts:262-282 | the loop computes the specified tokens |
| Tokenizer.TokensFormed | packages/backend/src/iso-generator/index.ts:262-282 | tokens are not empty and hold white space only inside quotes; only the last may leave a quote open |
| Tokenizer.TokensKeepText | packages/backend/src/iso-generator/index.ts:262-282 | of a balanced line the tokens lose nothing but the white space outside quotes |
| Tokenizer.JoinThenTokenize | packages/backend/src/iso-generator/index.ts:262-282 | joining well-formed tokens with spaces and tokenizing gives them back |
| Tokenizer.TokenizeAgain | packages/backend/src/iso-generator/index.ts:262-282 | tokenizing again changes nothing, for every line |
| Tokenizer.FilterVolumeAndDate | packages/backend/src/iso-generator/index.ts:284-300 | the skipping loop keeps exactly the tokens that are neither such an option nor the argument of one |
| Tokenizer.StripOutputSpecifier | packages/backend/src/iso-generator/index.ts:303-314 | the same for the output option |
| Tokenizer.PlacesInOrder | packages/backend/src/iso-generator/index.ts:284-314 | the places kept are in order and exactly those without a reason to be dropped |
| Tokenizer.StaysIff | packages/backend/src/iso-generator/index.ts:284-314 | a token stays if and only if it is no such option, does not begin with `--modification-date=`, and an even number of options that take an argument stands directly before it |
| Tokenizer.KeptAtPlaces | packages/backend/src/iso-generator/index.ts:284-314 | a filter's output is the subsequence of its input at those places |
| Tokenizer.KeptIsClean | packages/backend/src/iso-generator/index.ts:284-314 | no option that should go is left |
| Tokenizer.FilterTwice | packages/backend/src/iso-generator/index.ts:284-314 | filtering twice is filtering once |
| XorrisoReport.ParseRecipe | packages/backend/src/iso-generator/index.ts:362-365 | the tokens of the line through both filters, and each unquoted, in order |
| XorrisoReport.FilteredIsClean | packages/backend/src/iso-generator/index.ts:284-314 | no volume, date or output option is among the tokens both filters keep |
| XorrisoReport.PathIsFound | packages/backend/src/iso-generator/index.ts:332-335 | where a quoted path ends an interval, it is the one place the expression matches, and loses its quotes |
| XorrisoReport.QuotingUndone | packages/backend/src/iso-generator/index.ts:320-331 | any text without NUL, written between single quotes with its own quotes escaped, is what is left once escapes and outer quotes are undone |
| XorrisoReport.BecomesOptionIff | packages/backend/src/iso-generator/index.ts:320-337 | a token becomes one of those options if and only if it is one once escapes and outer quotes are gone; written plainly, if and only if it was one in quotes |
| XorrisoReport.CleanIff | packages/backend/src/iso-generator/index.ts:362-365 | the arguments hold none of the options if and only if no token the filters keep is one once it is unquoted |
| XorrisoReport.PlainCleanIff | packages/backend/src/iso-generator/index.ts:362-365 | for a report without escapes, if and only if no kept token is an option in quotes |
| XorrisoReport.QuotedOptionPasses | packages/backend/src/iso-generator/index.ts:362-365 | the line `'-V'` yields the argument `-V` |
| Tokenizer.SimplifyAppendedPartitionEfi | packages/backend/src/iso-generator/index.ts:381-394 | exactly the stock references after `-e` are replaced, all else stays in place |
| Tokenizer.SimplifiedMeans | packages/backend/src/iso-generator/index.ts:381-394 | the argument of an `-e` becomes `--interval:appended_partition_2:::` if it contains `appended_partition_2_start`, and nothing else changes |
| Tokenizer.SimplifyTwice | packages/backend/src/iso-generator/index.ts:381-394 | none is left, and simplifying again changes nothing |
| Paprika.RecipeStore.SyncRecipes | packages/backend/src/api/paprika-routes.ts:79-127 | the batched sync stores, drops and counts as if done one recipe at a time; an unreachable list changes nothing |
| Paprika.SyncKeepsSound | packages/backend/src/api/paprika-routes.ts:79-127 | afterwards only listed uids have a hash, and every hash has a stored recipe, whatever failed |
| Paprika.SyncedFor | packages/backend/src/api/paprika-routes.ts:88-116 | a stale uid whose fetch succeeded has the listed hash and the fetched recipe, every other listed uid what it had |
| Paprika.UnlistedFor | packages/backend/src/api/paprika-routes.ts:94-122 | a uid that is no longer listed loses its hash and with it its recipe; a recipe without a hash is left alone |
| Paprika.CountsMean | packages/backend/src/api/paprika-routes.ts:96-126 | the counts are the numbers of uids that gained, changed and lost their hash; added + updated is the number of successful fetches |
| Paprika.SecondSync | packages/backend/src/api/paprika-routes.ts:86-93 | a second sync of the same list fetches exactly the failures of the first, in order |
| Paprika.ConvergesIff | packages/backend/src/api/paprika-routes.ts:86-93 | without failures one sync is enough if and only if no uid is listed with two hashes |
| Paprika.InSync | packages/backend/src/api/paprika-routes.ts:79-127 | then the stored hashes are the listed ones, and syncing again changes nothing |

## Left out

- Single and restart mode, and the wait for an aborted run: re-entrant starts break mutual exclusion there.
- Cron and sun scheduling, and the 5-minute execution timeout as a clock: an abort may come at any moment instead.
- RunAdmission.AdmissionControl.Stop: the cron, sun and `for` timers a teardown clears.
- Device removal while a `for` timer is armed, and triggers of different automations on one device beside each other.
- What a called automation does: `Call` awaits one moment and may throw.
- Evaluation of conditions (`evaluateCondition`, `compareValues`): their results are given.
- The proxy's relay of WebSocket sessions and camera signalling, and heartbeats other than as an event that closes a socket.
- Reconnecting in `TunnelProtocol`: it follows one connection to its end; `TunnelSockets` follows the sockets across connections.
- The HTTP client giving up on an unanswered request, other than by its cancel.
- TunnelSockets.TunnelServer.OnClose: rejecting what is pending is in `TunnelProxy`, and the remembered home version is not modelled.
- TunnelHome.TunnelClient.HandleMessage: sessions are in `LiveView`; camera signalling and pings are not modelled.
- TunnelHome.TunnelClient.OnSocketClose: forgetting the sessions and scheduling a reconnect are not part of it.
- How long the home waits for room in the socket's buffer: the wait ends at any moment.
- HMAC, tokens, permissions, notification lifecycle, and Redis and Postgres persistence, `restore` included.
- Cyclic helper lists, device removal under helpers, and a helper's own device being written by an integration.
- The other helper kinds (counter, timer, toggle, random, derivative and the like): mostly one-branch updates.
- IEEE rounding, NaN and infinities; `timeUnitMs` and the state strings of the history sensor are given.
- A history sensor with a period of zero or of fractional seconds.
- Updates of a device from inside the announcement of its own update: remote listeners could then hear them out of order.
- The other messages clients receive (health, notifications, sessions) beyond that they leave the device map alone.
- `stripMarkdownForTts` is a parameter, and the speech service answers in any order.
- Durations that are not numbers, which `setTimeout` treats like zero.
- The choice of report lines and the other boot-recipe helpers.
- Recipes without a hash entry: a sync neither needs nor removes them.
- Log listeners, process ids and contexts of log entries.
