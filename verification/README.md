# Verification of the Bluetooth Mesh network manager

The program provisions, configures and removes the nodes of a Bluetooth Mesh network
through a network co-processor (NCP).  This project models its logic in Dafny and proves
what it is meant to keep.

**The configuration engine** (`mng/dev_config.c`, `mng/states/`, `mng/mng.c`).  A slot walks
a node through Get DCD, Add Appkey, Bind, Set Pub, Add Sub, Set Config and End, or through
Remove and Remove End.  Each state walks nested iterators and sends one command per item.
`Slot` gives the callbacks as functions from slot to slot, `Odometer` and `Tours` the
iterators.  `Session` puts a slot together with its node and a remote device that may lose
commands, or carry them out although they were reported as timed out, and keeps a log.
`SessionSound` proves that no slot gets stuck and no ASSERT fires, `SessionExact` which two
answers of the environment this excludes, `Progress`, `SessionProgress` and `SessionRuns` the
order of commands, that configured means configured and that resuming skips nothing,
`Termination`, `WorkBounds` and `Sends` that every node leaves its slot, after how many answers,
and how often a command goes out,
`Service` that a node that is served is marked done, and `Removal` what a removal means.
`Wanted` says in the values of a configuration which commands it asks for, and `WantedRuns`
that a device comes to hold nothing else.
`SlotRules` are what a step leaves alone in any slot, and `Needs` says what each part of a node's
configuration is needed for.  `Engine` adds the array of slots, the bitmap
and the lists, for any number of slots; `System` and `SystemRuns` let the slots interleave
in any way and prove that each run is, for each node, a run of its session, and `NodeRuns`
carries the theorems of a session over to every node; `Outcomes` says what the lists of released
nodes mean.  `Phases` and `PhaseRuns` add the phases of the manager above it, `PhaseEnds` that
they get over, and `SyncWork` that a sync leaves no work.  `WholeDevice` joins all this with the
pages of composition data: what a node marked done says of its whole device.  `SlotState`, `EngineState`, `StateList` and
`PhaseState` are the same in place, as classes whose methods have the loops and assignments
of the source and are proved to do what those functions say.

**Configuration values.**  `Features` and `FeatureState` are the loaders of the feature bits from
JSON, with the template copy, and the state that brings a node's current bits to the target
ones.  `DcdPage` decodes Composition Data Page 0 (section 4.2.1.1 of the Bluetooth Mesh
Profile Specification v1.0).  `HexText` and `NumText` are the text codecs, `Doubles` the rounding of the doubles that
`NumText` adds up in.

**The link to the NCP.**  `SecureLink` and `SecurityState` are the encrypted packets with their
40-bit counter over AES-CCM (section 2 of RFC 3610; the cipher is a parameter that is only
asked to undo itself).  `Reassembler` puts packets together from serial reads in one buffer.
`NcpLink` joins the two.  `EventQueue` and `EventRing` are the ring of events under the
command functions.  `Bits` and `Bytes` hold the bitmap operations and the byte layouts.

## The environment

The NCP answers every command at once with accepted, out of memory or refused.  An accepted
command has a handle no slot holds, and exactly one terminal event with any status, unless its
guard timer expires and it is sent again.  A device carries out an acknowledged command, and
a command that timed out perhaps.  Its page of composition data comes before a successful
end of Get DCD and puts into the slot the elements `DcdPage.Store` makes of it: those of the
page, in order, up to the number the first pass counts.  The theorems of a session are about
these elements; `WholeDevice` says what they mean for the whole device, which is the same
exactly when the count is right.  A page on which the first pass counts too many, or never
ends, stores nothing in the model.  Passes, events, loads and newly provisioned nodes interleave in any order.

A node is well configured when its first binding and, if it publishes, its publication key
exist, every element stored keeps a model, and every feature bit to be set has a command with its
parameters; `Features.FreshNodeIsReady` proves the last for every freshly loaded node.  Without
one of these a state aborts (`Needs.EntryAbortsExactly`, `Needs.TurnAbortsExactly`).

## What was found

- A guard-timer resend answered out-of-memory leaves a slot waiting and out of memory, and
  the ASSERT at `mng/dev_config.c:417` fires two passes later (`SessionExact.GuardOomAborts`);
  every new node can come to this (`SessionExact.RunToGuardAbort`).
- "Insufficient resources" for the last model after a retry does not clear the retry flags
  (`mng/states/as_addsub.c:179-182`): the finished state sends again, or an ASSERT fires
  (`SessionExact.StrandedBreaks`).  `SessionExact.RunThatAborts` is a run of a new node that
  ends so, and every run that awaits the subscription of the last model can go on to it
  (`SessionExact.StrandedAborts`).  These two are the only such answers
  (`SessionExact.BenignExactly`).
- With an error word of 5, 6 or 7, and no other, a slot is stuck for good after Get DCD
  (`SessionExact.DcdSticksExactly`, `SessionExact.StuckForever`); the engine itself never
  records one of these (`SessionRuns.FailureRecordsOneBit`).
- A removal whose retries are exhausted ends as a success (`mng/states/as_rm.c:107-117`): the
  slot is released without an error exactly after a success of the reset or its last timeout
  (`Removal.RemovalEndsExactly`, `Removal.ReleasedMeansRemovedOrGivenUp`), and any node whose
  resets are all lost is released so while its device still holds the configuration
  (`Removal.UnreachableNodeIsReleased`).
- Blacklisting waits for the list of nodes to remove (`mng/mng.c:212`), and never ends when
  there are some and no 'r' came before (`PhaseRuns.BlacklistingBlocksExactly`).
- The first pass over a page of composition data adds the models of the first element each
  turn, in a byte, and takes no account of the four bytes in front of each element
  (`mng/states/as_getdcd.c:220-230`).  `DcdPage.CountExactly` says what it counts on every page.
  It is right on pages with one element, and with two exactly when the models of the first take
  at least four bytes more than those of the second and at most 120
  (`DcdPage.TwoElementsCountedExactly`).  Three elements with models of 40, 4 and 4 bytes are
  counted as two (`DcdPage.ThreeCountedAsTwo`), and with several elements of which the first has
  no models the loop never ends (`DcdPage.FirstWithoutModelsNeverEnds`).  A node whose page is
  miscounted is marked done with elements left out: a device that starts without bindings is
  bound in all its elements exactly when the count is right (`WholeDevice.WholeDeviceExactly`),
  and otherwise a run without any loss ends with it marked done all the same
  (`WholeDevice.MiscountedNodeIsDone`), as on a page of 40, 4 and 4 bytes
  (`WholeDevice.DoneWithoutThirdElement`).
- A template's beacon value is not looked at, a relay without its enable field aborts the
  copy of a template, and a reload may take a parameter away whose bit still differs
  (`Features.TemplateTurnsBeaconOn`, `Features.CopyAbortsExactly`, `Features.LoadReadyExactly`).
- str2uint adds up in doubles (`utils/utils.c:183`, `utils/utils.c:195`): it finds the number of
  a text exactly when a double holds it, so every number below 2^53 and not every one above
  (`NumText.SummedExactly`).  2^53 + 1 is the first it misses (`NumText.FirstNumberMissed`).
- A failed read of the serial line is passed on as a length of -1 to a copy without a bound
  (`hal/ncp_daemon/main.c:251-253`, `hal/ncp_daemon/sl_bgapi.c:46`,
  `Reassembler.Receiver.RecvData`).
- The resync branch of the receiver moves one byte too few (`Reassembler.DropExactly`), the
  header of a sealed packet is wrong when its low length byte was above 246
  (`SecureLink.SealedLengthExactly`), and one digit too many makes uint2str lose its 'x' and
  write one byte behind the length given (`NumText.UintToStr`).
- The daemon reads up to 512 bytes from the host and encrypts them into 512 bytes
  (`hal/ncp_daemon/main.c:224`, `hal/ncp_daemon/main.c:272`): the packet stays inside exactly
  for reads of 2 to 503 bytes (`SecurityState.Security.FromHost`).  Decrypting stays inside
  exactly for packets of at least 11 bytes (`SecurityState.Security.DecryptPacket`).
- cbuf2str does not end its text with a zero byte: str2cbuf can read the text from the buffer
  left behind exactly when a zero follows there already (`HexText.TextInBuffer`).

## Model

| member | source | states |
|---|---|---|
| Odometer.TurnIsSuccessor | mng/states/as_bindappkey.c:226-251 | One turn of the nested iterators moves to the lexicographic successor among the visited positions, over ragged model counts; it reports the end exactly when there is none, and then leaves all iterators at zero. |
| Odometer.TourIsExact | mng/states/as_bindappkey.c:226-251 | From any position the turns reach every visited position not before it, each once, in order. |
| Odometer.FullTour | mng/states/as_addsub.c:268-303 | From zero the turns reach exactly the visited positions, each once, in lexicographic order. |
| Odometer.SkippingInnerTurnsModel | mng/states/as_addsub.c:179-182 | Setting the address iterator to the last address, as a device without room makes the state do, turns to the next model at once and leaves no more work than before. |
| Odometer.LeftTurns | mng/states/as_addsub.c:268-303 | Every turn takes exactly one item off the work left; at the last one there is one. |
| Odometer.FullTourIsBounded | mng/states/as_addsub.c:268-303 | A whole tour visits at most as many positions as there are models of all elements times keys or addresses. |
| Tours.BindingsTour | mng/states/as_bindappkey.c:226-251 | iter_bindings visits every model of every element (SIG before vendor) with every configured key that exists and the first key in any case, each once and in order, and comes back to zero. |
| Tours.PublicationsTour | mng/states/as_setpub.c:286-319 | iter_setpub visits model 0 of every element, which is never checked against the list of unsupported models, and every later supported one, each once and in order, and comes back to zero. |
| Tours.SubscriptionsTour | mng/states/as_addsub.c:268-303 | iter_addsub visits model 0 of every element and every later supported one, times every subscription address, each once and in order, and comes back to zero. |
| Tours.KeysTour | mng/states/as_addappkey.c:201-216 | iter_appkey visits the first configured key and every later one that exists, each once and in order, and comes back to zero. |
| Mesh.ModelsInOrder | mng/states/as_bindappkey.c:68-75 | Counted by the model iterator an element has its SIG models, each with the vendor 0xFFFF, and then its vendor models. |
| Mesh.KeyId | mng/states/as_addappkey.c:218-232 | The id of a reference is that of the first active key with it, and there is one if and only if some key has it. |
| SlotState.AppKeyByRefid | mng/states/as_addappkey.c:218-232 | The loop returns x if and only if a key has the reference and the id x and no key before it has the reference. |
| SlotState.ConfigCache.IterAppkey | mng/states/as_addappkey.c:201-216 | The loop makes exactly one turn over the keys. |
| SlotState.ConfigCache.IterBindings | mng/states/as_bindappkey.c:226-251 | The loop makes exactly one turn over elements, models and keys. |
| SlotState.ConfigCache.IterSetpub | mng/states/as_setpub.c:286-319 | The do-while loop makes exactly one turn over elements and supported models. |
| SlotState.ConfigCache.IterAddsub | mng/states/as_addsub.c:268-303 | The nested loop makes exactly one turn over elements, supported models and addresses. |
| Bits.FirstZero | utils/utils.c:292-300 | The loop of utils_frz returns the lowest clear bit. |
| Bits.TrailingZeros | utils/utils.c:279-285 | utils_ctz on a non-zero bitmap is the lowest set bit. |
| Bits.RoomBelow | mng/dev_config.c:269-295 | The lowest clear bit lies below the number of slots exactly when fewer bits than slots are set, so utils_frz and utils_popcount agree about room. |
| Bits.ClrBitSmaller | include/utils/utils.h:63-63 | Clearing a set bit lowers the bitmap and its number of bits by one: the engine loops over bitmaps end. |
| Bits.BelowWidth | include/utils/utils.h:31-33 | A bitmap fits a C variable of w bits exactly when none of its bits lies at w or above. |
| Wanted.ItemMeant | mng/states/as_addsub.c:71-133 | Every command of an item names a model its element has, the first one or one that supports it, the first key of its reference, and the addresses of the configuration: the first one sets, the others are added. |
| Wanted.PubCommandCarries | mng/states/as_setpub.c:109-123 | A publication goes out with the address, time to live, period and count of the configuration, each in its place, and its interval, or 50 for none. |
| Wanted.FeatureArgsAsked | mng/states/as_setconfig.c:126-181 | Relay, proxy, friend and beacon are switched on if and only if their bit of the target is set; relay, network transmit and time to live go out with the values of the configuration, and 50 for no relay interval. |
| Wanted.FeatureMeant | mng/states/as_setconfig.c:102-199 | The next feature sent is the lowest that differs, with these values. |
| SlotState.ConfigCache.Transmit | mng/states/as_bindappkey.c:62-106 | The send callback of a state leaves the slot as Slot.Send: waiting with handle and guard timer, out of memory, or failed with the bit of the slot's state. |
| SlotState.ConfigCache.Resend | mng/states/as_addsub.c:208-240 | The retry callback does what Slot.Retry says for each reason, with its ASSERTs as an outcome. |
| SlotState.ConfigCache.Proceed | mng/states/as_addsub.c:190-195 | On to the next item with its command, or to the end of the state. |
| SlotState.ConfigCache.Succeed | mng/states/as_setconfig.c:223-324 | What each in-progress callback does after a success report. |
| SlotState.ConfigCache.TimedOut | mng/states/as_addappkey.c:117-129 | The first timeout grants the retries, a later one without retries left ends the state with an error bit, or ends the removal state as if it had succeeded. |
| SlotState.ConfigCache.Report | mng/states/as_addsub.c:150-206 | The in-progress callbacks on success, timeout, "not initialized", "insufficient resources" and any other status. |
| SlotState.ConfigCache.HandleEvent | mng/dev_config.c:529-560 | The in-progress callback and then the resend a timeout asks for. |
| SlotState.ConfigCache.ErrSetTo | include/mng/dev_config.h:128-155 | The error bit recorded is that of the slot's state, all flags and the guard timer are cleared, and the end state is next. |
| SlotState.ConfigCache.EnterEnd | mng/states/as_end.c:30-78 | The end states write the node's error word, or clear it and set the done flag in a configuration run. |
| SlotState.ConfigCache.ToNext | mng/dev_config.c:335-385 | The entry loop enters the first state whose guard holds; a refused command leads to the end state. |
| SlotState.ConfigCache.LookAfter | mng/dev_config.c:403-436 | An expired guard timer or, failing that, a pending out-of-memory leads to a resend. |
| SlotState.ConfigCache.EnginePass | mng/dev_config.c:395-447 | One pass of the engine over a slot, with its release. |
| SlotState.ConfigCache.Reset | mng/dev_config.c:143-148 | A reset slot is empty, in state provisioned with Get DCD next. |
| SlotRules.SendExactly | mng/states/as_bindappkey.c:62-106 | For every slot: a command found goes out, and the answer alone decides whether the slot waits under the new handle, has a resend pending, or failed. |
| SlotRules.ResendExactly | mng/states/as_addsub.c:208-240 | A resend accepted takes one retry after a timeout, the pending resend after out-of-memory, and leaves the guard timer off after it expired. |
| SlotRules.GoesOnFromItems | mng/states/as_addsub.c:190-195 | Going on from no item is an index outside its array; from the last item it ends the state with all iterators at zero. |
| SlotRules.FailRecords | include/mng/dev_config.h:128-155 | An error sets the bit of the slot's state in one map and no other bit, clears the flags, and changes nothing else. |
| SlotRules.ErrWordExactly | mng/states/as_end.c:30-78 | The error word of a node has the bits of both maps below 31 and no other. |
| SlotRules.EntersFirstNeeded | mng/dev_config.c:335-385 | The state entered is the first, from the one asked for on, that the node has something for, or the end; the end as well for a refused command. |
| SlotRules.PassedOver | mng/dev_config.c:432-436 | A slot that waits, or has nothing to do, is passed over unchanged. |
| SlotRules.UnawaitedIgnored | mng/dev_config.c:529-560 | A terminal event that is not awaited changes nothing. |
| SlotRules.PageStoredExactly | mng/states/as_getdcd.c:108-118 | A page is stored if and only if the slot waits in Get DCD; it disarms the guard timer of a slot that waits and does nothing else. |
| SessionSound.StepSound | mng/dev_config.c:387-560 | Every load, pass, page and reply keeps a slot in one of its modes with the response due matching the command it would resend, and fires no ASSERT and indexes no array out of bounds. |
| SessionSound.PassSound | mng/dev_config.c:403-447 | After a pass a slot is released with one error bit or none, or is in use and waits exactly for the command it sent. |
| SessionSound.ReplySound | mng/dev_config.c:529-560 | After a terminal event of any status a slot is at work on an item, done with its state, or failed, and waits exactly when a command was sent and accepted. |
| SessionSound.EnterSound | mng/dev_config.c:335-385 | Entering states ends at a state at work with its command sent, or at an end state that recorded success or the bit of the state left; a failed entry records the previous state's bit. |
| SessionSound.ItemsExist | mng/states/as_bindappkey.c:77-81 | Every position the iterators visit has a command: the ASSERTs that a key resolves hold. |
| Needs.ItemsExistExactly | mng/states/as_bindappkey.c:62-81 | Every position an iterating state visits exists and has a command if and only if the key of its first item exists and every element it walks has a model. |
| Needs.EntryAbortsExactly | mng/dev_config.c:360-381 | Entering a state whose guard holds fires an ASSERT or leaves an array if and only if the key of its first item is missing, its first element has no model, or its first feature lacks its parameters. |
| Needs.TurnAbortsExactly | mng/states/as_bindappkey.c:226-251 | A turn inside a state does if and only if it leads to an element without models. |
| SessionSound.TurnReady | mng/states/as_setpub.c:92-141 | After a turn the iterators stand at a position with a command or are back at zero, which the next state relies on. |
| SessionSound.ResumeAtTheBit | mng/states/as_getdcd.c:122-137 | With one error bit recorded Get DCD continues with that state when it is a configuration state, and with Add Appkey otherwise. |
| SessionSound.DcdStuckExactly | mng/states/as_getdcd.c:122-137 | Over all error words, Get DCD finds no state to go to exactly for the words 5, 6 and 7. |
| SessionExact.BenignExactly | mng/dev_config.c:403-447 | In a sound session a step fires no ASSERT and stays sound if and only if it is neither a guard-timer resend answered out-of-memory nor the last model's "insufficient resources" after a retry with its resend not refused. |
| SessionExact.GuardOomAborts | mng/states/as_addappkey.c:154-183 | A guard-timer resend answered out-of-memory leaves the slot waiting and out of memory; two passes later the ASSERT of the engine loop fires. |
| SessionExact.RunToGuardAbort | mng/dev_config.c:403-436 | Every node never worked on can come to it: loaded, its first command accepted, its guard timer expired, the resend answered out-of-memory, and two passes more, of which the last fires the ASSERT. |
| SessionExact.StrandedBreaks | mng/states/as_addsub.c:179-195 | "Insufficient resources" for the last model after a retry: the retry flags are not cleared, so the finished state sends again, or its ASSERT fires, exactly when no retry is left. |
| SessionExact.StrandedAborts | mng/states/as_addsub.c:208-225 | From every point of a run at which the subscription of the last model is awaited, losses of its remaining retries and then that answer, accepted, are possible, and the ASSERT fires. |
| SessionExact.RetriesCanRunOut | mng/states/as_addappkey.c:117-170 | A command that is awaited can be lost until no retry is left, and nothing else changes. |
| SessionExact.GivenUpAfter | mng/states/as_addappkey.c:117-129 | A command awaited for the first time goes out again for five timeouts, a reset for three; the next timeout gives it up, with the error bit of the state, or for a reset without any. |
| SessionExact.RunThatAborts | mng/states/as_addsub.c:208-225 | A run of a node never worked on that ends in this ASSERT. |
| SessionExact.DcdSticksExactly | mng/states/as_getdcd.c:118-139 | The success of Get DCD leaves the slot waiting for nothing with nothing to send and no state to enter if and only if the node's error word is 5, 6 or 7. |
| SessionExact.StuckForever | mng/dev_config.c:403-447 | No run gets such a slot out of it or changes anything. |
| SessionRuns.NoSlotGetsStuck | mng/dev_config.c:403-447 | After every run a slot in use awaits a response, or is out of memory, or has a state to enter, and exactly one of the three; no ASSERT fired. |
| SessionRuns.CommandOrder | mng/states/as_bindappkey.c:132-165 | Over whole runs a bind command follows an acknowledged add of its key, and a publication an acknowledged bind of its key to its model, whatever was lost, repeated or refused. |
| SessionRuns.ConfiguredMeansConfigured | mng/states/as_end.c:30-52 | Whenever a node is marked done its device holds the whole configuration on every element Get DCD stored: every key is there and bound to each of its SIG and vendor models; the first model and each one not listed as without publication publishes with the address, key, time to live, period, count and interval configured, or reported to have none; subscriptions are exactly the configured set, or the model ran out of room; every feature due has its values. |
| WantedRuns.NothingElse | mng/dev_config.c:387-560 | And nothing else: over whole runs a device comes to hold no key, binding, publication, subscription or feature value but those it had and those of the configuration. |
| WantedRuns.NothingElseOnAnyDevice | mng/dev_config.c:387-560 | The same for every device however the slots interleave. |
| WholeDevice.StoredOnce | mng/states/as_getdcd.c:217-300 | The elements stored of a page are determined by it, are its first ones, and are all of them if and only if the first pass counts right. |
| WholeDevice.OtherElementsUntouched | mng/states/as_bindappkey.c:62-106 | Over whole runs the elements not stored keep the bindings, publications and subscriptions they had, unless the node is removed. |
| WholeDevice.WholeDeviceConfigured | mng/states/as_getdcd.c:217-300 | On a page counted right configured means configured for the whole device. |
| WholeDevice.WholeDeviceExactly | mng/states/as_getdcd.c:220-235 | A device that starts without bindings and is marked done has the keys bound in all its elements if and only if its page is counted right. |
| WholeDevice.ThirdElementLeftOut | mng/states/as_getdcd.c:220-235 | With elements of 40, 4 and 4 bytes of models its third element is left out whenever it is marked done. |
| WholeDevice.MiscountedNodeIsDone | mng/states/as_getdcd.c:220-235 | Every node never worked on and without bindings whose page is counted wrong: loaded and served without loss it is marked done, no error, with the keys not bound to all its models. |
| WholeDevice.DoneWithoutThirdElement | mng/states/as_getdcd.c:220-235 | A run of such a node never worked on, every command accepted and every event a success, that ends with the node marked done, no error and the keys not bound to all its models. |
| Service.ServedMeansDone | mng/states/as_end.c:30-52 | A node loaded for configuration whose commands are all accepted and succeed before a guard timer expires is marked done without an error when it is released, in whatever order passes, pages and events come. |
| Service.ServedNodeIsDone | mng/states/as_end.c:30-52 | Served in rounds of a pass and an answer it is released and marked done after at most the work of its states and one of them. |
| WholeDevice.WholeNodesExactly | mng/states/as_getdcd.c:220-235 | The same condition for every node however the slots interleave. |
| WholeDevice.WholeSyncsExactly | mng/states/as_getdcd.c:220-235 | And over any number of syncs of all nodes. |
| Removal.RemovalEndsExactly | mng/states/as_rm.c:94-124 | The terminal event of the reset ends the removal, and the next pass releases the slot without an error, if and only if it is a success or a timeout with no retry left. |
| Removal.ReleasedMeansRemovedOrGivenUp | mng/states/as_rm.c:94-124 | From load to release: without an error exactly when the last thing that happened is a success or a timeout of the reset; then the device was wiped, or the reset timed out for the first send and every retry. |
| Removal.UnreachableNodeIsReleased | mng/states/as_rm.c:107-117 | Any node whose resets are all lost is released without an error, its device as it was. |
| SessionRuns.ResumeSkipsNothing | mng/states/as_getdcd.c:122-137 | After any number of failed runs an idle node carries at most one error bit, and every state before the one its next run continues with is complete on the device. |
| SessionRuns.FailureRecordsOneBit | mng/dev_config.c:360-381 | A failed run records exactly the bit of the slot's state, which is not later than the failed one, and every earlier state is complete. |
| SessionProgress.StepProgress | mng/states/as_addsub.c:78-128 | Every step keeps commands in order and completed work complete, with the overwriting first subscription and with timed-out commands carried out or not. |
| Progress.GoodApplies | mng/states/as_addsub.c:78-128 | Carrying out the command of an item once more, acknowledged or not, undoes no finished item. |
| Progress.GoodAdvances | mng/states/as_bindappkey.c:132-165 | An acknowledged item and the turn after it extend the finished items to those before the next position, or complete the state. |
| Progress.NoRoomSkips | mng/states/as_addsub.c:179-182 | A model without room counts as finished, and the turn goes to the next model. |
| Termination.StepSpends | mng/states/as_addappkey.c:117-170 | A load grants the answers the states of its run may take; every terminal event lowers what is left, except a timeout whose resend is answered out-of-memory; no other step raises it. |
| Termination.AnswersAreBounded | include/projconfig.h:89-95 | A loaded node takes at most retry limit plus one terminal events for each work item of each state it enters, and one more for each timeout resend answered out-of-memory. |
| WorkBounds.WorkIsBounded | include/projconfig.h:89-95 | The work of a configuration is at most six for each of its keys, bindings, publications, subscriptions and features, counted over all models of the elements stored; that of a removal is four. |
| WorkBounds.AnswersInNumbers | include/projconfig.h:89-95 | So many terminal events a loaded node takes at most. |
| Termination.SpentNodeLeaves | mng/dev_config.c:440-447 | Once that many came, whatever the NCP answered in between, nothing is awaited, and the next pass not answered out-of-memory releases the slot. |
| Sends.SendsAreBounded | mng/states/as_addappkey.c:51-82 | The sends the log gains from a load on: at most retry limit plus one for each work item, apart from guard-timer resends, at most one for each send before, and from sends not accepted. |
| Sends.SendsOfAnItem | mng/states/as_addappkey.c:154-184 | While one item is awaited it is sent at most once for every retry used up, every guard timer expired and every send not accepted (twice for a timeout resend that meets out-of-memory). |
| NodeRuns.ResumeSkipsNothingOnAnyNode | mng/states/as_getdcd.c:122-137 | Resuming skips nothing for every node however the slots interleave. |
| NodeRuns.AnswersOfAnyNodeAreBounded | mng/dev_config.c:387-560 | The bound on terminal events, and the release after them, for every node however the slots interleave. |
| NodeRuns.SendsToAnyNodeAreBounded | mng/dev_config.c:387-560 | The bound on sends for every node however the slots interleave. |
| Termination.NodeLeavesItsSlot | mng/dev_config.c:440-447 | Served in rounds of a pass and a terminal event a node is released after at most its budget plus one rounds. |
| Termination.NeverIdle | mng/dev_config.c:440-447 | A pass not answered out-of-memory releases the slot or leaves it awaiting a response. |
| Engine.LoadsAll | mng/dev_config.c:269-295 | Loading keeps bit i set exactly when slot i holds a node, takes the first nodes of the list, and stops only with all slots in use or the list empty. |
| Engine.PassTracks | mng/dev_config.c:440-447 | A pass clears a slot's bit exactly when it releases the slot and leaves the other bits alone. |
| Engine.CacheFromHandle | mng/dev_config.c:516-526 | The search finds a used slot with the handle, or there is none. |
| EngineState.Manager.Load | mng/dev_config.c:269-295 | The loading loop over array, bitmap and list in place; the number loaded is what left the list. |
| EngineState.Manager.ItemLoad | mng/dev_config.c:249-267 | Loading writes one slot and its bit, and nothing else. |
| EngineState.Manager.ConfigEngine | mng/dev_config.c:387-451 | The engine loop passes over the used slots, lowest first, each exactly once. |
| EngineState.Manager.PassOver | mng/dev_config.c:395-447 | One turn of the loop: slot, bitmap, fail list and node record after it. |
| EngineState.Manager.FindByHandle | mng/dev_config.c:516-526 | The loop finds the lowest used slot with the handle. |
| EngineState.Manager.HandleEnd | mng/dev_config.c:529-560 | A terminal event changes the slot found and its node's record, and nothing else; a slot in a state without callbacks stays as it is. |
| EngineState.Manager.HandlePage | mng/states/as_getdcd.c:101-118 | A page of composition data goes from its bytes through both passes into the slot found when it waits in Get DCD: the whole page if and only if it is counted right. In any other state nothing is stored. |
| System.MoveKeeps | mng/dev_config.c:387-560 | Every load, pass, event and hand-over keeps the bitmap exact, every node in one place, handles leading to their slots and all sessions sound; no ASSERT fires. |
| System.MoveIsStep | mng/dev_config.c:387-560 | Each move of the engine is one step of one node's session and leaves the others as they were. |
| System.HandleFindsSlot | mng/dev_config.c:460-527 | A handle with a response due leads to the slot of its node, which waits. |
| System.MoveConserves | mng/dev_config.c:249-447 | No move loses a node or puts it in a second place. |
| SystemRuns.EveryNodeIsSomewhere | mng/dev_config.c:249-447 | After every interleaving each node handed over is in exactly one of the two lists, one slot, the fail list and the finished nodes, and the bitmap is exact. |
| SystemRuns.RunConserves | mng/dev_config.c:249-447 | The nodes in all places together are those at the start and those handed over since. |
| Outcomes.ListsTellTheOutcome | mng/dev_config.c:438-446 | However the slots interleave, a node that came to the fail list carries an error bit, and one that finished carries none. |
| SystemRuns.NoSlotOfManyGetsStuck | mng/dev_config.c:395-447 | After every interleaving each used slot is in exactly one of its three conditions, and the handle of a waiting one leads back to it. |
| SystemRuns.RunProjects | mng/dev_config.c:387-560 | Every run of the engine is, for every node, a run of that node's session. |
| SystemRuns.LoadIsMoves | mng/dev_config.c:269-295 | The loading loop is a run of single loads. |
| SystemRuns.PassIsMoves | mng/dev_config.c:395-447 | The engine loop is a run of passes over single slots, and no ASSERT fires in it. |
| SystemRuns.ConfiguredNodesAreConfigured | mng/states/as_end.c:30-52 | Configured means configured, on the elements stored, for every node however the slots interleave. |
| SystemRuns.CommandOrderOnEveryDevice | mng/states/as_setpub.c:143-156 | The order of commands holds for every device however the slots interleave. |
| StateList.Acc.AddStateAfter | mng/dev_config.c:156-191 | A state is put behind the first state with the number, in front for -1, or refused when there is none. |
| StateList.Acc.Init | mng/dev_config.c:193-232 | The insertions give the states in the order of their numbers. |
| StateList.NextByNumber | mng/dev_config.c:323-333 | In that list each state is found and followed by the next by number. |
| Phases.ManageStep | mng/mng.c:177-262 | One manager step: a phase is left only when its tests say it is over, to the first letter with work further on in the order, to configuring while nodes are left to configure, or to configured. |
| Phases.NextPhaseIsFirst | mng/mng.c:222-250 | The loop over the order enters the phase of the first letter with work, and never passes a '-'. |
| Phases.ActKeeps | mng/mng.c:264-301 | Every act of manager, engine and environment keeps all slots of the kind of the phase. |
| PhaseRuns.SlotsOfOneKind | mng/dev_config.c:297-321 | Over any number of syncs slots remove nodes only in the removing phase, configure them only in the adding and configuring ones, and none is in use in any other. |
| PhaseRuns.PhasesInOrder | mng/mng.c:222-250 | Within a sync the phases are entered strictly forward in the order given and never past a '-'. |
| SyncWork.ManageExactly | mng/mng.c:177-262 | In the lists themselves: what keeps the manager in its phase, when adding gives way to configuring, and that otherwise the first letter that asks for anything gives the next phase. |
| SyncWork.OrderAbortsExactly | mng/mng.c:217-253 | The ASSERT on the order fires if and only if the manager comes to a letter that is none of the four. |
| SyncWork.SyncLeavesNoWork | mng/mng.c:177-262 | When a sync comes back to configured nothing is left to provision, configure or remove for any letter of its order before a '-', and no slot is in use. |
| PhaseRuns.SyncComesToItsEnd | mng/mng.c:253-260 | After at most eight manager steps that find their phase over the manager is out of all phases. |
| PhaseEnds.MovesAreBounded | mng/dev_config.c:387-560 | However the slots interleave, a phase takes no more loads, passes over slots that do not wait and terminal events that count than the rank of its nodes, and one for each timeout whose resend is answered out-of-memory. |
| PhaseEnds.PhaseGetsOver | mng/mng.c:194-210 | After that many of them a configuring or removing phase is found over: its list is empty and no slot is in use. |
| PhaseEnds.MoreToDo | mng/dev_config.c:387-451 | Until then one of them can be made, with any answer to its command but out-of-memory. |
| PhaseRuns.BlacklistingStuck | mng/mng.c:211-216 | Blacklisting with nodes waiting to be removed is never left but by a stop. |
| PhaseRuns.BlacklistingBlocksExactly | mng/mng.c:211-216 | It gets there if and only if there were nodes to remove at the start and the order has no 'r' before it. |
| PhaseRuns.SyncsConfigure | mng/mng.c:264-301 | Configured means configured, on the elements stored, over any number of syncs. |
| PhaseState.Sync.ChoosePhase | mng/mng.c:222-261 | The loop leaves phase and place in the order as NextPhase says, the phase of the first letter with work or configured. |
| PhaseState.Sync.SetMngState | mng/mng.c:177-262 | The manager step leaves phase and place as SetState says; Phases.ManageStep and the runs of PhaseRuns are about that. |
| PhaseState.Sync.Stop | mng/mng.c:455-473 | A stop empties the lists, leaves the slots to finish and no phase to enter. |
| Mesh.FeatureSetClears | mng/states/as_setconfig.c:92-100 | Setting a feature that differs removes exactly its bit from the difference. |
| Features.SetConfigConverges | mng/states/as_setconfig.c:102-140 | While a bit differs the state finds a command; each success removes one bit, and after as many successes as bits differed target and current are equal. |
| Features.FreshNodeIsReady | cfg/parser/json_parser.c:863-880 | In a freshly loaded node, with or without a template, the low power bit is equal in target and current and each differing bit has a command and its parameter. |
| Features.LoadReadyExactly | cfg/parser/json_parser.c:748-829 | Loaded on top of an earlier state this holds if and only if no bit that differed before lost its parameter to both object and template. |
| Features.CopyAbortsExactly | cfg/parser/json_parser.c:763-775 | The ASSERT in copying a template fires exactly for a node whose feature object has a relay without its enable field and no other feature but low power off. |
| Features.TemplateTurnsBeaconOn | cfg/parser/json_parser.c:759-762 | A template's beacon value, even zero, switches the beacon on in a node that has none of its own: the target bit says whether the value is non-zero if and only if it is. |
| Features.LoadTtlExactly | cfg/parser/json_parser.c:564-597 | The value given is held and its bit differs, no other bit changes; one not given is taken away and no bit changes. |
| Features.LoadSnbExactly | cfg/parser/json_parser.c:599-629 | The same, with the beacon switched by whether the value is zero. |
| Features.LoadTxpExactly | cfg/parser/json_parser.c:473-515 | A count given is the count held and an interval given the interval held; one not given stays, or is zero if there was none. |
| Features.LimitsExactly | cfg/parser/json_parser.c:409-428 | The relay's count is at most 7; its interval is rounded up to tens between 10 and 320 for counts from 1 to 7, is 50 for zero, and stays for more than 7. |
| Features.LoadFeaturesExactly | cfg/parser/json_parser.c:363-471 | Each of the four low bits is as the object names it in both bitmaps, and clear when it does not; bits 4 to 15 stay, and the relay's numbers are those given within their limits. |
| Features.CopyTemplateExactly | cfg/parser/json_parser.c:748-789 | Every value and bit of both bitmaps after the copy, from those of node and template; the ASSERT fires if and only if the node has relay numbers and none of its low bits. |
| Features.ReadyNodesAreCommanded | mng/states/as_setconfig.c:112-199 | A loaded node meets what the engine asks of its features. |
| FeatureState.MeshConfig.SetFeatureConfig | cfg/parser/json_parser.c:127-136 | Switching a feature on or off sets its bit in one bitmap and clears it in the other, so that it differs, and touches no other bit (Features.SetFeatureDiffers). |
| FeatureState.MeshConfig.LoadTtl | cfg/parser/json_parser.c:564-597 | A number given is stored and its bit made to differ; one missing or malformed takes the value away and leaves the bits. |
| FeatureState.MeshConfig.LoadSnb | cfg/parser/json_parser.c:599-629 | A number given is stored and switches the beacon by whether it is zero; one missing or malformed takes the value away and leaves the bits. |
| FeatureState.MeshConfig.LoadTxp | cfg/parser/json_parser.c:473-515 | Numbers given replace those held, the others stay; anything malformed takes all away and leaves the bits. |
| FeatureState.MeshConfig.LoadFeatures | cfg/parser/json_parser.c:363-471 | The four low bits are cleared first; then each feature named is switched, the relay's numbers are brought within their limits, and a malformed one leaves all four cleared. |
| FeatureState.MeshConfig.LoadItem | cfg/parser/json_parser.c:155-169 | The loaders in their order, in place: a ready configuration stays ready if and only if no bit that differed loses its parameter. |
| FeatureState.MeshConfig.CopyTemplate | cfg/parser/json_parser.c:748-789 | Only what the node lacks is copied, the low bits only when all are clear, with the ASSERT as an outcome. |
| DcdPage.Decode | mng/states/as_getdcd.c:236-299 | For any number of elements the second pass stays inside the page if and only if the page has as many, and then undoes their encoding: elements in order, configuration models left out, vendor models exact. |
| DcdPage.ReadSig | mng/states/as_getdcd.c:251-281 | The SIG models are compacted in place to those kept, in order. |
| DcdPage.ReadVendor | mng/states/as_getdcd.c:285-298 | The vendor models are read back exactly. |
| DcdPage.KeptShrinks | mng/states/as_getdcd.c:274-281 | The models kept are those reported that are not the configuration server or client. |
| DcdPage.KeptInOrder | mng/states/as_getdcd.c:274-281 | And they keep their order. |
| DcdPage.PageLayout | mng/states/as_getdcd.c:217-300 | The page byte for byte: where each element begins, its counts, and each model with the lower byte first, vendor before model number. |
| DcdPage.CountElements | mng/states/as_getdcd.c:220-233 | On any page of at least 14 bytes: the number of turns after which the first pass stops, with its one-byte index, or that it never does. |
| DcdPage.Store | mng/states/as_getdcd.c:217-300 | Both passes: the elements of the page up to the number counted; all of them if and only if the first pass counts right; reading past the end or never ending exactly when it counts too many or never stops. |
| DcdPage.CountExactly | mng/states/as_getdcd.c:220-233 | On every page it finds n elements if and only if n is the least positive number of times that the models of the first element, in one-byte arithmetic, reach the end of the page. |
| DcdPage.CountStraight | mng/states/as_getdcd.c:220-233 | As long as the index does not wrap that is when n times reach the end and n - 1 times do not. |
| DcdPage.FirstWithoutModelsNeverEnds | mng/states/as_getdcd.c:226-230 | With several elements of which the first has no models it never stops. |
| DcdPage.ThreeCountedAsTwo | mng/states/as_getdcd.c:220-233 | Three elements with models of 40, 4 and 4 bytes are counted as two. |
| DcdPage.OneElementCounted | mng/states/as_getdcd.c:220-233 | It finds one element on every page with one. |
| DcdPage.TwoElementsCountedExactly | mng/states/as_getdcd.c:220-233 | It finds two on a page with two if and only if the models of the first take at least four bytes more than those of the second and at most 120 bytes. |
| HexText.CbufToStr | utils/utils.c:84-115 | The text of the bytes, in either direction, when it fits, and a C string exactly when a zero followed it before; nothing is written when it does not fit. |
| HexText.TextInBuffer | utils/utils.c:84-130 | The C string in a buffer that starts with the text is that text if and only if a zero follows it there. |
| HexText.TextExactly | utils/utils.c:99-112 | Each byte stands as two lower-case digits, the high one first, where the direction puts it. |
| HexText.UnhexExactly | utils/utils.c:134-151 | Each byte read has the digits, in either case, that the direction puts there. |
| HexText.DigitExactly | utils/utils.c:138-143 | A character is a digit if and only if it stands for a value, and for which. |
| HexText.BufferRoundTrip | utils/utils.c:84-154 | From such a buffer the bytes are read back. |
| HexText.StrToCbuf | utils/utils.c:117-154 | The bytes of the text when it is one and fits, the error otherwise. |
| HexText.TextRoundTrip | utils/utils.c:84-154 | Reading back what was written gives the bytes for the same direction and the bytes reversed for different ones. |
| HexText.BytesRoundTrip | utils/utils.c:84-154 | Writing what was read from a lower-case text gives the text. |
| NumText.StrToUint | utils/utils.c:156-207 | The sum of a decimal or hexadecimal text as the loops take it in doubles, cut to the width asked for, or the error; or that a double is out of the range of the 64-bit number it is converted to. |
| NumText.SummedExactly | utils/utils.c:172-195 | The sum is the number the digits stand for if and only if that has 64 bits and a double holds it, and there are no more digits than pow has finite powers for. |
| NumText.BelowTwo53 | utils/utils.c:172-195 | Every number below 2^53 is found. |
| NumText.FirstNumberMissed | utils/utils.c:187-196 | The text of 2^53 + 1 is read as 2^53. |
| NumText.ReadExactly | utils/utils.c:166-197 | A text behind "0x" is read as hexadecimal digits, any other as decimal ones. |
| NumText.StoredExactly | utils/utils.c:198-206 | The number is cut to the 1, 2, 4 or 8 bytes of the variable. |
| NumText.LastExponentExactly | utils/utils.c:183-195 | The powers that a double can hold are those below 2^1024: 308 of ten and 255 of sixteen. |
| Doubles.HalfGoesToEven | utils/utils.c:183-183 | Half way between two doubles it goes to the even one. |
| Doubles.UlpExactly | utils/utils.c:183-183 | The distance of doubles leaves 53 binary digits. |
| Doubles.RoundIsRepresentable | utils/utils.c:183-183 | Rounding gives a number that a double holds. |
| Doubles.RoundIsNear | utils/utils.c:183-183 | It goes at most half the way to the next. |
| NumText.UintToStr | utils/utils.c:209-261 | The digits at the front of the buffer, or the error exactly when they are too many; one digit too many for the "0x" overwrites its 'x', and leaves a buffer of just the length given, as a length of one does but for one digit and three bytes. |
| NumText.FrontDigit | utils/utils.c:172-195 | Adding digit times power from the last digit gives the positional value. |
| NumText.NumberRoundTrip | utils/utils.c:156-261 | Reading back what was written gives the 64-bit number, in both bases, if and only if a double holds it; except for a hexadecimal text that lost its 'x', which is no longer read as one. |
| SecureLink.IncreaseIsSuccessor | hal/ncp_daemon/sl_security.c:411-417 | The counter of 32 and 8 bits goes up by one modulo 2^40. |
| SecureLink.NonceExactly | hal/ncp_daemon/sl_security.c:37-42 | The nonce is the counter in four bytes, the lowest first, its high byte, and the two vectors, and nothing else is. |
| SecureLink.NoncesDiffer | hal/ncp_daemon/sl_security.c:508-512 | Two nonces are the same if and only if counter and vectors are. |
| SecureLink.NonceOnce | hal/ncp_daemon/sl_security.c:556-570 | Two packets of a direction have the same nonce if and only if a multiple of 2^40 packets lies between them. |
| SecureLink.SealedUnderItsOwn | hal/ncp_daemon/sl_security.c:542-571 | The packets sent for the messages of a session are each sealed under a nonce that none of the next 2^40 has. |
| SecureLink.SealedExactly | hal/ncp_daemon/sl_security.c:542-571 | A packet is the header with the encrypted bit and nine more in its length, what the library seals under that nonce with header and counter as additional data, and the counter. |
| SecureLink.OpenedExactly | hal/ncp_daemon/sl_security.c:499-540 | A packet is opened under the counter it carries, is taken if and only if that is not behind and it opens, and the direction goes on behind it. |
| SecureLink.PacketRoundTrip | hal/ncp_daemon/sl_security.c:499-571 | A packet is taken exactly when its counter is not behind, and comes out as given but for the encrypted bit. |
| SecureLink.ExactBytesExactly | hal/ncp_daemon/sl_security.c:499-503 | Byte for byte it comes back if and only if its encrypted bit was clear. |
| SecureLink.SealedLengthExactly | hal/ncp_daemon/sl_security.c:542-546 | The header of a sealed packet gives its length if and only if the low length byte was at most 246: there is no carry. |
| SecureLink.SessionDelivers | hal/ncp_daemon/sl_security.c:499-571 | Over a channel that drops, repeats and reorders, within fewer than 2^40 messages, exactly the packets not behind the last one taken are delivered, byte for byte; messages the library fails to seal leave no trace. |
| SecureLink.SealedAlone | hal/ncp_daemon/sl_security.c:552-560 | The packets sent are those of the messages sealed, as if the others had not been there. |
| SecureLink.AcceptedAscend | hal/ncp_daemon/sl_security.c:513-517 | The packets delivered are in the order sent and each at most once. |
| SecureLink.AcceptsLeader | hal/ncp_daemon/sl_security.c:513-517 | No packet is left out that arrived ahead of all before it. |
| SecureLink.WrapAcceptsAgain | hal/ncp_daemon/sl_security.c:411-417 | Once the counter has wrapped every packet of the session is accepted again. |
| SecurityState.ConnNonce.Increase | hal/ncp_daemon/sl_security.c:411-417 | The two words of the counter in place: their value goes up by one modulo 2^40. |
| SecurityState.Security.EncryptPacket | hal/ncp_daemon/sl_security.c:542-571 | Encryption from buffer to buffer, with length and counter after it; it stays inside its buffers if and only if there are two bytes to encrypt and nine more in the target. |
| SecurityState.Security.FromHost | hal/ncp_daemon/main.c:255-280 | What the daemon does with a read from the host: the packet written to the serial line, inside the 512 bytes of both buffers if and only if 2 to 503 bytes were read. |
| SecurityState.Security.DecryptPacket | hal/ncp_daemon/sl_security.c:499-540 | Decryption from buffer to buffer, inside its buffers if and only if the packet has 11 bytes and fits; a stale or false packet gives length zero and leaves the counter. |
| SecurityState.Security.Start | hal/ncp_daemon/sl_security.c:443-475 | Counters are set to zero only when the link is not encrypted; the next state needs a key and both vectors. |
| SecurityState.Security.Respond | hal/ncp_daemon/sl_security.c:477-497 | The response completes the nonces and encrypts the link, once, and only while it is awaited. |
| Reassembler.ChunkingIsInvisible | hal/ncp_daemon/sl_bgapi.c:46-102 | For every stream of well-formed packets, however cut into reads, the packets and the bytes left over are those of the whole stream taken at once. |
| Reassembler.PacketsComeOut | hal/ncp_daemon/sl_bgapi.c:51-102 | Packets sent one after the other come out as sent, but for a last one without payload, which waits for a fifth byte. |
| Reassembler.PacketExactly | hal/ncp_daemon/sl_bgapi.c:51-62 | What a packet is: the bit 0x20, four bytes of header, and at most 256 bytes of the length they give. |
| Reassembler.RestIsShort | hal/ncp_daemon/sl_bgapi.c:51-62 | Whatever bytes came in, less than one longest packet is kept between calls. |
| Reassembler.DropExactly | hal/ncp_daemon/sl_bgapi.c:54-58 | The resync branch drops the first byte and nothing else if and only if the last two bytes are the same. |
| Reassembler.GarbageShowsTheCut | hal/ncp_daemon/sl_bgapi.c:54-58 | A stray byte before a packet on which two cuts of the same bytes give different packets. |
| Reassembler.IdealInParts | hal/ncp_daemon/sl_bgapi.c:51-102 | A receiver that drops the first byte and nothing else gives the same packets and rest however any bytes are cut. |
| Reassembler.StrayBytesAreSkipped | hal/ncp_daemon/sl_bgapi.c:51-102 | Reads in which every byte dropped leaves the last two bytes the same give what that receiver makes of the whole stream. |
| Reassembler.Receiver.RecvData | hal/ncp_daemon/sl_bgapi.c:36-102 | The receiver in place, on what read returned: the copy stays inside the buffer if and only if that is not negative; then the branch against overflow is dead, and it delivers and keeps what Receive says. |
| Reassembler.Receiver.TakePackets | hal/ncp_daemon/sl_bgapi.c:51-101 | The loop hands on the packets of the bytes buffered and keeps the rest, moving bytes in place. |
| Reassembler.Receiver.DropByte | hal/ncp_daemon/sl_bgapi.c:54-58 | The resync branch in place, moving one byte too few. |
| NcpLink.LinkDelivers | hal/ncp_daemon/sl_bgapi.c:46-102 | Every packet a peer seals in a session comes out of receiver and decryption byte for byte and in order, however its stream was cut into reads, and nothing is left over; only messages the library fails to seal are missing. |
| NcpLink.SealedIsFramed | hal/ncp_daemon/sl_security.c:542-571 | A packet of the protocol is well formed as the receiver asks when it is sealed if and only if its length still fits the payload and its low length byte was at most 246. |
| EventQueue.FirstInFirstOut | hal/ble_stack/src/host/gecko_bglib.c:90-138 | Events come out in the order of arrival, each once, and none is missing but those that came while length - 1 were queued. |
| EventQueue.HearExactly | hal/ble_stack/src/host/gecko_bglib.c:27-74 | What one call makes of any input, by its first bytes: skipped, too long, an event or a response. |
| EventQueue.WireEvents | hal/ble_stack/src/host/gecko_bglib.c:27-74 | The events of an input are those among the messages sent. |
| EventQueue.GetOnWire | hal/ble_stack/src/host/gecko_bglib.c:90-110 | The oldest event queued, or with none queued the next message sent, event or response. |
| EventQueue.AwaitOnWire | hal/ble_stack/src/host/gecko_bglib.c:122-138 | The first response sent; of the events before it as many are queued, from the first on, as there is room for. |
| EventQueue.EveryEventIsSeen | hal/ble_stack/src/host/gecko_bglib.c:19-74 | Every event of the input is taken note of in its order or still to be read. |
| EventQueue.QueueStaysBounded | hal/ble_stack/src/host/gecko_bglib.c:42-50 | Never more than length - 1 events are queued. |
| EventRing.Ring.WaitMessage | hal/ble_stack/src/host/gecko_bglib.c:19-74 | One message: the ring after it is the bounded queue after it, and the event held by the application stays as it is. |
| EventRing.Ring.GetEvent | hal/ble_stack/src/host/gecko_bglib.c:90-110 | The oldest event, which from then on is the held one, a response, or nothing. |
| EventRing.Ring.WaitResponse | hal/ble_stack/src/host/gecko_bglib.c:122-138 | The response awaited; events before it are queued, and the held event stays as it is. |
| EventRing.Ring.Handler | mng/bgevt_hdr.c:108-124 | However many commands a handler sends, the event it was given is not overwritten. |
| EventRing.Ring.FullExactly | hal/ble_stack/src/host/gecko_bglib.c:42-53 | The test for a full ring holds exactly when all but one slot hold an event. |

## Left out

- SessionRuns.NoSlotGetsStuck: runs leave out the two answers named in SessionExact.BenignExactly, on which the source itself aborts.
- SystemRuns.NoSlotOfManyGetsStuck: the same two answers are left out; stale and repeated events with unknown handles, which abort the program, too.
- Termination.NodeLeavesItsSlot: asks for rounds in which the NCP does not answer out-of-memory; Termination.SpentNodeLeaves needs that of the last pass only.
- PhaseRuns.SyncComesToItsEnd: counts manager steps that find their phase over; that configuring and removing get over is stated in PhaseEnds, adding and blacklisting are procedures of the environment.
- DcdPage.Store: a page counted too long is reported as read past its end; what lies there is not modelled.
- NumText.StrToUint: takes pow as correctly rounded and each product and sum as rounded once, as binary64 arithmetic without wider registers does; what an out-of-range conversion gives is not modelled.
- NumText.UintToStr: what a write outside the buffer changes is not modelled; it is reported as such.
- SecureLink.Decrypt: is about packets of at least 11 bytes; SecurityState.Security.DecryptPacket says that shorter ones leave the buffers.
- Reassembler.Receiver.RecvData: hands on the packets as they are framed; decrypting them and looking into handshake and reset messages (hal/ncp_daemon/sl_bgapi.c:68-94) is not modelled there, nor is what the copy after a failed read overwrites.
- NcpLink.LinkDelivers: is about messages that are framed when sealed; NcpLink.SealedIsFramed says which those are.
- EventQueue.Get: reads are taken to succeed and the blocking form is left out; a response that comes unasked is returned from the response buffer, which the next command overwrites.
- Provisioning and blacklisting (mng/dev_add.c, mng/dev_bl.c) are steps of the environment on their lists; scanning and its free mode are left out.
- The general error code, the copy of the vendor and model numbers in the slot, the function bits of a node and the statistics: diagnostics.
- The durations of guard timers and their dependence on low power nodes: a timer is armed, expired or off.
- Removing a node's entry from the database and from the NCP at the end of a removal; files reloaded while slots are in use.
- An absent list of keys or addresses is the empty one; the database of nodes is a dictionary of records, so aliasing of node records is not modelled.
- Null pointers handed to the codecs; allocation failures.
- Command line, logging, sockets, polling, key exchange and the JSON library.
