# What the conversation platform promises, proved

The platform answers customers on WhatsApp, by text with an AI that may call tools, and by voice with
flows, queues and agents. This project models five parts of it in Dafny and proves what they are for.

- **Confirmations** (`Confirmations`, `ConfirmationProtocol`, `ConfirmationSafety`, `ConfirmationRuns`,
  `ConfirmationTheorems`, `ConfirmationTimes`, `ConfirmationMessages`, `ConfirmationLimits`,
  `ConfirmationFindings`, `ConfirmationOutcomes`, `ConfirmationFlows`, `Confirmer`). What a write tool
  proposes is carried out once, after the customer's tap. The protocol is a state machine with one step for
  each database statement or transaction, one for the clock and one for a crash of any process between two
  statements; runs are arbitrary interleavings of taps, proposals, several reconcilers and other sources of
  transfers. `Confirmer` is the same code as it runs by itself, with its loops.
- **Recordings** (`Bits`, `OggCrc`, `OggPage`, `OggReader`, `OggStream`, `OggCut`, `CallRecorder`). The writer of
  Ogg/Opus files with its table-driven checksum, and the reader that is independent of it.
- **Duplicate contacts** (`PhoneIdentity`, `UnionFind`, `ContactMerge`). Union-find with path halving over
  the identities of phone numbers, and the merge that follows from it.
- **The tool loop** (`Utf8`, `Conversation`, `Flatten`, `FlattenReader`, `Governance`, `ToolLoop`,
  `ToolLoopTheorems`). The bounded loop between a provider and the governed tools, for any provider and any
  results, its audit, and a reader of the text that the last request shows.
- **Calls** (`Rtp`, `Assignment`, `Rotation`, `Session`, `SessionFlows`, `CallSession`). Sequence numbers across
  handovers, fair assignment, the rotation over a team, and the sections of a session under its lock: what
  they never do, and what they bring about.

`Basics` holds what several parts need. `dafny verify dfyconfig.toml` checks everything.

## How it is modelled

- A table is a map from ids to rows, and a single statement or a transaction under its advisory lock is one
  atomic step. The index that allows one active transfer for a contact is an insert that may be refused.
- Of the confirmation protocol two things are assumed. The clock does not go backwards. An execution ends,
  or its process dies, within the minimum age of the clock reading recorded by its confirmation or claim;
  that executions then do not overlap is proved. A database error in the middle of an execution, where the
  code gives up and leaves the row to the reconciler, is a crash of that process. Rows carry two histories
  that are not stored, of their statuses and of their claims, and a transfer the confirmation that made it.
- A token is a number and its hash is the number; whether the stored action matches its digest, whether a
  tool is known and whether an action is authorized are answers from outside, chosen freely at each step.
- 32-bit words are 32 booleans, most significant first, so that division over GF(2) can be spoken of.
  Integers of 16, 32 and 64 bits wrap around explicitly.
- What the world does is a parameter: which writes of the disk fail and after how many bytes, what the audit,
  the tools and the provider do at each step, when the time is up, after which row a sweep dies, and what an
  attempt of the confirmer meets with. The contracts say what becomes of every case.
- Contacts are the positions of the listing, ordered by age; rows that refer to contacts, of whatever table
  and column, are one list of references. The groups, a Go map whose keys are sorted before
  use, are scanned in ascending order.
- Texts of the tool loop are bytes. JSON compaction is a parameter: any function that gives a line of text.
- The section of a goroutine between two lock operations is one step of the session; goroutines start at any
  time and in any number. Who needs the session first finds it in the table, which is a step of its own, and
  keeps it; flows, timeouts and cleanups have it from the start. `CallSession` has the sections as methods on
  fields, and runs them by any schedule.

Where the code does not do what one may expect of it, the model does what the code does. A lemma gives the
run or the input, and another the exact condition for all of them:

| finding | shown by | exactly when |
|---|---|---|
| an exhausted row whose action was carried out | `ExhaustedYetCarriedOut` | `LimitHoldsExactlyWhen`, `LimitOverRuns`, `FinishSaysExactlyWhen` |
| a row denied, or failed unsearched, whose action was carried out | `DeniedYetCarriedOut`, `FailedUnsearched` | `EndsExecutedExactlyWhen`, `ExistingTransferEndsExecutedExactlyWhen` |
| pages with more than 255 segments, and empty packets | `OversizePacketIsLost` | `PageReadsBack`, `StreamRoundTrip` |
| a failed write counts packets twice | `GranuleAccountsForPackets` | `GranuleAccountsForPackets` |
| one-way phone identities | `AlternateCanBeOneWay` | `AlternateIsInvolution`, `SpellingsAgreeExactlyWhen` |
| results that no call asked for | `OrphanResultsPass` | `ResultsAreAskedExactlyWhen` |
| a bridge that is not seeded at zero | `UnseededBridgeMayGoBack` | `HandoverAdvancesByTwo`, `MusicAdvancesByOneExactlyWhen` |
| an abandoned transfer that is connected | `AbandonedMayConnect` | `AbandonedConnectsExactlyWhen` |
| a bridge nobody stops | `BridgeMayOutliveTheSession` | `BridgeIsStoppedExactlyWhen` |
| a waiting flow nobody tells, the transfer's row not being found | `EndingUnread` | `EndingAlone`, `WaitingFlowIsTold` |
| a recording that nothing marks as ended | `Stop` | `FullPagesCount` |
| a recording that a write cut short made unreadable | `CutRecordingReadsAs` | `CutRecordingReadsAs` |

## Model

| member | source | states |
|---|---|---|
| `ConfirmationTheorems.EffectAtMostOnce` | internal/aitools/confirmer.go:151-283 | over every run of taps, declines, proposals, several reconcilers and crashes: a confirmation creates at most one transfer, and only if its history begins pending, confirmed by the contact itself; the transfer is that contact's and no older than the confirmation; no contact has two active transfers |
| `ConfirmationTheorems.ExecutionsDoNotOverlap` | internal/aitools/confirmer.go:236-283 | two processes never execute one confirmation at a time; an execution after a tap finds its row confirmed, one of a reconciler too unless the exhaustion sweep failed it |
| `ConfirmationTheorems.LifecycleOverRuns` | internal/aitools/confirmations.go:211-276 | every status history is a path of the lifecycle and ends in the status of the row; it only grows; a terminal row never changes again |
| `ConfirmationTheorems.OneWinner` | internal/aitools/confirmations.go:213-216 | every compare-and-set has one winner: a status that a row has left never comes back, so no second contender finds it |
| `ConfirmationTheorems.HistoryShape` | internal/aitools/confirmations.go:218-276 | a history is pending, then perhaps confirmed, then perhaps one terminal status |
| `ConfirmationTheorems.ClaimsAreApart` | internal/aitools/confirmations.go:308-315 | the claims of a row come more than minAge after its confirmation and after one another, the n-th more than n times minAge after it, and the counter counts them |
| `ConfirmationTheorems.ProposalsAreLimited` | internal/aitools/confirmations.go:118-159 | over every run, every interval as long as the window holds at most Limit proposals of a contact and tool, and at most one is pending, though clock readings commit in any order |
| `ConfirmationTimes.ProposalIsItsRow` | internal/aitools/confirmations.go:118-159 | in every run, at every later moment: the row of a proposal has its key, session and token, its time, and an end that is ttl after it |
| `ConfirmationTimes.RowWasProposed` | internal/aitools/confirmations.go:118-159 | every row of a run was proposed in it, and expires ttl after it was |
| `ConfirmationTimes.PauseAfterDecline` | internal/aitools/confirmations.go:128-138 | in every run: after a customer declined, by a tap, nothing of that key is proposed until cooldown has gone by, by the times that the refusal and the proposal carry |
| `ConfirmationTimes.ConfirmedInTime` | internal/aitools/confirmations.go:180-208 | in every run: a row that was ever confirmed was looked up before by a tap of its own button, of its contact, in its session; known, untampered, authorized, no refusal, and less than ttl after the proposal |
| `ConfirmationTheorems.OneTrueMessage` | internal/aitools/confirmer.go:308-382 | a customer gets at most one message about a confirmation, only when its row is closed, and what the message says about transfers is so |
| `ConfirmationTheorems.StepKeeps` | internal/aitools/confirmer.go:155-382 | every database statement and every crash keeps the whole invariant of the protocol |
| `ConfirmationTheorems.RunIsSafe` | internal/aitools/confirmer.go:155-382 | the invariant holds in every state of every run |
| `ConfirmationTheorems.StepGoesForward` | internal/aitools/confirmations.go:213-216 | one statement extends histories and claims, leaves closed rows alone, and takes back no message |
| `ConfirmationMessages.MessagesAnnounceTheStatus` | internal/aitools/confirmer.go:236-283 | the message a customer got announces the status of the row, at every later moment too, in every run; only a row failed for want of attempts may disagree, and FinishSaysExactlyWhen and LimitOverRuns say when it does not |
| `ConfirmationMessages.FinishSaysExactlyWhen` | internal/aitools/confirmer.go:271-282 | executeConfirmed answers without looking at who won Finish: the message says what the row says if and only if the row was still confirmed, or the message was that nothing could be done |
| `ConfirmationLimits.ClaimKeepsLimitExactlyWhen` | internal/aitools/confirmations.go:308-315 | a claim that is won keeps the limit on attempts if and only if it finds an attempt left, which the statement does not ask |
| `ConfirmationLimits.LimitHoldsExactlyWhen` | internal/aitools/confirmations.go:283-315 | for every run: no row is ever tried more often than allowed if and only if every claim that was won found an attempt left |
| `ConfirmationLimits.LimitOverRuns` | internal/aitools/confirmer.go:271-315 | in such a run every execution has its row confirmed to the end, no listed exhausted row is being executed, and every message says what its row says, without exception |
| `ConfirmationFindings.ExhaustedYetCarriedOut` | internal/aitools/confirmations.go:306-315 | a reachable state: ClaimReconcile does not look at the attempts again, so a row is failed as exhausted, with one attempt too many, while its transfer is made and the customer told it was created |
| `ConfirmationFindings.DeniedYetCarriedOut` | internal/aitools/confirmer.go:355-376 | a reachable state: the reconciler asks for authorization before it looks for the transfer, so a confirmation whose transfer exists ends as denied |
| `ConfirmationFindings.FailedUnsearched` | internal/aitools/confirmer.go:311-319 | a reachable state: a tap makes the transfer and dies, the only attempt dies after its claim, and the next sweep fails the row without a search, in time and with nothing refused |
| `ConfirmationOutcomes.WhoCloses` | internal/aitools/confirmer.go:308-382 | a confirmed row is closed only by the exhaustion sweep, which fails it and finds its attempts used up, by an attempt that concludes as it judged, or by an execution that records its outcome |
| `ConfirmationOutcomes.EndsExecutedExactlyWhen` | internal/aitools/confirmer.go:308-382 | in every run, whoever closes a confirmed row: it ends as executed if and only if an attempt concludes that was judged known, authorized, and in time, or an execution records that it created the transfer |
| `ConfirmationOutcomes.ExistingTransferEndsExecutedExactlyWhen` | internal/aitools/confirmer.go:308-382 | in every run: a confirmation whose transfer exists, and for which no execution is past its search, ends as executed if and only if an attempt closes it, not the exhaustion sweep, and that attempt was judged known, authorized, and in time; the sweep closes it only with its attempts used up |
| `ConfirmationRuns.ClaimableIsIdle` | internal/aitools/confirmations.go:306-315 | whoever may claim a row by its age finds nobody executing it |
| `ConfirmationRuns.InsertCreates` | internal/handlers/agent_transfers.go:1522-1557 | the insert behind the index on active transfers keeps every fact about other confirmations, and makes the one transfer of its own |
| `ConfirmationRuns.NoneWithoutSearch` | internal/handlers/ai_tool_confirmation.go:57-65 | the search by contact and time misses nothing that the confirmation itself made |
| `ConfirmationRuns.TapConfirms` | internal/aitools/confirmer.go:217-230 | the winner of the tap's compare-and-set alone goes on to execute |
| `ConfirmationRuns.TapShuts` | internal/aitools/confirmer.go:161-215 | a tap that is refused, declined, expired, or pointless closes the pending row it found, and only its winner answers |
| `ConfirmationRuns.FinishesKeeps` | internal/aitools/confirmer.go:271-275 | the outcome goes to the row only while that is confirmed, and the message follows in any case |
| `ConfirmationRuns.AppendKeepsOneActive` | internal/database/active_transfer_index.go:16-17 | the partial unique index: an insert that finds no active transfer of the contact leaves one at most |
| `ConfirmationFlows.RefusalAlone` | internal/aitools/confirmer.go:161-199 | a tap by itself that may not be followed closes the row by the first reason there is (unknown, expired, tampered, declined, not authorized), with that reason's status and message |
| `ConfirmationFlows.PointlessTapAlone` | internal/aitools/confirmer.go:200-215 | a good tap with a transfer active, or else out of hours, closes the row as not executed, with the message of that reason |
| `ConfirmationFlows.ConfirmingAlone` | internal/aitools/confirmer.go:217-230 | any other good tap confirms the row, at its time and by the contact, and is about to execute it |
| `ConfirmationFlows.ExecutingAlone` | internal/aitools/confirmer.go:236-283 | from there, with nothing in the way, statement after statement is possible, and the last leaves one more active transfer, made for this confirmation, an executed row, and a customer told that it was created |
| `ConfirmationFlows.AnswerAlone` | internal/aitools/confirmer.go:253-283 | whatever the outcome, it is recorded and told by its own status and message: created, active already, out of hours, or failed |
| `ConfirmationFlows.JudgingAlone` | internal/aitools/confirmer.go:338-367 | a reconciler by itself claims a row, reads it again, and judges it: unknown, too old, not authorized, or to be searched for, in this order |
| `ConfirmationFlows.FindingAlone` | internal/aitools/confirmer.go:369-382 | a transfer that exists already is not made again: the row is executed, and the customer told so |
| `Confirmations.ProposingKeepsLimit` | internal/aitools/confirmations.go:125-158 | an accepted proposal keeps the limit in every window, whatever the clock reading it carries |
| `Confirmations.ProposingKeepsOnePending` | internal/aitools/confirmations.go:152-158 | a new proposal supersedes what was pending for the contact and tool |
| `Confirmations.ConfirmationStore.Propose` | internal/aitools/confirmations.go:125-159 | refused exactly if one of the key was declined less than cooldown ago, or as many as the limit were proposed in the window; accepted it is pending until ttl has gone by, the pending ones of its key are superseded, and every other row is as it was |
| `Confirmations.ConfirmationStore.Transition` | internal/aitools/confirmations.go:213-216 | wins exactly if the row has the status it is to come from; then that row alone gets the new status, the time, and one more entry of its history |
| `Confirmations.ConfirmationStore.Confirm` | internal/aitools/confirmations.go:245-249 | wins exactly if the row is pending, and records when and by whom |
| `Confirmations.ConfirmationStore.ClaimReconcile` | internal/aitools/confirmations.go:308-315 | wins exactly if the row is confirmed and its last claim more than minAge ago; counts the attempt, whatever their number |
| `Confirmer.Confirmer.HandleTap` | internal/aitools/confirmer.go:155-231 | a tap whose token, session, contact or organization is another's, or on anything that is not pending, changes nothing and gets no answer; any other is handled as TapPending says |
| `Confirmer.Confirmer.TapPending` | internal/aitools/confirmer.go:161-230 | what a tap on a pending row leaves behind, question by question (known, in time, untampered, no refusal, authorized, none active, in hours): status, time, history, transfers and answer of each; otherwise the row is confirmed by the contact and executed |
| `Confirmer.Confirmer.ExecuteConfirmed` | internal/aitools/confirmer.go:236-283 | one transfer more, made for this confirmation, exactly if the audit could be written, the tool works, none is active and it is in hours, and otherwise none; the row is executed, and the customer told it was created, only with that transfer; a tool that fails ends it failed, an active transfer or closed hours not executed, each with its own answer; what cannot be recorded leaves the row as it was, without an answer |
| `Confirmer.Confirmer.ReconcileOne` | internal/aitools/confirmer.go:338-382 | the row ends by the order of the reconciler's questions (known, age, authorization, a transfer that exists), with the status and the answer of the one that ended it and no new transfer; past them it is an execution as above |
| `Confirmer.FateOfWhatExists` | internal/aitools/confirmer.go:355-376 | an attempt on a confirmation whose transfer exists closes it as executed if and only if the tool is known, the confirmation no older than its validity, and the action still authorized; ConfirmationOutcomes has the theorem for whoever closes it |
| `Confirmer.Confirmer.Reconcile` | internal/aitools/confirmer.go:308-336 | a sweep leaves no row worse off; unless it dies or a listing is full, 50 rows, every row confirmed and left alone for minAge is closed if its outcome could be recorded; whose action was carried out is told so, and nothing else is told; it dies only where it is made to |
| `Confirmer.Confirmer.FailExhausted` | internal/aitools/confirmer.go:311-319 | the first half of a sweep ends the rows it reports, which are exhausted and no others, as failed; unless it dies or its listing is full these are all that were exhausted |
| `Confirmer.Confirmer.RetryStuck` | internal/aitools/confirmer.go:321-334 | the second half of a sweep tries every stuck row unless it dies or its listing is full, and no other; those tried are closed if that could be recorded |
| `Confirmer.Confirmer.Retry` | internal/aitools/confirmer.go:327-334 | the claim of a row as it was listed is won and uses up an attempt; what becomes of that row is what ReconcileOne says, and no other row changes |
| `Confirmer.Oldest` | internal/aitools/confirmations.go:285-304 | a listing holds the oldest rows, in order, each once, up to the limit |
| `Confirmer.LessWork` | internal/aitools/confirmations.go:283-304 | rows better off make the remaining work strictly less |
| `Confirmer.SweepsEnd` | internal/aitools/confirmer.go:308-336 | sweeps that see an eligible row are no more than the attempts left plus one for each confirmed row, even if every attempt dies |
| `Confirmer.SweepsCloseEverything` | internal/aitools/confirmer.go:308-336 | sweeps each more than minAge after the last claim leave no row confirmed after as many of them as there are attempts left and confirmed rows, even if every attempt dies |
| `Confirmer.SweepsKeepAttempts` | internal/aitools/confirmations.go:285-304 | sweeps one after another never try a row more often than allowed |
| `OggCrc.PolyIsTheConstant` | internal/calling/recorder.go:18-18 | the generator polynomial of the proofs is the recorder's constant 0x04C11DB7 |
| `OggCrc.InitTable` | internal/calling/recorder.go:13-25 | every entry of the table is eight shift-and-subtract steps of its index |
| `OggCrc.OggCrc32` | internal/calling/recorder.go:264-270 | for every byte sequence the table-driven loop computes the bit-serial checksum, which is a remainder of the division |
| `OggCrc.CrcIsTheRemainder` | internal/calling/recorder.go:261-270 | a word is the remainder of the message, times x^32, on division by the generator over GF(2), if and only if it is the checksum |
| `OggCrc.TableStepFeeds` | internal/calling/recorder.go:267-267 | one step through the table is eight bits fed one by one |
| `OggPage.PageChecksumHolds` | internal/calling/recorder.go:201-204 | every page built carries the remainder of itself with the checksum field zeroed (section 6 of RFC 3533) |
| `OggPage.BuildPage` | internal/calling/recorder.go:240-252 | a page is the header, the segment table and the payload, with its checksum put in place |
| `OggPage.LaceAll` | internal/calling/recorder.go:162-180 | the lacing loop yields the segment table and the concatenated payload of the packets |
| `OggPage.TableCoversPayload` | internal/calling/recorder.go:162-180 | the segments of a page add up to its payload |
| `OggPage.FullPageFits` | internal/calling/recorder.go:196-196 | 48 packets of one size have a segment table that fits its count byte if and only if they have at most 1274 bytes |
| `OggPage.SmallPacketsFit` | internal/calling/recorder.go:48-48 | up to 48 packets of up to 1274 bytes always fit |
| `OggPage.PageReadsBack` | internal/calling/audio.go:186-217 | the reader gets back table, payload and rest of a written page if and only if it has at most 255 segments |
| `OggReader.SplitPage` | internal/calling/audio.go:228-255 | the loop over the segments cuts a payload as the recursive definition does |
| `OggReader.ReadOpusPackets` | internal/calling/audio.go:176-259 | the reader, with its three errors, on every byte sequence |
| `OggCut.NextPageDecides` | internal/calling/audio.go:180-217 | on any bytes: fewer than 27 end the reading; otherwise the signature, the segment table and the payload are looked at in this order, and the first that is wrong or cut decides the error |
| `OggReader.SplitUndoesLacing` | internal/calling/audio.go:225-255 | splitting a page gives its packets back, but for empty ones |
| `OggReader.NonEmptyKeepsAll` | internal/calling/audio.go:241-245 | nothing is dropped if and only if no packet was empty |
| `OggStream.StreamReadsBack` | internal/calling/audio.go:176-259 | a finished file whose pages have at most 255 segments reads back as exactly the non-empty packets, in order |
| `OggStream.StreamRoundTrip` | internal/calling/audio.go:176-259 | every packet written is read back if and only if none was empty |
| `OggCut.RecordingBefore` | internal/calling/audio.go:176-259 | a recording followed by anything reads as its packets and then as what follows does |
| `OggCut.CutRecordingReadsAs` | internal/calling/recorder.go:206-217 | a recording whose last write was cut short reads as the packets of the pages before if fewer than 27 bytes of it were written, and cannot be read at all if there are more, short of the whole page |
| `OggStream.ChecksumsHold` | internal/calling/recorder.go:201-204 | every page of a file has a valid checksum |
| `OggStream.PageFields` | internal/calling/recorder.go:173-196 | of every data page: "OggS", version 0 and stream 0; numbers are consecutive from 2, granule positions are 960 for each packet so far, and only the last page of an ended stream ends it (section 6 of RFC 3533, section 4 of RFC 7845) |
| `OggStream.HeaderPageFields` | internal/calling/recorder.go:220-256 | of the two pages before them: numbers 0 and 1, granule position 0, and the first begins the stream |
| `OggStream.OversizeGroupIsLost` | internal/calling/recorder.go:196-196 | a page of 256 segments counts none, and the file cannot be read |
| `OggStream.OversizePacketIsLost` | internal/calling/recorder.go:196-196 | one packet of 65025 bytes is enough for that |
| `CallRecorder.CallRecorder.Open` | internal/calling/recorder.go:54-73 | a recorder is opened with its two header pages written, or not at all if one of them fails |
| `CallRecorder.CallRecorder.WritePacket` | internal/calling/recorder.go:76-93 | a packet is buffered, the 48th makes the buffer a page, and a stopped recorder ignores it |
| `CallRecorder.CallRecorder.FlushPage` | internal/calling/recorder.go:157-217 | the buffer becomes one page, whose granule position is 960 for each packet further, and which ends the stream if it is the last; a failed write keeps the buffer, remembers the failure, and leaves as much of the page as was written |
| `CallRecorder.CallRecorder.Stop` | internal/calling/recorder.go:98-114 | after Stop without a failed write the file holds all packets, 48 a page, and reads back as the non-empty ones, as all of them if and only if none was empty; a page ends the stream if and only if the number of packets is no multiple of 48 |
| `CallRecorder.Recording.GranuleAccountsForPackets` | internal/calling/recorder.go:173-174 | granule position and buffered packets account for the packet count modulo 2^64 if and only if the packets counted twice by failed writes are a multiple of 2^64 samples, so always without a failure |
| `CallRecorder.FinishedReadsBack` | internal/calling/recorder.go:98-114 | the round trip for every finished recording with pages of at most 48 packets |
| `CallRecorder.FullPagesCount` | internal/calling/recorder.go:83-107 | the number of pages, and whether one ends the stream, by the number of packets |
| `CallRecorder.OpusHead` | internal/calling/recorder.go:126-135 | the identification header, field by field (section 5.1 of RFC 7845) |
| `CallRecorder.OpusTags` | internal/calling/recorder.go:141-147 | the comment header, field by field (section 5.2 of RFC 7845) |
| `PhoneIdentity.NormalizePhone` | internal/contactutil/contactutil.go:17-26 | the result is the digits of the number, found at ascending places, and at no other place is a digit |
| `PhoneIdentity.DigitsOfBoth` | internal/contactutil/contactutil.go:17-26 | the digits of two strings one after the other are those of the first and then those of the second |
| `PhoneIdentity.CanonicalIs` | internal/contactutil/contactutil.go:68-74 | a number gets the country code 55 if and only if it has 10 digits, or 11 with a 9 after the area code, does not begin with 55, and its area code is one of those listed |
| `PhoneIdentity.AreaCodesAre` | internal/contactutil/contactutil.go:76-76 | the area codes, one by one |
| `PhoneIdentity.IdentityKeepsSubscriber` | internal/contactutil/contactutil.go:42-99 | every identity of a number has its area code and its last eight digits, so numbers that differ in them never share one |
| `PhoneIdentity.CanonicalIdempotent` | internal/contactutil/contactutil.go:68-74 | a canonical number is its own canonical number |
| `PhoneIdentity.IdentitiesIgnoreFormat` | internal/contactutil/contactutil.go:42-57 | numbers with the same digits have the same identities |
| `PhoneIdentity.AlternateIsInvolution` | internal/contactutil/contactutil.go:81-99 | the other form of a mobile number leads back to it if and only if it has 12 digits or the digit after its ninth is 6 to 9 |
| `PhoneIdentity.AlternateCanBeOneWay` | internal/contactutil/contactutil.go:86-96 | outside that range the shorter form has no other form |
| `PhoneIdentity.SpellingsAgreeExactlyWhen` | internal/contactutil/contactutil.go:42-99 | the four spellings of a full mobile number have the same identities if and only if its area code is listed and not 55, and the digit after its ninth is 6 to 9 |
| `UnionFind.Find` | internal/contactutil/merge.go:39-45 | path halving returns the root and changes no root; it ends because parents are never larger |
| `UnionFind.HalvingKeepsRoot` | internal/contactutil/merge.go:41-41 | halving one path keeps the forest and all roots |
| `UnionFind.UnionMovesTree` | internal/contactutil/merge.go:50-57 | hanging a younger root under an older one moves its tree and nothing else |
| `UnionFind.Join` | internal/contactutil/merge.go:50-57 | two linked contacts get one root, and nobody who had one root loses it |
| `UnionFind.AddIdentity` | internal/contactutil/merge.go:48-61 | the owner index: after each identity, all contacts that have shown it so far are joined |
| `UnionFind.Unite` | internal/contactutil/merge.go:34-62 | two contacts have the same root if and only if a chain of shared identities links them |
| `ContactMerge.Gather` | internal/contactutil/merge.go:63-67 | the groups partition the contacts by root, each from oldest to youngest |
| `ContactMerge.MergeRoots` | internal/contactutil/merge.go:68-74 | the roots of the groups with something to fold, ascending |
| `ContactMerge.RootIsFirst` | internal/contactutil/merge.go:90-92 | the first member of a group is its root |
| `ContactMerge.Repoint` | internal/contactutil/merge.go:113-122 | rows of folded contacts, and no others, are pointed at the survivor, and counted |
| `ContactMerge.MergeDuplicateContacts` | internal/contactutil/merge.go:27-152 | which groups are folded and which skipped, what the report counts, what every contact has become (retired and deleted, updated, or untouched), and where every child row ends up; nothing is written without apply |
| `ContactMerge.UpdateSurvivor` | internal/contactutil/merge.go:129-149 | the loop over the duplicates leaves the survivor with its canonical number and with the first profile name and the first agent that any member has |
| `ContactMerge.FirstIs` | internal/contactutil/merge.go:134-143 | what the survivor takes over is its own if it has one, else that of the oldest duplicate that has, and nothing if none has |
| `ContactMerge.NumbersStayDifferent` | internal/contactutil/merge.go:123-132 | whichever groups are folded, no two contacts that are not deleted come to have one number, though every survivor's is rewritten |
| `ContactMerge.SurvivorIsOldest` | internal/contactutil/merge.go:90-96 | the survivor is linked to every contact of its class and older than all of them |
| `ContactMerge.MergedAreOneSubscriber` | internal/contactutil/merge.go:34-62 | contacts that are folded, over however long a chain, have one area code and the same last eight digits |
| `ContactMerge.SurvivorHasTheOldestKnown` | internal/contactutil/merge.go:129-149 | after the merge the survivor has the profile name and the agent of the oldest contact of its class that has one, and none only if none had; its number is its own canonical one |
| `ContactMerge.NoRowIsLost` | internal/contactutil/merge.go:113-122 | no row is left on a folded contact, and none leaves its class |
| `ContactMerge.CanonicalNumberIsFree` | internal/contactutil/merge.go:129-132 | a contact stored under the survivor's canonical number is of its own class |
| `ContactMerge.RetiredNumbersStayOut` | internal/contactutil/merge.go:123-128 | a number tagged as merged is no one's canonical number |
| `Utf8.CutIsValid` | internal/ai/toolloop.go:254-256 | a valid text may be cut where a character may begin, and nowhere else (section 4 of RFC 3629) |
| `Utf8.TruncateUtf8` | internal/ai/toolloop.go:245-258 | unchanged if short enough, else a prefix cut at the last boundary, trimmed, and marked by " …[truncated]"; valid text stays valid; within the limit if and only if it was or the limit is at least 15 |
| `Utf8.TruncationKeepsAlmostAll` | internal/ai/toolloop.go:250-257 | at most three bytes are lost to a character that did not fit, and then only trailing spaces |
| `Utf8.BoundaryIsNear` | internal/ai/toolloop.go:254-256 | the backward search ends after three bytes at most |
| `Conversation.ValidateTools` | internal/ai/tools.go:86-98 | accepts exactly valid definitions with different names |
| `Conversation.ValidToolsAre` | internal/ai/tools.go:73-98 | valid definitions are those with an object of parameters and a name of 1 to 64 letters, digits, underscores and hyphens, no two alike |
| `Conversation.Wanted` | internal/ai/tools.go:137-143 | accepts exactly calls with names and unique ids, and collects those ids |
| `Conversation.ValidateResults` | internal/ai/tools.go:137-153 | accepts exactly one result for each call, in any order, and no other |
| `Conversation.AnswersAre` | internal/ai/tools.go:137-153 | that is: names, ids all different and not empty, as many results as calls, and one for each id |
| `Conversation.ValidateConversation` | internal/ai/tools.go:120-159 | accepts exactly the well-formed conversations, as declared without loops |
| `Conversation.WellFormedIs` | internal/ai/tools.go:120-159 | calls come from the assistant only, results in tool messages only, and calls are answered by the next message |
| `Conversation.CheckToolRequest` | internal/ai/tools.go:162-168 | both checks together |
| `Conversation.RoundKeepsWellFormed` | internal/ai/tools.go:120-159 | a round appended keeps a conversation well formed if and only if its results answer its calls |
| `Conversation.OrphanResultsPass` | internal/ai/tools.go:124-133 | results that no call asked for are accepted in a message of their own |
| `Conversation.ResultsAreAskedExactlyWhen` | internal/ai/tools.go:120-159 | in an accepted conversation every result answers a call of the message before it if and only if every tool message directly follows a message with calls |
| `Flatten.ValuesStayInside` | internal/ai/toolflatten.go:22-30 | every value stays on its line, and a reader of the string finds its end where it was put, so it cannot fake what follows |
| `Flatten.FlattenToolInteractions` | internal/ai/toolflatten.go:37-70 | nothing without a call, else one assistant message with the records and one fixed user message |
| `Flatten.BlockReadsBack` | internal/ai/toolflatten.go:37-70 | cut at its line breaks the block is its header and one line for every record |
| `FlattenReader.ValueReadsBackExactlyWhen` | internal/ai/toolflatten.go:22-30 | a reader of JSON strings (section 7 of RFC 8259) gets a value back as it was if and only if it was UTF-8 |
| `FlattenReader.ResultReadsBack` | internal/ai/toolflatten.go:57-60 | the record of a result decodes to its call's id, its name, whether it is an error, and its content |
| `FlattenReader.CallReadsBack` | internal/ai/toolflatten.go:45-55 | the record of a call decodes to its number, name, id, and arguments |
| `FlattenReader.BlockReadsAs` | internal/ai/toolflatten.go:37-70 | the whole block decodes, line by line, to every text, call and result of the rounds, in order, and to nothing else, whatever the values contain |
| `FlattenReader.CallsAreNumbered` | internal/ai/toolflatten.go:45-55 | the calls in the block are numbered from one, in order, across all messages |
| `Governance.Resolver.Definitions` | internal/aitools/resolver.go:128-136 | the definitions of the available tools, in the order of the catalog |
| `Governance.OfferedIsValid` | internal/aitools/resolver.go:126-136 | what is offered passes the adapters' check, and a tool is offered exactly if it is available |
| `Governance.Resolver.Begin` | internal/aitools/resolver.go:212-221 | one step and at most one row for a call; "requested" is on record before anything else happens, exactly if it can be written, and else a denial |
| `Governance.Resolver.Carry` | internal/aitools/resolver.go:223-238 | a tool is built and run only for a step on record as requested, by the factory of its risk, and asked with the call as it was handed on; the model hears the tool's own answer, or that it failed, and the outcome replaces "requested" if it can be written |
| `Governance.Resolver.Execute` | internal/aitools/resolver.go:204-239 | all that a call leaves behind and what it is told, in the order of the questions: the policy, the confirmations for a write tool, the audit; then the step is written, the tool built, run or asked for a proposal, its answer returned and the outcome recorded |
| `Governance.CarriedSays` | internal/aitools/resolver.go:204-271 | a tool is touched only for a row that is no denial; an executed row's tool has answered, and that answer is what the model heard; whatever it hears but a refusal is such an answer |
| `Governance.Resolver.ExecuteWrite` | internal/aitools/resolver.go:245-271 | a write tool is never run: a proposal is asked of it at most; without a confirmation store nothing is built |
| `Governance.Resolver.Reject` | internal/aitools/resolver.go:185-196 | arguments too large: one step, a denial if it can be written, with the policy's reason first, and nothing built |
| `Governance.Resolver.RecordAborted` | internal/aitools/resolver.go:149-155 | the calls of a refused round take a step each and leave no event |
| `Governance.EventKeeps` | internal/aitools/resolver.go:214-225 | an event is allowed only after its step was written |
| `Governance.NoWriteIsCarriedOut` | internal/aitools/resolver.go:204-271 | by the catalog: every call that was run belongs to an available tool for reading, every proposal to one for writing, each with the call of its own step; what tools saw has no transport state if what the loop handed on had none |
| `ToolLoop.RunCalls` | internal/ai/toolloop.go:180-193 | every call of a round gets one result, the tool's own cut to the size limit, in order; what is handed on, call by call, is the calls without transport state |
| `ToolLoop.RunOne` | internal/ai/toolloop.go:195-223 | one step of the audit for every call that is handled: an error and a denial for too large arguments, and otherwise what Execute says; without a resolver an error |
| `ToolLoop.RunToolLoop` | internal/ai/toolloop.go:100-176 | for every provider, resolver and deadline: the requests, rounds, results and ending of a run, a result that reports exactly them; over all rounds every result is the tool's own, cut to the limit, or without a resolver an error; the answers are the provider's; a run is cancelled at the first request or call for which it is too late, and at no other; no call handed on carries transport state |
| `ToolLoop.WithDefaults` | internal/ai/toolloop.go:57-78 | limits that are positive are kept, and the others take the defaults |
| `ToolLoopTheorems.RequestIsValid` | internal/ai/toolloop.go:136-169 | a request passes the adapters' check if and only if the conversation did at first and, unless it is the last in plain text, the calls answered so far had names and unique ids |
| `ToolLoopTheorems.RequestShows` | internal/ai/toolloop.go:146-169 | the k-th request is the conversation and then, for each round so far, the provider's answer as it was and the results it got, with the tools on offer |
| `ToolLoopTheorems.ExchangeIsWellFormed` | internal/ai/toolloop.go:153-157 | the same for the conversation with any number of rounds appended |
| `ToolLoopTheorems.FlattenedIsWellFormed` | internal/ai/toolloop.go:165-167 | the flattened exchange keeps any conversation as well formed as it was |
| `ToolLoopTheorems.RunIsBounded` | internal/ai/toolloop.go:136-175 | at most MaxSteps + 1 requests and MaxToolCalls calls; a round over a limit runs nothing; the requests of the steps offer the tools, and the one after them none |
| `ToolLoopTheorems.ResultHasNoOpaque` | internal/ai/toolloop.go:125-132 | no transport state in the result |
| `ToolLoopTheorems.ResultShows` | internal/ai/toolloop.go:110-132 | what is reported of every answer and every round, with nothing taken out but transport state |
| `ToolLoopTheorems.TotalsAddUp` | internal/ai/toolloop.go:115-132 | tokens and calls add up, answer by answer |
| `ToolLoopTheorems.FlattenedHasNoOpaque` | internal/ai/toolflatten.go:32-36 | transport state makes no difference to the plain text |
| `ToolLoopTheorems.CompleteWithTools` | internal/handlers/ai_runtime.go:126-146 | unless the time was up, the steps taken are the calls that the provider asked for, with at most one row each; nothing of a tool was built before its row said requested, no tool for writing was run, and no tool was given transport state; an answer is returned exactly if the run finished; it is cancelled only if the time was up by then, and fails only if the provider did |
| `Rtp.AudioPlayer.Play` | internal/calling/audio.go:69-93 | consecutive numbers, 960 samples apart, around the circle |
| `Rtp.AudioPlayer.SetSequence` | internal/calling/audio.go:35-38 | the next packet follows the given one |
| `Rtp.PlayedNumbers` | internal/calling/audio.go:69-93 | hold music: one number and 960 samples for each packet, modulo 2^16 and 2^32 |
| `Rtp.AudioBridge.Forward` | internal/calling/bridge.go:152-217 | every packet rewritten relative to the agent's first, or unchanged without a seed; the last numbers are kept |
| `Rtp.BridgedNumbers` | internal/calling/bridge.go:168-217 | a seeded bridge begins one number and 960 samples after its seed and keeps the agent's distances |
| `Rtp.NextNumbers` | internal/calling/transfer.go:286-297 | the next player begins one number and 960 samples after the agent's last packet, or at zero if that had number zero or there was none |
| `Rtp.RunCall` | internal/calling/transfer.go:286-297 | the manager's handovers produce the stream that is reasoned about |
| `Rtp.GapsAreKept` | internal/calling/bridge.go:176-180 | bridged packets keep the agent's exact gaps modulo 2^16 and 2^32 |
| `Rtp.HandoverAdvancesByTwo` | internal/calling/transfer.go:637-639 | the first packet of every agent comes two after the music if and only if the player's next number is not zero |
| `Rtp.MusicAdvancesByOneExactlyWhen` | internal/calling/transfer.go:286-297 | after an agent the music goes on by one if and only if the agent's last number, as the caller heard it, is not zero |
| `Rtp.MusicGoesOn` | internal/calling/audio.go:35-43 | music continues the stream by one, in numbers and frames |
| `Rtp.AgentGoesOn` | internal/calling/bridge.go:179-183 | an agent continues it by two, and in order if the agent was in order |
| `Rtp.CallIsOneStream` | internal/calling/bridge.go:147-217 | over any alternation of music and agents, with handover numbers other than zero and every agent heard, the caller gets one strictly increasing stream (serial order of section 3 of RFC 1982) |
| `Rtp.UnseededBridgeMayGoBack` | internal/calling/transfer.go:637-639 | with a handover number of zero the bridge is not seeded, and the caller may be sent a number from before |
| `Assignment.FilterAvailable` | internal/assignment/assigner.go:151-175 | the members that are eligible and not excluded, in order |
| `Assignment.Lowest` | internal/assignment/assigner.go:130-146 | the first of those with the fewest items, or nobody if nobody is available |
| `Assignment.Assigner.AssignRoundRobin` | internal/assignment/assigner.go:76-119 | the available member of the team who comes first is picked and stamped: whoever was never assigned, else the longest ago, and of two the smaller id; nobody if there is none |
| `Assignment.Assigner.AssignToTeam` | internal/assignment/assigner.go:38-54 | only an eligible, unexcluded member is assigned, nobody for a manual team, and otherwise somebody if one is there; by load it is the first of those with the fewest |
| `Assignment.NobodyIsPassedOver` | internal/assignment/assigner.go:90-106 | between two picks of an agent everyone else available at the second was picked |
| `Assignment.PicksAreApart` | internal/assignment/assigner.go:90-106 | two picks of an agent are at least as far apart as there are agents available |
| `Assignment.RoundIsAPermutation` | internal/assignment/assigner.go:90-106 | with a fixed set of n agents available, any n picks in a row go to each of them once |
| `Rotation.RunTransferRotation` | internal/calling/transfer.go:869-1044 | for any changes of eligibility: turns are taken while the customer waits and there is time, each by someone eligible and not tried before, rung if free; they stop only for a reason; in the broadcast everybody left who is eligible and free is told, and nobody else; how it ends, in every case |
| `Rotation.TakeTurns` | internal/calling/transfer.go:878-978 | the turns: none after an agent accepted or the time is up, and nobody is left only if nobody untried is eligible |
| `Rotation.Broadcast` | internal/calling/transfer.go:980-1044 | those left and free are told, all of them; if there are none, all are busy and there is no answer |
| `Rotation.TryingLeavesFewer` | internal/calling/transfer.go:878-884 | every turn of the rotation has fewer left to try |
| `Session.SessionIsLinear` | internal/calling/transfer.go:801-804 | over every interleaving: a channel that a flow waits on gets one outcome at most, a bridge is stopped once at most, and a waiting transfer is claimed by an agent or by the timeout, not both |
| `Session.OutcomeIsTheFirst` | internal/calling/transfer.go:1171-1177 | whoever sends or closes is alone with a channel that has had no outcome |
| `Session.StepKeeps` | internal/calling/session.go:344-410 | every locked section keeps all of that |
| `Session.PoolKeeps` | internal/calling/transfer.go:721-730 | taking from the session under the lock and clearing it there is what makes use unique |
| `Session.AbandonedMayConnect` | internal/calling/transfer.go:1126-1160 | a reachable state: a hangup looks and writes in two sections, and an abandoned transfer is then written connected |
| `Session.AbandonedConnectsExactlyWhen` | internal/calling/transfer.go:1126-1160 | from any state: an abandoned session is connected in some continuation without a new wait if and only if some goroutine has accepted and not yet written that it is connected |
| `Session.SettledForGood` | internal/calling/transfer.go:1126-1160 | a session that neither waits nor is connected, with nobody about to write so, stays like that however the goroutines go on, until it is made to wait again |
| `Session.BridgeMayOutliveTheSession` | internal/calling/transfer.go:633-633 | a reachable state: the bridge is set on a session that has been removed, and in no continuation does anybody stop it |
| `Session.BridgeIsStoppedExactlyWhen` | internal/calling/session.go:344-440 | a bridge on a session that was removed is stopped in some continuation if and only if a goroutine that found the session before its removal has yet to take the bridge |
| `SessionFlows.EndingAlone` | internal/calling/transfer.go:702-819 | whoever finds a transfer that is not completed can run its sections one after another, and the last leaves it completed, its bridge stopped once, and the waiting flow told once |
| `SessionFlows.EndingUnread` | internal/calling/transfer.go:763-768 | unless the transfer's row is not found: then nobody is told, the channel stays, and nobody is on the way to take it |
| `SessionFlows.NoAnswerAlone` | internal/calling/transfer.go:1062-1121 | a transfer nobody accepted in time ends as not answered, and the waiting flow is told |
| `SessionFlows.HangupAlone` | internal/calling/transfer.go:1125-1182 | a caller who hangs up while it waits abandons it, and the waiting flow is told |
| `SessionFlows.CleanUpAlone` | internal/calling/session.go:340-440 | a session that does not wait leaves the table, its channel is closed and its bridge stopped |
| `SessionFlows.AcceptingAlone` | internal/calling/transfer.go:448-660 | an agent who finds a waiting transfer claims it alone and is connected by a bridge of its own |
| `SessionFlows.HoldingAlone` | internal/calling/transfer.go:1326-1354 | a call put on hold loses its bridge, which is stopped |
| `SessionFlows.MovingAlone` | internal/calling/transfer.go:242-300 | a call that is handed on waits again, under another transfer's id, and its bridge is stopped |
| `SessionFlows.WaitingFlowIsTold` | internal/calling/transfer.go:800-819 | over every interleaving: a flow whose channel was in the field when the transfer was ended, not answered, abandoned, or its session removed, has been told, once, by the time that no goroutine is left, unless another flow replaced its channel or the row of an ended transfer was not found |
| `SessionFlows.TakenBridgeIsStopped` | internal/calling/transfer.go:721-749 | over every interleaving: a bridge taken by whoever ends, hands on, holds or removes has been stopped, once, by the time that no goroutine is left |
| `SessionFlows.WindsDown` | internal/calling/transfer.go:702-824 | from every state the goroutines can all come to an end, each by its own sections, with no other coming |
| `SessionFlows.OwedStays` | internal/calling/transfer.go:800-804 | one section keeps the debt to a waiting flow: it has been told, or somebody has its channel, or it is in the field and somebody is on the way to take it |
| `CallSession.CallSession.RunSchedule` | internal/calling/transfer.go:1062-1182 | the methods, run by any schedule of goroutines, end in the state of the protocol after that schedule; no channel got a second outcome, no bridge was stopped twice, and no wait was claimed twice; and once no goroutine is left every flow that was owed an outcome has had it, and every bridge that was taken was stopped |
| `CallSession.SchedulesAreTheRuns` | internal/calling/transfer.go:1062-1182 | the states that schedules of the methods reach are exactly those of the runs, so every theorem about runs is one about the fields |
| `CallSession.CallSession.Perform` | internal/calling/transfer.go:448-826 | the section that any goroutine runs is the step of the protocol it stands for |
| `CallSession.CallSession.ClaimForAgent` | internal/calling/transfer.go:456-471 | claims the transfer if it is waiting, and goes away otherwise |
| `CallSession.CallSession.EndTransfer` | internal/calling/transfer.go:710-730 | completes what is not completed and takes the bridge in the same section |
| `CallSession.CallSession.LeaveTable` | internal/calling/session.go:345-364 | a waiting transfer is hung up first; else the session leaves the table, once |
| `CallSession.CallSession.TakeEverything` | internal/calling/session.go:366-405 | takes bridge and channel in one section |
| `CallSession.CallSession.InitiateAgentTransfer` | internal/calling/transfer.go:242-276 | unless it waits already, the session is put back to waiting without a transfer's id, and its bridge taken, in one section |
| `CallSession.CallSession.HoldCall` | internal/calling/transfer.go:1326-1354 | takes the bridge if there is one |

## Left out

- Confirmations: the fields that only report (outcomes, reasons, audit rows of the confirmer), the message ids of taps, and tools other than the transfer to the queue.
- Transfers of contacts are closed but never deleted, and a closed one is not opened again.
- Execution time: a process that is slower than the minimum age and yet alive is outside the assumption, and two executions could then overlap.
- ConfirmationProtocol.Apply: the 50-row limit and the order of listings are in `Confirmer` only; in the protocol a reconciler lists any rows that qualify.
- Recordings: two goroutines writing to one recorder are serialized by its lock, so the model has one; temporary files, their paths, uploads and timing are left out.
- Contacts: the tables that refer to contacts are one list of references; which constraint a refused group hits is left open.
- PhoneIdentity.SpellingsAgreeExactlyWhen: the spellings with a leading plus sign, which the lookup adds to each identity, are not part of it.
- The tool loop: durations, error texts and kinds, the log, and the contents of definitions beyond name and schema check. A resolver other than the governed one is not modelled; what a tool returns is arbitrary.
- Governance.Resolver.Execute: the policy behind availability is a fixed set during a run, and a failed write to the audit is taken to have written nothing.
- Rtp.CallIsOneStream: resuming a held call, which does not seed its bridge, is outside the claim, and so are legs in which no agent packet is heard.
- Assignment.RoundIsAPermutation: assignment times are assumed to increase strictly; two assignments in one clock tick are outside it.
- Session: agent connections, players, timers and recorders; which transfer a session has, of which the model keeps only that it has one; what refuses a hold or a reassignment before its section (eligibility, tracks, music already playing); a channel that a flow replaced before anyone took it is never told.
- HTTP handlers, permissions, WebSocket events, webhooks, cryptography, WebRTC, storage and the caches: plumbing over libraries that cannot be seen from here.
