# A verified model of the libdvb Common Interface stack

This project models the host side of the DVB Common Interface (EN 50221) as libdvb
implements it, together with the SEC/DiSEqC sequence language and the Unicable
messages of its frontend part, and proves what the stack promises about itself.

The layers keep the program's structure. Objects that change state are classes with
the same fields: the transport (`CiTransport`), the resources, the session layer
(`CiSession`), the CA_PMT pacer (`CaPmtPacer`), the controller (`CiController`), the
APDU iterator and the SEC text parser. Codecs are functions. Every class is proved
against values: `World` is the session layer as one value (session table, resource
tables, transport slots, logs, reports), `ControllerState.State` is the controller.

- The link is an oracle. A write is accepted, refused for the moment, fails, or is cut
  short; a read gives nothing, any frame, or fails; slot flags and the global reset
  answer anything. Nothing is assumed about the order of these outcomes.
- The link keeps a ghost record of every frame it was offered, with its answer, of every
  frame it delivered, of the reads that found nothing, of the slot flags it gave and of
  every reset; only the calls to the device can add to it. Each slot carries a ghost log
  since it was last dropped: what was handed to the transport, the link traffic, whether
  every write so far was unambiguous (`intact`) and whether a write that was cut short
  has been passed off as malformed data (`swallowed`). Only the place where the session
  layer does that sets the second flag, and only together with the report. What the log
  says was written is what the record says was accepted (`OnRecord`).
- An ideal module (`Wire`, `Cam`) puts the link frames together, reads what they say
  and obeys CA_PMT list management strictly; any misuse confuses it for good.
- Time is one unbounded clock that a tick never turns back.

`CiController.Valid` and `CiSession.Valid` are what holds between any two public calls.
The lemmas beside them say it in plain terms; `Deadlines` and `Dispatching` lift the
contracts of the calls to whole runs.

## Model

| member | source | states |
|---|---|---|
| Controller.CiController.ModuleHoldsDesired | src/ca/resource/conditional_access.rs:60-220 | In every state between calls, for every CA session: from the frames the link accepted for the slot since its last connection was given up the ideal module has understood a legal prefix of what was said, the session's selection is the desired programs with a descriptor for the confirmed CAIDs, and with nothing queued the list the module built is exactly that. The one exception is a slot on which a short write was passed off as malformed data, and there a data error was reported since its last connection was given up |
| Controller.CiController.WireInOrder | src/ca/transport.rs:197-274 | For every slot, with the same reported exception: the frames that the link's own record shows as accepted for it since its last connection was given up are a legal prefix of the commands and SPDUs handed over, in order, no fragment chain is interrupted, a read lies between any two writes, and with an empty queue everything arrived |
| Controller.CiController.NothingLost | src/ca/controller.rs:665-696 | The registry with the waiting queue applied equals applying every change ever pushed, across coalescing, gate resets and failed sends |
| Controller.CiController.SlotInvariant | src/ca/controller.rs:440-601 | Absent exactly when not present; only active slots have sessions; slots without a connection are idle and untimed; exactly one timer runs while a connection is created; the CAM status is Ready, AppInfoOnly, CaInfoOnly or NoInfo exactly by activity and live information (with the same reported exception); while the link is suspended the gate is closed, every module has failed and waits for exactly the recovery time, and if there is one its flags count as unread; the reported changes replay to the current statuses |
| Controller.CiController.ReleasesPaced | src/ca/controller.rs:664-675 | Two released changes are more than the interval in force at the later one apart; after a recovery or reset closed the gate the next one needs a later handshake and more than its hold and two intervals |
| Controller.CiController.NoResetStorm | src/ca/controller.rs:1007-1053 | Consecutive automatic resets are at least the retry interval apart, each after a successful one; after a failed one the link stays suspended |
| Controller.CiController.Tick | src/ca/controller.rs:551-605 | Keeps the invariant. A failure put off is made up for by one reset; a suspended link before its recovery time is left alone; otherwise either the flags of every slot are read when it is time, every slot's status follows from what it was and the flags read, and nothing is reset, or the link is given up with one reset. If the gate is open, more than an interval after its stamp, and a change waits, exactly the head of the queue is let out and applied, unless the link is given up; in any other case none is, and a gate that is due opens. Every connection attempt and outstanding command is in time afterwards and none had its deadline put off; nothing is read from the link; all logs only grow |
| Controller.CiController.PollEvent | src/ca/controller.rs:489-547 | Keeps the invariant, hands out the oldest event, reads at most `readable` frames and, while the link is in use, returns without an event only when a read found nothing or all of them were read; a slot that was and stays active and that owed a TT_RCV or announced data in some frame has had one issued or still owes it; the gate is armed exactly by the handshakes the application is told of, at the last tick and with the hold after application information; unless the link is given up nothing changes on slots for which the link delivered no frame; a failed receive suspends or defers, with at most one reset |
| Controller.CiController.PollFrame | src/ca/controller.rs:497-545 | One frame: a slot creating its connection becomes active exactly if the frame is the reply by the grammar; on a slot that is active after it, TT_RCV is issued or owed if it was owed before or the status byte of the frame has DATA_INDICATOR set, and not owed when no data was announced; what is outstanding is timed anew, an idle slot is not timed; the flags of other slots and their logs are as they were |
| Controller.CiController.Reset | src/ca/controller.rs:444-479 | Every slot is dropped and the gate closed; the device was reset once; on success every module restarts from Present, on failure it is lost, reported as such, and the link suspended without a retry |
| Controller.CiController.RecoverAll | src/ca/controller.rs:1007-1068 | The failed slot, or every module, is reported with the reason; the device is reset once, every slot is dropped, the gate closes, and the retry is due after the interval exactly if the reset worked; otherwise every module is reported lost |
| Controller.CiController.ApplySlotInfo | src/ca/controller.rs:764-812 | Every field of the slot is what its flags lead to: a removed, unusable or no longer ready module is grounded without a connection, and reported if unusable; otherwise the connection and its traffic stay as they are |
| Controller.CiController.DriveSlot | src/ca/controller.rs:814-901 | Hands over exactly the TPDU the slot's state asks for (TT_CREATE_TC when ready and due, TT_RCV before a poll, the poll when due, otherwise nothing), and the link is tried with it unless something is in flight; a failure is named exactly by the deadline outlived; a slot that does not fail is in order, in time, touched only in its own traffic, and keeps the start of whatever is pending |
| Controller.CiController.CollectSessionEvents | src/ca/controller.rs:903-1005 | Slots, relayed events and gate after hearing a list of reports, one by one: activation only while connecting, derived status changes before their cause |
| Controller.CiController.ReportsReachLog | src/ca/controller.rs:903-1005 | Between calls every report of the session layer is in the application's log: sessions, MMI dialogues and host requests unchanged, in order and once, and each of the others, be it only as malformed data |
| Controller.CiController.EnterMenu | src/ca/controller.rs:394-398 | Refused without effect on an inactive slot; otherwise one enter_menu object is handed over on an active application information session and neither a deadline of any slot nor the gate moves, or the link is recovered by one reset, the slot reported as the one that failed and the gate closed |
| Deadlines.ActiveSlotIsRecovered | src/ca/controller.rs:861-877 | Over any run of ticks, polls, commands and resets: a slot that stays active and busy or queued, and for which the link delivers no frame, is not active after the first tick at or after the response timeout from the first tick that saw it |
| Deadlines.CreatingSlotIsRecovered | src/ca/controller.rs:844-860 | Over any run: no tick leaves a slot creating its connection past the deadline counted from when TT_CREATE_TC got out, nor past the response timeout while it has not |
| Dispatching.ChangeLeavesInTime | src/ca/controller.rs:664-675 | Over any run in which the gate is not closed and ticks come within a gap of each other: the change at place k of the queue, with no other of its program pushed behind it, is let out by any moment more than an interval and k times an interval and a gap, once more if the gate is still to open, after it was seen there or the hold ended |
| ControllerState.ChangesLink | src/ca/controller.rs:1086-1102 | Of two consecutive status changes of one slot the later starts where the earlier ended, and a slot becomes active only from creating its connection |
| ControllerState.HeardEach | src/ca/controller.rs:1104-1118 | However reports are interleaved, a slot becomes active exactly when it was connecting and the reply came, and its CAM status is sound once its reports are heard |
| Session.CiSession.RecvFiltered | src/ca/session.rs:278-312 | One frame of the link leads, through reassembly, to exactly what its SPDU asks for, and then one write attempt; whether data is announced is kept as the frame says; SPDUs of unaccepted slots move nothing but their transport; other slots keep every session, resource entry, queue and buffer; the CA sessions stay in sync; a failed write is passed off as malformed data only with that report |
| Session.CiSession.OpenSession | src/ca/session.rs:618-671 | Refused with the status for its reason, or the lowest free number goes to the resource and is reported, and the resource greets the module with its enquiry; the response handed over carries that status, the host's version of the resource and that number; everything on other slots is kept |
| SessionSteps.OpenStatusExact | src/ca/session.rs:618-640 | The status of the response in the codes of EN 50221: no such resource, a version the host does not have, 16 sessions on the slot, or none of these |
| Session.CiSession.DispatchApdu | src/ca/session.rs:675-725 | If no write fails, the log grows by exactly the reports the objects of the payload call for, in order and up to the first damaged one; what the session is told equals those objects, provided its resource was told of it (which an intact log implies, see `TablesAgree`); the session starts closing exactly when one of them was close_mmi |
| Session.CiSession.DeliverNext | src/ca/session.rs:694-714 | One object of a payload: its effect and its reports, and what the rest still has to do and to report; a damaged one is reported and ends it. Where a short write under a CA object is passed off as malformed data, the call succeeds and the session is left with its CAIDs confirmed and nothing selected |
| Reports.ReportsSplit | src/ca/session.rs:694-714 | What is reported of a list of objects does not depend on the payloads they come in |
| Reports.MenuReported | src/ca/resource/mmi.rs:178-268 | A menu sent in pieces, cut anywhere within the cap, is reported once, as that menu; the reports are read off tags and bodies, not off what the resource computes |
| SessionSteps.CutShortDiverges | src/ca/session.rs:727-741 | A session layer in that state, in order by every other measure, whose selection is not what is wanted |
| Session.CiSession.CloseSession | src/ca/session.rs:763-790 | The number is freed everywhere and reported closed if it lives on the slot, otherwise nothing but a report; the response handed over carries the status for that and the number |
| Session.CiSession.CloseSessionComplete | src/ca/session.rs:793-829 | Completes only a close the host started; an unknown status reopens the session |
| Session.CiSession.DropSlot | src/ca/session.rs:330-341 | All sessions of the slot are gone, each reported closed once, its transport is as new, and no other slot changed |
| Session.CiSession.TablesAgree | src/ca/session.rs:531-582 | Every entry of a resource table belongs to a live session of that resource on that slot, and on a slot with an intact log every session is known to its resource; a free number is in no table, only MMI sessions close on the host's side, and the table has at most 16 entries a slot and 4080 in all |
| Session.CiSession.OpenedOnce | src/ca/session.rs:569-582 | Between two reports that a number was opened lies a report that it was closed |
| Session.CiSession.Caids | src/ca/session.rs:350-374 | Ascending without duplicates, and exactly the CAIDs that live confirmed sessions of the slot reported |
| Session.CiSession.EnterMenu | src/ca/session.rs:424-446 | Goes to the session that identified itself last, or to an active application information session; refused exactly when there is none |
| SessionTable.PlaceKeepsQuotas | src/ca/session.rs:531-558 | First-free reuse under the per-slot quota never lets the table outgrow 16 times the slots, so the number fits 16 bits |
| SessionTable.PlaceFresh | src/ca/session.rs:544-557 | The number taken is non-zero, was free, is the lowest free one, and no other number changes |
| Resources.LookupExact | src/ca/resource/mod.rs:163-180 | The resources of the host by class and type in EN 50221, any version of them, and no others |
| World.ClosedBetween | src/ca/session.rs:569-581 | What the alternation of opening and closing reports means for any two positions of the log |
| World.Settle | src/ca/session.rs:584-828 | A step on one number of one slot that leaves the number in order keeps the whole layer in order |
| ConditionalAccess.ConditionalAccessResource.SetProgram | src/ca/resource/conditional_access.rs:70-128 | The program is stored; on success every session is in sync again, only the returned slots, which all host sessions, were touched; the only errors are link errors |
| ConditionalAccess.ConditionalAccessResource.RemoveProgram | src/ca/resource/conditional_access.rs:131-174 | Likewise for removal: the branches for a selected program without CA_INFO or without a matching descriptor cannot be reached |
| ConditionalAccess.ConditionalAccessResource.SynchronizeSession | src/ca/resource/conditional_access.rs:177-220 | A first or replacing CA_INFO leaves the session selected and shown as its new CAIDs want, whatever the module held before; if the link fails, it is left with nothing selected |
| ConditionalAccess.CaInfoExact | src/ca/resource/conditional_access.rs:223-236 | A body is accepted as a CAID list exactly when it is the coding of that list; bodies of odd length, and no others, are refused |
| Registry.SelectShown | src/ca/resource/conditional_access.rs:89-104 | A select sent as ONLY, ADD or UPDATE by the state of the selection lands in the ideal module's list as exactly that program |
| Registry.WithdrawShown | src/ca/resource/conditional_access.rs:105-117 | A withdrawal takes exactly its program out of the module's list |
| Cam.SelectReceived | src/ca/resource/conditional_access.rs:89-104 | The bytes of a select, parsed by the CA_PMT grammar and obeyed strictly by the codes of EN 50221 (3 replaces the list, 4 adds, 5 updates, command 1 descrambles), insert the program's own entry |
| CaPmt.BuildCaPmt | src/ca/capmt.rs:97-116 | Fails exactly when an info block outgrows its 12-bit length, yields nothing exactly when no descriptor matches |
| CaPmt.BodyRoundTrip | src/ca/capmt.rs:97-190 | The body, read byte by byte, gives back list management 3, 4 or 5, the number, the version with the reserved bits and current_next set, all streams in order, and exactly the matching descriptors behind the command at each level |
| CaPmt.MatchingExact | src/ca/capmt.rs:154-190 | The descriptors that go into an info block are those with an accepted CAID, in place, and no others |
| CaPmt.SectionFits | src/ca/capmt.rs:154-190 | A program from one PMT section never trips the length error |
| Wire.PeerUnderstands | src/ca/transport.rs:197-228 | The frames of any list of commands and SPDUs are understood as exactly that list, with no chain broken |
| Wire.WrittenPrefix | src/ca/transport.rs:231-274 | Whatever part is written so far is a legal prefix, and all of it with an empty queue |
| Transport.CiTransport.SendSpdu | src/ca/transport.rs:197-211 | On success exactly this SPDU is logged after everything before it; written plus queued stays what was enqueued, and the link's record of accepted frames what was written; a failed write taints the log and is returned; afterwards the link has been tried unless something is in flight |
| Transport.CiTransport.Flush | src/ca/transport.rs:231-274 | With nothing in flight and something queued the head of the queue, and nothing else, is offered to the link once; what the link answers decides whether it is in flight, stays, or is dropped with the error |
| Transport.CiTransport.RecvApdu | src/ca/transport.rs:282-352 | Takes at most one frame from the link; the slot of the frame advances by the receive function, which `ReceiveExact` and `RefuseExact` pin byte by byte, and its log by one read; no other slot changes; a frame for no slot is refused |
| RoundTrip.ReceiveExact | src/ca/transport.rs:302-352 | An R_TPDU by the grammar ends the wait, announces data exactly by bit 0x80 of its status byte, and is reported by its tag: the reply, a status, a piece kept, a whole SPDU of at most 2048 bytes, or malformed data |
| RoundTrip.RefuseExact | src/ca/transport.rs:302-320 | A frame that is no R_TPDU only ends the wait and is reported as malformed data |
| Pacer.PushSetKeeps | src/ca/pacer.rs:80-86 | A pushed select keeps the queue equivalent to the whole history and each program's part empty, a select, a remove, or a remove ahead of a select |
| Pacer.PushRemoveKeeps | src/ca/pacer.rs:90-94 | The same for a pushed remove |
| Pacer.SameEffect | src/ca/pacer.rs:80-94 | Two lists of changes with the same last change for every program make the same registry from any start |
| Pacer.CaPmtPacer.Poll | src/ca/pacer.rs:119-138 | Lets out at most the head of the queue, exactly through an open gate more than an interval after its stamp; opening lets nothing out |
| Pacer.TwoIntervals | src/ca/pacer.rs:99-138 | What pacing means for any two releases and any closing |
| ApplicationInformation.LastOneWins | src/ca/resource/application_info.rs:120-145 | The application that identified itself last is the slot's application, exactly unless the 64-bit revision is exhausted and a higher session number carries the last revision too |
| ApplicationInformation.LastOneLoses | src/ca/resource/application_info.rs:120-145 | Two sessions with the revision exhausted where the one that identified itself last is not the slot's application |
| ApplicationInformation.ApplicationInfoResource.InfoSession | src/ca/resource/application_info.rs:88-100 | The informed session with the greatest revision and number, if any |
| ApplicationInformation.ParseExact | src/ca/resource/application_info.rs:34-57 | A body is accepted as application information exactly when it starts with the coding of that information; everything else is refused |
| DateTime.DateTimeResource.OnTick | src/ca/resource/date_time.rs:127-150 | Exactly one DATE_TIME object is handed over for each session whose interval has passed, on that session's slot, and none for any other; slots without such a session are untouched |
| Mmi.MenuRoundTrip | src/ca/resource/mmi.rs:64-126 | Any menu with texts cut in any way, with any choice_nb and any damaged tail, parses to that menu |
| Mmi.PiecesComplete | src/ca/resource/mmi.rs:162-191 | An object cut into pieces is completed to the same bytes exactly when the pieces before the last stay within 65536 bytes |
| Mmi.PiecesLost | src/ca/resource/mmi.rs:162-191 | Pieces one byte over the cap: what was collected is lost and the later pieces are shown as the object |
| Mmi.MenuInPieces | src/ca/resource/mmi.rs:64-191 | A menu sent in pieces, cut anywhere within the cap, is shown as exactly that menu |
| RoundTrip.FullStack | src/ca/transport.rs:282-352 | Objects behind a session number, cut into TPDUs in any way with any status bytes, come back as the same number and the same objects in order |
| RoundTrip.Reassembled | src/ca/transport.rs:324-343 | Pieces are put back together exactly when the SPDU has at most 2048 bytes |
| RoundTrip.ReassemblyBounded | src/ca/transport.rs:324-343 | Whatever frames arrive, reassembly holds and delivers at most 2048 bytes and never touches the queue |
| Tpdu.FrameExact | src/ca/tpdu.rs:136-238 | Every R_TPDU, data or control: accepted exactly when each byte of the frame is the one the grammar asks for |
| Tpdu.DataRoundTrip | src/ca/tpdu.rs:83-130 | A built data frame with any trailer parses to its payload |
| Spdu.ParseExact | src/ca/spdu.rs:100-221 | The parser accepts exactly the coded SPDUs of the module's direction |
| Spdu.BuiltIsCoded | src/ca/spdu.rs:164-212 | What the host builds is the coding of its meaning, byte by byte |
| Apdu.ParseAtExact | src/ca/apdu.rs:115-139 | An object is accepted exactly when the data starts with one coded object, with any valid length coding |
| Apdu.ParseAllRoundTrip | src/ca/apdu.rs:142-177 | Any list of objects packed into one payload is iterated back unchanged |
| Asn1.DecodeExact | src/ca/asn1.rs:27-59 | A length field is accepted exactly when it is one of the codings of that length; everything else is refused |
| Asn1.RoundTrip | src/ca/asn1.rs:13-59 | Decoding inverts encoding whatever follows |
| Asn1.EncodeIsShortest | src/ca/asn1.rs:13-25 | The encoder uses the shortest of the codings |
| Sec.ParserExact | src/fe/sec.rs:525-570 | A text parses to a command sequence exactly when it is a layout of that sequence |
| Sec.PrintRoundTrip | src/fe/sec.rs:525-646 | Any expressible sequence, printed with whitespace of any kind in front of each command and the same inside its hex bytes, in either hex case, parses back to itself |
| Sec.Parser.Parse | src/fe/sec.rs:525-655 | The parser that moves a position computes the same result or refuses with the same error |
| Unicable.Unicable1 | src/fe/sec.rs:370-415 | Accepted exactly in range; the message decodes to the same slot, position, voltage and tone and a frequency within 2 MHz |
| Unicable.Unicable2 | src/fe/sec.rs:418-461 | Accepted exactly in range; the message decodes to the same fields, the exact frequency and the PIN |
| Unicable.FrontendFrequency | src/fe/sec.rs:486-500 | The reported frequency is the user band in kHz; for Unicable II exactly while that fits 32 bits |
| Unicable.FrontendFrequencyWraps | src/fe/sec.rs:486-500 | A user band that is accepted and whose kHz value wraps |
| Unicable.SequenceIsText | src/fe/sec.rs:486-500 | The sequences around both messages can be written in the text language and are read back unchanged |
| Unicable.TuneOnLine | src/fe/sec.rs:486-500 | Whatever the line was: the message goes out once, with the tone off, on the high voltage held for the message gap and stepped up to once from the low voltage held for the settling time; after the hold time the line is back on the low voltage |

## Findings

- A short write inside a resource callback is an `InvalidData` error there
  (src/ca/mod.rs:195-202), so src/ca/session.rs:729-741 turns it into a report and the
  controller does not recover, although src/ca/controller.rs:1121-1127 counts it as a
  link error. If that happens under a CA_INFO, the session is left with its CAIDs
  confirmed and nothing selected (`DeliverNext`), which is not what is wanted exactly
  when some desired program matches (`SynchronizeSession`); `CutShortDiverges` exhibits
  such a state. No CA_INFO event follows, so the CAM status may lag too. The application
  has seen a data error of the slot since its last
  connection was given up whenever this can be the case; every other failed write is
  proved to lead to recovery.
- `revision` of the application information saturates; `LastOneWins` gives the exact
  condition and `LastOneLoses` an input.
- An MMI object whose `*_more` pieces exceed the cap is dropped, and the pieces that
  still come are shown as a new object; `PiecesComplete` gives the exact condition and
  `PiecesLost` an input.
- Unicable II does not check the user band, so its kHz value may not fit 32 bits;
  `FrontendFrequency` gives the exact condition and `FrontendFrequencyWraps` an input.

## Left out

- src/ca/driver.rs: the task loop, channels and descriptor readiness.
- Device files, ioctls, sysfs and kernel structures; `CaDevice` stands for them. The checks of the device capabilities in `with_config` are not modelled.
- Parsing and checking of PMT sections; a program is what a section with a 12-bit length can hold, with self-delimiting descriptors.
- Error texts, the `context` of events and debug output; only error kinds are kept.
- The fields of host control requests stay in the body of one `HostRequest` event, and the date-time body is an arbitrary answer of five bytes.
- Overflow of clock arithmetic: `Instant` and `Duration` are unbounded naturals.
- LNB conversion, DiSEqC 1.0/1.1 and toneburst sequences, and the rest of the frontend: finite tables.
- Controller.CiController.PollEvent: when the link runs dry is a parameter, the number of frames it holds; the source reads until the link would block.
- Controller.CiController.ModuleHoldsDesired: does not say what the module holds on a slot where a short write was passed off as malformed data (see Findings); an application can tell by the report.
- Controller.CiController.Reset: the closing of the gate is dated with the last tick, because the source takes no time there.
- Session.CiSession.DispatchApdu: what objects are answered is stated by the resources' own contracts, not again here; what is reported when a write fails under an object is only bounded.
- Transport.CiTransport.SendSpdu: an SPDU whose write failed half-way is only recorded as tainted, not which fragments got out.
- The queries of the controller that only read one field, and `mmi_list_close`, which is `MmiMenuAnswer` with choice 0.
