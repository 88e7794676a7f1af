# Verification of terminal-redeemer

terminal-redeemer keeps terminals alive across lost connections and reboots.  This project
models the parts whose correctness is hard to see from any one function, and proves what they
promise over all inputs and all runs:

- **Reconnecting.**  `Recovery.dfy` is the coordinator as a state machine; `RecoveryTheorems.dfy`
  and `RecoveryProbes.dfy` prove its invariant, sound grants, work-conserving and fair admission,
  and the discipline of host probes, `BackOff.dfy` that a failed session waits, and
  `RecoveryMeaning.dfy` what a caller is told.  `Supervisor.dfy` is a terminal's event loop,
  `Progress.dfy` proves that it gets on, `Terminals.dfy` that input never reaches an attachment it
  was not typed for, and `PendingSlots.dfy` puts any number of terminals around the two pending
  locks.  `RecoveryServer.dfy` binds members to processes across broken connections,
  `ServiceMeaning.dfy` says what becomes of a frame, and `LostSession.dfy` shows the one way
  members lose a slot.
- **Column ordering.**  `ColumnOrder.dfy` proves that repeated descending passes of absolute column
  moves converge, so that two of the executor's guards cannot fire, that a compositor may take its
  time, and that with any compositor the outcome is what the observations bear out;
  `ColumnGroups.dfy` puts the workspaces of a desktop together.
- **Streaming decoders.**  `MarkerStream.dfy` (lifecycle markers) and `InputGate.dfy` (bracketed
  paste with generation tags) behave the same however a stream is cut.
- **Codecs.**  `ShellWords.dfy`, `AttachmentFrames.dfy` and `AttachmentRelay.dfy`.
- **Sticky recovery state.**  `RecoveryCapture.dfy`, `CaptureMeaning.dfy`, `Checkpoints.dfy` and
  `ProcessTree.dfy`.

Code that works step by step is modelled twice: a specification on values, about which the
properties are proved, and the loop or object itself, proved to do what the specification says
(`RecoveryObject.dfy`, `SupervisorObject.dfy`, `RecoveryService.dfy`, and the classes and methods
inside the other files).

What the outside world decides is a parameter everywhere: clocks, replies, random identifiers,
what a read returns, whether a write, a start or a removal succeeds.  Times are integers.  The
compositor, the coordinator seen from a terminal, and the terminals seen from the coordinator are
arbitrary; a theorem that needs more says so (`ColumnOrder.Timely`, `ColumnGroups.TimelyDesktop`,
`PendingSlots.FreshDraws`, `RecoveryProbes.Timely`, `RecoveryServer.DistinctNumbers`).

Where comments and code of the repository differ, the model follows the code.
`internal/mirror/session_stream.go` announces markers anywhere in the stream, but a stray marker
prefix right before a marker hides it (`MarkerStream.StrayPrefixHidesMarker`, and the exact
condition in `MarkerStream.HeldThenMarker`).  A broken connection keeps a pending slot for
reconnecting (`internal/mirror/session_recovery_server.go:82-83`), but a host observation that
lacks the session ends the member and frees the slot, and nothing else does
(`RecoveryServer.BrokenConnectionKeepsSlot`, with a run in `LostSession.BrokenConnectionCanLoseItsSlot`).
Pruning protects the newest prior checkpoint so that a later resume finds it, but on equal times it
protects another one than the selection prefers (`Checkpoints.PruningKeepsTheChoice`), and with a
boot ID that has white space around it it may protect one that no selection accepts
(`Checkpoints.UntrimmedBootLosesTheChoice`, the exact condition in
`Checkpoints.PruningKeepsTheTimeExactly`).

## Model

| member | source | states |
|---|---|---|
| `ColumnOrder.ShiftInverse` | internal/resume/executor.go:806-821 | A predicted column move is a permutation of the columns, undone by the opposite move. |
| `ColumnOrder.ShiftOrder` | internal/resume/executor.go:806-821 | A move keeps stacked windows together and the relative order of all columns but the moved one. |
| `ColumnOrder.MoveRoundTrip` | internal/resume/executor.go:791-823 | Moving a focused column away and back predicts exactly the original workspace, every window included. |
| `ColumnOrder.FocusedAfterFocus` | internal/resume/executor.go:778-789 | After a predicted focus the focused window is the one asked for. |
| `ColumnOrder.TurnKeepsPassInv` | internal/resume/executor.go:645-705 | One turn of a descending pass keeps columns distinct, nothing passed left of its place, and the lowest targets already fixed. |
| `ColumnOrder.PassesConverge` | internal/resume/executor.go:635-709 | For k targets in distinct columns with distinct destinations, after q passes the q lowest are in place and k passes place all, within the move budget of those passes. |
| `ColumnOrder.LowestFixedForGood` | internal/resume/executor.go:635-638 | A target fixed by a pass is not displaced by any later pass. |
| `ColumnOrder.BudgetBound` | internal/resume/executor.go:639-709 | The move budget of any number of passes over k targets is at most k + (k-1) + ... + 1. |
| `ColumnOrder.TriangleClosed` | internal/resume/executor.go:639-709 | That bound is k(k+1)/2. |
| `ColumnOrder.MovableForever` | internal/resume/executor.go:639-709 | No sequence of focus and move actions splits a stack or makes a target observable that was not. |
| `ColumnOrder.Executor.ObserveWorkspace` | internal/resume/executor.go:739-754 | An observation is recorded as an action and shows what the environment answers to the whole history; once a timely compositor shows what was done before, that is the true workspace. |
| `ColumnOrder.Executor.WaitForTransition` | internal/resume/executor.go:756-776 | For every environment, what the wait answers is what its observations and pauses show: the prediction was seen last and nothing but the state before until then, or a third state was, or neither before a pause was refused or the patience over, with the reason that an observation failed if and only if one did; under a timely compositor it always succeeds; it issues no action. |
| `ColumnOrder.Executor.MoveTarget` | internal/resume/executor.go:653-704 | For every environment a success means the workspace was last observed in exactly the state predicted from the one before, with one move issued, and every error is to blame on the end of the history (a refused action, a failed observation, a change nobody made, an action that did not show, a target that is absent or has no column); under a timely compositor a visible target is moved. |
| `ColumnOrder.Executor.Pass` | internal/resume/executor.go:644-709 | A pass that moved nothing found every target in place, and one that moved something issued a move; every action it issues is justified and its errors are to blame on the history; under a timely compositor its columns and moves are those of the arithmetic pass. |
| `ColumnOrder.Executor.Converge` | internal/resume/executor.go:639-709 | Ends with all targets last observed in place, or with an error the history justifies; "made no progress" never happens, "did not converge" only after more moves than targets, and under a timely compositor with distinct columns not at all. |
| `ColumnOrder.Executor.OrderGroup` | internal/resume/executor.go:631-725 | For every environment, applied means the last two observations agree and show every target in its column, and any error is to blame on what the history ends with; under a timely compositor the group is applied if and only if the targets are observable in pairwise distinct columns. |
| `ColumnOrder.StackedReason` | internal/resume/executor.go:872-887 | Reports stacking exactly when a target is below row one, shares its captured column with another window, or shares it with another target. |
| `ColumnOrder.DistinctAfterSort` | internal/resume/executor.go:602-614 | A group that is not stacked is ordered by strictly descending destination. |
| `ColumnOrder.OrderWorkspace` | internal/resume/executor.go:622-735 | For every environment: unsupported if and only if stacked, and then nothing was touched; every action issued is justified by two equal observations just before it; applied and every error are borne out by the end of the history; "no progress" and "final mismatch" are unreachable. Under a timely compositor applied if and only if the targets stand in distinct columns, with at most k(k+1)/2 moves. |
| `ColumnOrder.PromptIsTimely` | internal/resume/executor.go:756-776 | A compositor that shows every action at once is timely for any patience, so that everything said of timely compositors holds of it. |
| `ColumnGroups.DesktopIsWorlds` | internal/resume/executor.go:739-754 | Each workspace of the desktop changes, over any history of actions, exactly as if it were alone: what is on it afterwards is the single-workspace world of what was on it. |
| `ColumnGroups.ViewIsTimely` | internal/resume/executor.go:739-776 | On a timely desktop a group whose turn comes when everything done before shows sees a timely workspace of its own, with the delays shifted. |
| `ColumnGroups.QuietDesktop` | internal/resume/executor.go:739-776 | When a group has ended and its own workspace shows what was done, or what does not show yet changes nothing there, the whole desktop shows everything done so far. |
| `ColumnGroups.OthersStay` | internal/resume/executor.go:616-735 | Whatever one group does to windows of its own workspace, no window of any other workspace changes its column. |
| `ColumnGroups.SortByPlace` | internal/resume/executor.go:602-614 | All items with a column and a workspace, each once, workspace by workspace in the order of index, output, name and identifier. |
| `ColumnGroups.StretchIsWhole` | internal/resume/executor.go:616-622 | When every workspace identifier stands for one place, a maximal stretch of one identifier holds exactly the targets of that workspace. |
| `ColumnGroups.OrderOne` | internal/resume/executor.go:622-735 | One group's stretch of the history: unsupported if and only if stacked; every action is justified by what the group saw just before; applied means the last two observations agree on the workspace and show every target in its column, and an error is to blame on what was seen or refused; on a timely desktop applied if and only if its targets stood in pairwise distinct columns at the very start, whatever the groups before it did. |
| `ColumnGroups.RestoreFocus` | internal/resume/executor.go:586-597 | One focus action and then only looking and pausing, until the window shows focused, something is refused or the patience is over; however the compositor answers, the net effect is that one focus. |
| `ColumnGroups.OrderColumns` | internal/resume/executor.go:563-737 | For every environment: an item without a captured column is told nothing and one without a workspace, or without an orderer, that it is unsupported; the items of one maximal stretch of a workspace are told the same, unsupported if and only if the stretch is stacked, applied only if some prefix of the history ends in an observation that shows every target of the stretch in its column on its workspace, an error only if the stretch's part of the history justifies it; every move and focus before the final focus restoration is justified by two observations just before it that show the same of its workspace, with the window it is for. On a timely desktop with one place for each identifier an item is told applied if and only if its workspace needs no stacking and its targets stand in pairwise distinct columns, and then it stands in its captured column at the end of all groups, with exactly the originally focused window focused. |
| `ColumnGroups.StretchesApart` | internal/resume/executor.go:616-621 | Two maximal stretches are the same or do not overlap, so every item is told once. |
| `MarkerStream.ParseMarkerRoundTrip` | internal/mirror/session_attach.go:30-40 | Every marker of a valid attempt and known event is read back as exactly that attempt and event. |
| `MarkerStream.ParsedMarker` | internal/mirror/session_stream.go:49-54 | Whatever is accepted as a marker is byte for byte the marker of the attempt and event it names. |
| `MarkerStream.Tokenize` | internal/mirror/session_stream.go:17-75 | Less than 128 bytes are ever held back, and none at the end of the stream. |
| `MarkerStream.NothingLost` | internal/mirror/session_stream.go:17-75 | Visible bytes, recognised markers and held bytes, in order, are exactly the stream. |
| `MarkerStream.OnlyMarkersRemoved` | internal/mirror/session_stream.go:49-57 | Every stretch that is removed from the output is the marker of some attempt and event. |
| `MarkerStream.TwoChunks` | internal/mirror/session_stream.go:17-75 | Reading a stream in two parts with the held bytes carried over gives the reading of the whole. |
| `MarkerStream.FeedTwice` | internal/mirror/session_stream.go:17-75 | Two feeds give together the output, events, held bytes and state of one feed of both. |
| `MarkerStream.ChunkInvariance` | internal/mirror/session_stream.go:17-75 | The same for any number of chunks, with or without the end of the stream in the last. |
| `MarkerStream.AnnouncesOrderly` | internal/mirror/session_stream.go:56-70 | Over any stream the events are at most one ready, then at most one final event, and detached only after ready. |
| `MarkerStream.OthersAreIgnored` | internal/mirror/session_stream.go:56-70 | Deleting every marker of another attempt from what was recognised changes neither the events nor the progress. |
| `MarkerStream.EventsAreOwn` | internal/mirror/session_stream.go:56-70 | From a fresh decoder ready is announced if and only if a ready marker of this very attempt is recognised before any final marker of it; the final event is that of its first final marker, with detached before ready turned into failed; nothing else is announced. |
| `MarkerStream.Decoder.Keep` | internal/mirror/session_stream.go:23-30 | The kept tail is the longest proper prefix of the marker prefix the pending bytes end with. |
| `MarkerStream.Decoder.Flush` | internal/mirror/session_stream.go:22-35 | With no marker prefix pending, everything but the kept tail is output, as the reference reads it. |
| `MarkerStream.Decoder.TakeCandidate` | internal/mirror/session_stream.go:38-70 | A framed candidate is consumed as the reference consumes it, and the pending bytes shrink. |
| `MarkerStream.Decoder.Feed` | internal/mirror/session_stream.go:17-75 | The searching decoder delivers what the byte-by-byte reference delivers for the held bytes followed by the chunk: the visible bytes, the events the recognised markers announce, the kept bytes and the progress. |
| `MarkerStream.HeldThenMarker` | internal/mirror/session_stream.go:38-47 | A marker right after held bytes is recognised if and only if no suffix of the held bytes that begins a marker reaches into it within the 128-byte bound. |
| `MarkerStream.MarkerInStream` | internal/mirror/session_stream.go:17-75 | The same after any stream: exactly the held bytes decide whether a marker that follows is recognised. |
| `MarkerStream.StrayPrefixHidesMarker` | internal/mirror/session_stream.go:38-57 | A stray marker prefix directly before a ready marker hides it: no ready is announced. |
| `InputGate.ScanKeepsBytes` | internal/mirror/session_terminal.go:92-133 | Emitted bytes followed by the held ones are exactly the bytes scanned. |
| `InputGate.ScanTwice` | internal/mirror/session_terminal.go:92-133 | Scanning in two parts with the held bytes carried over gives the scan of the whole. |
| `InputGate.LeftmostDelimiter` | internal/mirror/session_terminal.go:111-127 | Everything up to the first occurrence of the awaited paste delimiter keeps its mode, the delimiter belongs to the paste, and the search goes on for the other one right behind it. |
| `InputGate.NoDelimiter` | internal/mirror/session_terminal.go:111-131 | Without the awaited delimiter the mode stays and only a possible beginning of it is held. |
| `InputGate.DecodeScans` | internal/mirror/session_terminal.go:92-133 | For any chunking and timing the decoder shows the scan of all bytes since its last flush. |
| `InputGate.DecodeTwice` | internal/mirror/session_terminal.go:92-133 | Decoding two reads, made at any times, is decoding their concatenation. |
| `InputGate.ChunkInvariance` | internal/mirror/session_terminal.go:92-133 | Bytes that come in any number of reads at any times are delivered with the same generation and paste tags, and leave the same gate but for its clock, as if they had come in one read at any other times. |
| `InputGate.ReadsDecode` | internal/mirror/session_terminal.go:135-176 | A run of the reader in which no held prefix times out is one decoding of everything it read. |
| `InputGate.SettleStartsPaste` | internal/mirror/session_terminal.go:116-127 | A paste begins with exactly its six-byte start delimiter, whose origin becomes the paste's generation. |
| `InputGate.DecodeTags` | internal/mirror/session_terminal.go:101-131 | Decoded bytes never carry a generation newer than those opened, and decoding opens or closes none. |
| `InputGate.OpenIsFresh` | internal/mirror/session_terminal.go:50-90 | A generation opens only outside a paste with nothing held, and is greater than every one before; a refused opening changes no generation. |
| `Progress.GateOpens` | internal/mirror/session_terminal.go:50-90 | A gate opens if and only if sixteen reads empty the terminal and all that was typed leaves no paste unfinished and no beginning of one younger than 30 milliseconds; it fails if and only if one of these reads finds the terminal failing or closed. |
| `Progress.HeldBytesComeLate` | internal/mirror/session_terminal.go:37-46 | A held beginning of a paste delimiter is let through, under its own generation, exactly when it is 30 milliseconds old. |
| `Progress.ReadingIsCurrent` | internal/mirror/session_terminal.go:92-133 | From the moment the terminal was handed over, whatever is read is queued under the open generation, and what is queued and held are, byte for byte, what was held and what was typed. |
| `InputGate.NoStaleInput` | internal/mirror/session_terminal.go:48-133 | Over any run of reads, flushes, closes and opens, when a generation opens every byte delivered before carries an older one. |
| `InputGate.PastesStayWhole` | internal/mirror/session_terminal.go:22-133 | Over any run of reads, timeouts, losses and openings, successful or not, what the gate parses falls into ordinary stretches and pastes; a paste starts with its start delimiter, ends with its end delimiter unless it still goes on, and carries one generation from first to last byte; openings meanwhile drop bytes of it, but what is delivered of it is delivered for that generation only. |
| `InputGate.NothingIsLost` | internal/mirror/session_terminal.go:39-133 | Over any such run the bytes parsed, delivered or dropped, followed by the held ones are exactly the bytes typed, in order. |
| `InputGate.Emit` | internal/mirror/session_terminal.go:94-100 | Merging into the last item of the same origin delivers the same tagged bytes in the same order. |
| `InputGate.SessionInputGate.DecodeInput` | internal/mirror/session_terminal.go:92-133 | The byte loop, reading the clock only for a byte that begins a prefix, delivers and leaves what decoding delivers and leaves, in items none of which is empty. |
| `InputGate.SessionInputGate.SettlePrefix` | internal/mirror/session_terminal.go:111-130 | The inner loop settles the prefix as the specification does. |
| `InputGate.SessionInputGate.OpenGeneration` | internal/mirror/session_terminal.go:50-90 | The bounded drain and the opening leave the state and result the specification gives. |
| `Recovery.RecoveryDelay` | internal/mirror/session_recovery.go:38-40 | Every back-off lies between one and thirty seconds. |
| `Recovery.RegisterKeeps` | internal/mirror/session_recovery.go:139-161 | Registering a new client keeps the coordinator's invariant. |
| `Recovery.RemoveKeeps` | internal/mirror/session_recovery.go:268-286 | Removing a client keeps it: the queue loses exactly that client and a retry entry goes with its last member. |
| `Recovery.ApplyEventKeeps` | internal/mirror/session_recovery.go:174-196 | Every report keeps it, whatever the report and however late. |
| `Recovery.FailKeeps` | internal/mirror/session_recovery.go:203-211 | Failing an attempt keeps it and retires exactly the active attempt. |
| `Recovery.ExpireKeeps` | internal/mirror/session_recovery.go:212-219 | Revoking late grants keeps it. |
| `Recovery.ObservedKeeps` | internal/mirror/session_recovery.go:99-119 | A successful observation keeps it. |
| `Recovery.AdmitKeeps` | internal/mirror/session_recovery.go:220-250 | Admission keeps it: at most two pending grants, at most one per session, over any queue. |
| `RecoveryTheorems.StepKeeps` | internal/mirror/session_recovery.go:41-286 | Every operation of the coordinator keeps its invariant. |
| `RecoveryTheorems.ReachableStatesAreSound` | internal/mirror/session_recovery.go:12-286 | In every reachable state at most two members are pending and at most one per session; ready implies active and not reset; ended implies no attempt; an active attempt is not the retired one; tokens are distinct; the queue lists exactly the members once; retry entries are exactly their sessions. |
| `RecoveryTheorems.GrantsAreSound` | internal/mirror/session_recovery.go:133-267 | A grant names the caller's own attempt, its deadline is still ahead, its member is neither ended nor reset and did not retire that attempt, and it holds a pending slot; a request with an event is never granted. |
| `RecoveryTheorems.EndedForever` | internal/mirror/session_recovery.go:82-121 | A registration that was ended stays ended through any run of operations. |
| `RecoveryTheorems.AdmissionIsWorkConserving` | internal/mirror/session_recovery.go:220-250 | After an admission both slots are taken or no member is eligible. |
| `RecoveryTheorems.AdmitFair` | internal/mirror/session_recovery.go:235-249 | In one admission a member waiting at position p is overtaken by at most as many as it advances. |
| `RecoveryTheorems.AdmissionIsFair` | internal/mirror/session_recovery.go:220-250 | Over any run a member at queue position p, alone on its session and eligible at every admission, is overtaken by at most p others before its own admission. |
| `RecoveryTheorems.BeforeAdmissionOrder` | internal/mirror/session_recovery.go:133-199 | Registration, reports and probes never move a registered member back in the queue. |
| `RecoveryTheorems.EventMember` | internal/mirror/session_recovery.go:174-196 | A report changes no member but the caller's, and how it changes that one. |
| `BackOff.EntriesTell` | internal/mirror/session_recovery.go:133-286 | A lost report of the active attempt leaves its session's retry entry at that time and 1, 2, 4, 8, 16 or 30 seconds by the failures before it, with one more failure up to six; an accepted ready report clears it; no other operation changes any entry, and an entry lives exactly as long as its session has members. |
| `BackOff.StartsAreDue` | internal/mirror/session_recovery.go:220-250 | Whoever holds a pending grant that it did not hold before got it at a time its session's retry entry allows, from an available coordinator whose inventory shows the session, for an attempt that is not the retired one, until fifteen seconds later. |
| `BackOff.FailedSessionsWait` | internal/mirror/session_recovery.go:203-250 | Over any run, from the very exchange that reports a loss, no member of that session gets a grant before the delay is over, unless a ready report of the session comes in between or its entry goes with its last member. |
| `RecoveryMeaning.ExchangeTells` | internal/mirror/session_recovery.go:133-202 | A request of a caller whose identity does not fit changes nothing; any other makes the caller a member, changes the caller's member as its attempt, event and state say, revokes overdue grants, and otherwise only starts members that may start. |
| `RecoveryMeaning.ReplyTells` | internal/mirror/session_recovery.go:133-202 | A request is refused exactly when the identity does not fit; a reply asks for a reset exactly when the report is out of step, the member must reset or the attempt is the retired one; it carries the pending grant exactly when no reset is asked for, names the attempt to cancel, and the time before which asking is useless. |
| `RecoveryMeaning.EligibleAreServed` | internal/mirror/session_recovery.go:220-250 | After a tick, a successful observation, or an exchange answered without a reset, a member that may start and whose session has no pending grant lacks only a slot: two others hold one. |
| `RecoveryMeaning.ExchangeWishes` | internal/mirror/session_recovery.go:41-56 | An exchange touches the host observation only by wishing for one, for a newcomer, on request or after a loss, at once but not within a second of the last one's start, and not while one is under way. |
| `RecoveryProbes.SingleFlight` | internal/mirror/session_recovery.go:57-86 | While a probe is under way no other starts, whatever happens, until its own result comes in; what it observes is fixed and nobody is ended. |
| `RecoveryProbes.ProbesAreSpaced` | internal/mirror/session_recovery.go:41-103 | Probe starts are at least a second apart when no result precedes its start. |
| `RecoveryProbes.AllProbesAreSpaced` | internal/mirror/session_recovery.go:41-103 | So are all starts of a coordinator, from its first state on. |
| `RecoveryProbes.ProbeEndsExactly` | internal/mirror/session_recovery.go:57-121 | A successful probe ends exactly the members registered at its start, still registered as the same object, and absent from the inventory, whatever happened in between. |
| `RecoveryProbes.OnlySuccessEnds` | internal/mirror/session_recovery.go:82-98 | Failed, invalid and out-of-date probes, and every other operation, end nobody. |
| `RecoveryMeaning.ProbeBegins` | internal/mirror/session_recovery.go:57-81 | A host observation begins exactly when none is under way, somebody is registered, it is due, and it is wanted or somebody is neither ready nor ended. |
| `RecoveryMeaning.ProbeFails` | internal/mirror/session_recovery.go:82-98 | A failed or invalid observation makes the host unavailable and the next one due after 1, 2, 4, 8, 16 or 30 seconds by the failures before; one that is out of date changes nothing. |
| `RecoveryMeaning.ProbeSucceeds` | internal/mirror/session_recovery.go:99-119 | A successful one makes the host available with what it saw; the next is due in thirty seconds, or as soon as allowed while the session of somebody not ended is not among them. |
| `RecoveryObject.SessionRecovery.BeginProbe` | internal/mirror/session_recovery.go:57-81 | The loops over members, in any order, find whether anybody waits and note the registrations a probe observes: the start of a probe is that of the specification. |
| `RecoveryObject.SessionRecovery.FinishProbe` | internal/mirror/session_recovery.go:82-121 | The loops over observed and registered members, in any order, end exactly the members the specification ends and leave its state. |
| `RecoveryObject.SessionRecovery.Expire` | internal/mirror/session_recovery.go:212-219 | Visiting members in any order revokes exactly the late grants. |
| `RecoveryObject.SessionRecovery.Admit` | internal/mirror/session_recovery.go:220-250 | Counting pending members in any order and rotating the queue admits exactly whom the recursive scan admits, and leaves its queue. |
| `RecoveryObject.SessionRecovery.Remove` | internal/mirror/session_recovery.go:268-286 | The searching loops remove the client from table and queue, and the retry entry of its session exactly when nobody else has it. |
| `RecoveryObject.SessionRecovery.Exchange` | internal/mirror/session_recovery.go:133-202 | Identification, report, admission and reply, run in place, compose to the specified exchange. |
| `Supervisor.OpenKeeps` | internal/mirror/session_supervisor.go:262-290 | Opening an attachment keeps the supervisor's invariant: it is reported ready once and gives up its slot only then. |
| `Supervisor.DoneKeeps` | internal/mirror/session_supervisor.go:369-389 | A reaped child gives up its slot and leaves one loss to report, or ends the loop. |
| `Supervisor.AnsweredKeeps` | internal/mirror/session_supervisor.go:390-457 | Every reply keeps the invariant, however late, repeated, lost or wrong. |
| `Supervisor.StepKeeps` | internal/mirror/session_supervisor.go:304-468 | Every case of the event loop keeps it. |
| `Progress.PacketTells` | internal/mirror/session_supervisor.go:262-290 | Output of a child that waits for the terminal: more than four megabytes of it or any marker but ready stops the child; a child proved ready is handed the terminal, its slot given back and its ready report sent or queued, if and only if the deadline is ahead, the terminal is at an input boundary and the screen is drawn, however much output came before; a late or failing terminal stops it; else it waits on. |
| `Progress.PacketWhileOpen` | internal/mirror/session_supervisor.go:349-368 | Once the child has the terminal, output that cannot be shown or any marker but ready takes it away and stops the child; everything else leaves it. |
| `Progress.TickTells` | internal/mirror/session_supervisor.go:465-472 | A tick at or after the deadline leaves a child that waits for the terminal stopping; before it, a proved child is handed the terminal at an input boundary; an exchange is under way afterwards. |
| `Progress.IdleLoopAsks` | internal/mirror/session_supervisor.go:227-252 | Without a waiting child a tick changes nothing but that the oldest report, or the wish for a grant, is being sent. |
| `Progress.DoneTells` | internal/mirror/session_supervisor.go:369-389 | A reaped child gives back slot and terminal; a detach ends the loop, anything else queues the loss behind an unheard ready report and sends the oldest report. |
| `Progress.TypingReachesTheChild` | internal/mirror/session_supervisor.go:325-332 | Bytes of the open generation are written to its child, which is stopped if that fails. |
| `Progress.EnterRetries` | internal/mirror/session_supervisor.go:333-340 | Enter, typed while there is no child and no attachment, asks for a retry in the exchange begun now or in the next. |
| `Progress.PasteTells` | internal/mirror/session_supervisor.go:309-324 | The text of another local process is written exactly when that process saw this client, this attempt and the open generation, and the child is stopped if the write fails; otherwise nothing happens. |
| `Progress.StopTells` | internal/mirror/session_supervisor.go:161-171 | When the loop is told to stop, child, slot and generation are gone and nothing happens any more. |
| `Progress.FailedExchange` | internal/mirror/session_supervisor.go:390-397 | A failed exchange changes nothing but that it is over, and keeps a wish for a retry. |
| `Progress.AnswerTells` | internal/mirror/session_supervisor.go:390-461 | Every reply takes away exactly the report it acknowledges, with a fresh attempt after a loss, and is followed by what it calls for: the end of the loop, the end of a child whose attempt is cancelled or reset, the release of an attempt the coordinator holds without a child, the start of the granted child with its slot, the loss of a grant that is late or cannot start, or only the next exchange. |
| `Terminals.WritesAreCurrent` | internal/mirror/session_supervisor.go:310-333 | Everything written to a child goes to the live child of the open generation, which was opened for it; typed bytes are the head of the queue, carry that generation and were decoded after it opened; a pasted text was asked for by a process that named this client, this attempt and this generation. |
| `Terminals.StaleInputIsNeverWritten` | internal/mirror/session_supervisor.go:321-332 | Once a byte is decoded, no generation that opens later ever writes it to its child, however long it stays queued; which child a generation belongs to never changes. |
| `Terminals.OpeningIsClean` | internal/mirror/session_supervisor.go:262-290 | A generation opens for the live, proven, unexpired child with no byte held back from before, and is reported ready. |
| `Terminals.PasteReachesWhatItSaw` | internal/mirror/session_supervisor.go:308-319 | After any run, a text that a local process wants typed into the attachment it saw is written if and only if that attachment is still open; it has then been open ever since, and the text goes to the very child that was seen. |
| `PendingSlots.TryLocks` | internal/mirror/session_admission.go:14-41 | The permit found is the first free lock, and none is missed unless a lock file is unsafe. |
| `PendingSlots.PendingLocks.Acquire` | internal/mirror/session_admission.go:20-40 | Takes exactly the first free lock, or none and changes nothing. |
| `PendingSlots.StepAttempt` | internal/mirror/session_supervisor.go:390-457 | A child starts only for the current attempt, which had no grant before; an attempt that holds its grant holds it until a fresh attempt replaces it. |
| `PendingSlots.SlotNeedsPermit` | internal/mirror/session_supervisor.go:442-449 | No case of the loop gives a terminal a pending slot but a reply that met a free lock. |
| `PendingSlots.SlotsKeep` | internal/mirror/session_supervisor.go:262-457 | Any step of any terminal keeps locks matched to slots, however attempt IDs are drawn. |
| `PendingSlots.SystemStepKeeps` | internal/mirror/session_supervisor.go:262-457 | With fresh attempt IDs it also keeps attempts unshared and started at most once. |
| `PendingSlots.AtMostTwoPending` | internal/mirror/session_supervisor.go:427-456 | With any number of terminals starting and stopping, any replies at all, and even repeated attempt IDs, at most two children exist that were not reported ready. |
| `PendingSlots.AttemptsStartOnce` | internal/mirror/session_supervisor.go:427-456 | With fresh attempt IDs no attempt starts two children, in one terminal or in two. |
| `PendingSlots.GrantsAreAccountedFor` | internal/mirror/session_supervisor.go:143-160 | In every reachable state, fresh IDs or not, a non-empty grant has a live child or an unacknowledged loss, and the reports are [], [ready], [lost] or [ready, lost] of one attempt. |
| `SupervisorObject.FirstItem` | internal/mirror/session_supervisor.go:325-332 | The first item of the channel is a stretch of the queue of tagged bytes, all of one origin, and the other items are the rest of it. |
| `SupervisorObject.SessionSupervisor.Prove` | internal/mirror/session_supervisor.go:361-367 | The loop over a packet's markers proves the child exactly when each is the ready marker of a child not being stopped, and loses it otherwise. |
| `SupervisorObject.SessionSupervisor.Packet` | internal/mirror/session_supervisor.go:348-368 | Output of the child is shown or kept within its bound, its markers are judged, and the attachment is opened as the specification opens it. |
| `SupervisorObject.SessionSupervisor.Turn` | internal/mirror/session_supervisor.go:304-473 | One turn of the loop over its variables, its gate and its channel is the specification's step and keeps its invariant: a child starts only without another, for the current attempt, which had no grant, with a permit and holding a slot; what is written goes to the child whose generation is open. |
| `RecoveryServer.StepKeeps` | internal/mirror/session_recovery_server.go:57-150 | Every handler and ticker step keeps owners and members in agreement. |
| `ServiceMeaning.FrameTells` | internal/mirror/session_recovery_server.go:107-143 | A request changes nothing unless its connection may speak for the client; a departure then leaves no owner and no member of that client and frees the connection; any other request goes to the coordinator and, if accepted there, makes the connection the client's owner, with nothing else of the service changed. |
| `ServiceMeaning.CloseTells` | internal/mirror/session_recovery_server.go:75-92 | When a connection ends, exactly the client it owns goes with it, unless the service runs on, the process lives and its attempt is pending, when the owner is away; every other owner, member and connection is untouched. |
| `ServiceMeaning.TickTells` | internal/mirror/session_recovery_server.go:288-301 | A tick removes exactly the clients whose connection broke and whose process has died, with their members. |
| `ServiceMeaning.TickRuns` | internal/mirror/session_recovery_server.go:302-303 | Then the coordinator admits and begins a host observation if one is due. |
| `RecoveryServer.OwnersAreMembers` | internal/mirror/session_recovery_server.go:57-150 | In every reachable state exactly the members have owners, and each owner's connection speaks for its client. |
| `RecoveryServer.DisconnectSendsAway` | internal/mirror/session_recovery_server.go:75-85 | A pending member of a live process keeps everything when its connection breaks. |
| `RecoveryServer.DisconnectRemoves` | internal/mirror/session_recovery_server.go:86-91 | Any other end of an owner's connection removes owner and member. |
| `RecoveryServer.BrokenConnectionKeepsSlot` | internal/mirror/session_recovery_server.go:75-150 | While its process lives and does not come back, such a member keeps its owner and registration through any run; it keeps its attempt and pending slot if and only if no finished probe that had observed it shows an inventory without its session, and then it has ended. |
| `LostSession.BrokenConnectionCanLoseItsSlot` | internal/mirror/session_recovery_server.go:75-150 | A concrete run from the start of the service in which a broken connection's member, its process alive, is ended by such a probe and its slot freed. |
| `RecoveryServer.ForeignIsRefused` | internal/mirror/session_recovery_server.go:119-122 | A connection with another process number that speaks for a client that is away is refused and changes nothing. |
| `RecoveryServer.OnlyItsProcessTakesOver` | internal/mirror/session_recovery_server.go:119-143 | A client changes hands only on a frame of its owner, or of a connection with the process number of an owner that is away and alive. |
| `RecoveryServer.ProcessKeepsItsClient` | internal/mirror/session_recovery_server.go:57-150 | Over any run in which live processes have different numbers, a client that always has an owner is always owned by the process that owned it first, however often its connection breaks and comes back. |
| `RecoveryServer.OtherProcessesDoNotDisturb` | internal/mirror/session_recovery_server.go:119-122 | While live processes have different numbers, no frame of another process counts as the return of a client that is away. |
| `RecoveryService.RecoveryService.Tick` | internal/mirror/session_recovery_server.go:288-303 | The loop over owners, in any order and each once, buries exactly those that died while away; admission and the start of a probe follow on the same coordinator, and owners still agree with members. |
| `ProcessTree.VisitKeeps` | internal/procmeta/process_tree.go:299-334 | Visiting the head of the queue keeps every path visited, pending or continuing a pending one, no path twice, and parents before children. |
| `ProcessTree.ProperCount` | internal/procmeta/process_tree.go:303-330 | In a proper tree different paths end at different processes, and there are at most 256. |
| `ProcessTree.Finished` | internal/procmeta/process_tree.go:299-335 | When the queue runs out every path was visited and the view is a proper tree. |
| `ProcessTree.ProcessTable` | internal/procmeta/process_tree.go:291-336 | Complete if and only if everything reachable is readable, agrees with its parent, is reached by one path only, and is within 256 processes and depth 8; the table then holds exactly the reachable processes. |
| `ProcessTree.CollectTwice` | internal/procmeta/process_tree.go:266-272 | A process met twice means the view is not a proper tree. |
| `ProcessTree.Collected` | internal/procmeta/process_tree.go:263-275 | The second pass lists every reachable process but the root once, each after its parent. |
| `ProcessTree.ReverseInPlace` | internal/procmeta/process_tree.go:276-278 | The array is reversed. |
| `ProcessTree.DescendantPIDs` | internal/procmeta/process_tree.go:255-280 | Succeeds if and only if the tree is proper, and lists every descendant exactly once, each before its parent. |
| `ShellWords.ParseCommand` | internal/mirror/remote.go:230-243 | Parsing a quoted command gives back its words, for every non-empty list of byte strings. |
| `ShellWords.ParsedWasQuoted` | internal/mirror/projection.go:215-258 | Every string the parser accepts is the quoted form of the words it returns. |
| `ShellWords.QuotingIsABijection` | internal/mirror/projection.go:215-258 | A string parses to given words if and only if they are not empty and it is their quoted form. |
| `ShellWords.ShellReadsCommand` | internal/mirror/remote.go:230-243 | By the quoting rules of the POSIX shell a quoted command splits into exactly the words that were quoted. |
| `ShellWords.ShellQuote` | internal/mirror/remote.go:238-243 | The loop builds the quoted form. |
| `ShellWords.QuoteCommand` | internal/mirror/remote.go:230-236 | The filled array joined by spaces is the quoted command. |
| `ShellWords.ConsumeWord` | internal/mirror/projection.go:238-258 | The shrinking-input loop reads one word as specified. |
| `ShellWords.ParseWords` | internal/mirror/projection.go:215-236 | The loop accepts and returns what the specification does. |
| `AttachmentFrames.VarintRoundTrip` | internal/mirror/session_relay.go:38-56 | Every 64-bit number is read back from its varint, whatever follows. |
| `AttachmentFrames.UvarintFits` | internal/mirror/session_relay.go:38-43 | No varint that is accepted exceeds 64 bits. |
| `AttachmentFrames.LittleRoundTrip` | internal/mirror/session_relay.go:27-28 | The four length bytes are read back as the length modulo two to the 32nd. |
| `AttachmentFrames.FrameRoundTrip` | internal/mirror/session_relay.go:22-58 | A frame with a field number from 1 to below two to the 61st and a payload within four megabytes is read back as what it says, with nothing of what follows. |
| `AttachmentFrames.FrameRoundTripsExactly` | internal/mirror/session_relay.go:22-58 | It is read back if and only if those two conditions hold. |
| `AttachmentFrames.ReadVarint` | internal/mirror/session_relay.go:38-43 | The byte loop reads what the specification reads. |
| `AttachmentRelay.MarkerOnce` | internal/mirror/session_relay.go:205-238 | The ready marker is sent at most once, and directly before the first render the client gets. |
| `AttachmentRelay.DetachedWasReady` | internal/mirror/session_relay.go:216-231 | Detached implies ready in every state of a connection. |
| `AttachmentRelay.DetachedWasAnnounced` | internal/mirror/session_relay.go:216-231 | Detached is remembered only after the client was sent the marker. |
| `AttachmentRelay.DetachIsExact` | internal/mirror/session_relay.go:209-237 | When nothing is lost in writing, a detach is remembered if and only if the first exit or switch the server sends says so (exit body 8, 1 or 8, 2, or a switch) and a render came before it. |
| `AttachmentRelay.FramesPassInOrder` | internal/mirror/session_relay.go:205-238 | Besides the marker the client gets the server's frames in order and unchanged, a switch excepted. |
| `AttachmentRelay.SwitchNeverPasses` | internal/mirror/session_relay.go:210-237 | No switch reaches the client, and nothing follows an exit. |
| `AttachmentRelay.SwitchArrivesAsExit` | internal/mirror/session_relay.go:210-237 | A session switch reaches the client as an exit that says so, and counts as detached once ready. |
| `AttachmentRelay.MarkerIsARender` | internal/mirror/session_relay.go:68-73 | The client reads the marker frame as a render whose one field is exactly this attempt's ready marker. |
| `AttachmentRelay.FilterIsExact` | internal/mirror/session_relay.go:180-203 | The server gets the client's frames in order and unchanged up to the first refused one, and the relay fails exactly there. |
| `AttachmentRelay.OneAttachment` | internal/mirror/session_relay.go:138-152 | Of any sequence of connections at most one becomes interactive, and only attach and status frames start anything. |
| `AttachmentRelay.Relay.ServeClient` | internal/mirror/session_relay.go:205-238 | The loop leaves the log and state of the specification. |
| `AttachmentRelay.Relay.ServeServer` | internal/mirror/session_relay.go:180-203 | The loop passes what the specification passes. |
| `RecoveryCapture.AuthoritativeActiveSessions` | internal/capture/runner.go:152-182 | Succeeds if and only if names and records agree and every status is certain, with exactly the active names in order. |
| `RecoveryCapture.ColumnOccupied` | internal/capture/runner.go:264-280 | Occupied exactly when the target is in row one and another window of its workspace shares, or may share, its column. |
| `RecoveryCapture.Recall` | internal/capture/runner.go:185-209 | Walking history newest first leaves for every active session its newest directory and newest observed place. |
| `RecoveryCapture.Visible` | internal/capture/runner.go:211-220 | Every active session is given exactly the windows that certainly show it, in order. |
| `RecoveryCapture.BuildRecoveryInventory` | internal/capture/runner.go:184-251 | For any list of active names the inventory lists exactly these in order, and for each the session as captured from the desktop and the history. |
| `RecoveryCapture.OrderIsKept` | internal/model/state.go:133-139 | Names that already come in order, as the capture gives them, are listed as they came. |
| `RecoveryCapture.PlacementIsOneObservation` | internal/capture/runner.go:192-242 | Workspace, place, time and occupancy come from one source: the sole exact window when complete, else the newest record with an observation, else nothing. |
| `CaptureMeaning.CaptureTells` | internal/capture/runner.go:184-251 | A captured session is visible exactly when some window certainly shows it; a window that is the only one to do so gives the directory unless blank and, if complete, the place; otherwise the directory is looked up; what is still unknown comes from the newest record that knows it, directory and place independently. |
| `RecoveryCapture.CaptureIsValid` | internal/capture/runner.go:184-251 | A capture of distinct, well-named sessions from valid history at a nonzero time passes the store's validation. |
| `RecoveryCapture.ValidateRecovery` | internal/checkpoints/store.go:75-102 | The two loops accept exactly the valid inventories. |
| `Checkpoints.BeforeIsTransitive` | internal/checkpoints/store.go:299-310 | The order of a listing is transitive. |
| `Checkpoints.BeforeIsTotal` | internal/checkpoints/store.go:299-310 | It leaves undecided only files of the same boot, host and profile. |
| `Checkpoints.List` | internal/checkpoints/store.go:281-311 | All files, in that order. |
| `Checkpoints.PickedIsNewest` | internal/resume/planner.go:58-75 | In a listing the search returns the newest match and, among equals, the one the listing puts first; nothing only if nothing matches. |
| `Checkpoints.Choose` | internal/resume/planner.go:56-97 | Nothing is found exactly when no checkpoint of a prior boot matches; otherwise the newest, with its age: stale exactly when the age exceeds a positive maximum, empty for an unexpired one without terminals, ready otherwise. Among equal times the one the listing puts first. |
| `Checkpoints.ChooseAll` | internal/resume/planner_all.go:24-70 | Ready from the newest checkpoint of the current boot whenever one matches; otherwise from the newest of a prior boot: empty when it has no active sessions, else stale exactly when its age exceeds a positive maximum, else ready. |
| `Checkpoints.Prune` | internal/checkpoints/store.go:317-385 | Pruning keeps at least the current boot, the newest prior of every host and profile, and everything unexpired; without a failing removal exactly that. |
| `Checkpoints.NewestPriorExists` | internal/checkpoints/store.go:354-364 | Every host and profile with a prior checkpoint has one to protect, at least as new. |
| `Checkpoints.PruningKeepsTheTime` | internal/checkpoints/store.go:314-385 | With trimmed boot IDs both selections find after pruning a checkpoint of the same time and age as before, even if pruning stopped early; for the current boot the same one. |
| `Checkpoints.PruningKeepsTheTimeExactly` | internal/checkpoints/store.go:314-385 | For any stored boot IDs, trimmed or not, each selection finds a checkpoint of the same time and age after a complete pruning if and only if it had found a checkpoint of the current boot, or none, or its prior choice had not expired, or a checkpoint that pruning protects as the newest of its owner matches too and has the same time. |
| `Checkpoints.PruningKeepsTheChoice` | internal/checkpoints/store.go:358-377 | For a fixed host and profile a prior-boot search finds the same checkpoint if and only if there was none, or it had not expired, or no other was observed at the same time. |
| `Checkpoints.TieChangesTheChoice` | internal/checkpoints/store.go:358-377 | Two expired checkpoints of one time for which pruning does change which one is selected. |
| `Checkpoints.UntrimmedBootLosesTheChoice` | internal/checkpoints/store.go:354-373 | A stored boot ID with white space around it can make pruning remove the only selectable checkpoint. |

## Left out

- SSH, Niri, Kitty and Zellij execution, procfs and socket calls, pidfds, file locks, fsync and rename: environment answers or parameters.
- Safe session names: whether a name is a usable socket file name enters as a flag of requests and inventories; UTF-8 and control-character rules are not modelled.
- Member objects of the coordinator are values in a map; a registration number that is never reused stands for their identity, so aliasing between the member table and a probe's snapshot is not represented by references.
- SupervisorObject.SessionSupervisor.Turn: what is only shown (notices, failures, the status screen, retry times) is not modelled; a local request whose caller gave up or died is no event.
- Supervisor process death: the locks then go with the process; only orderly exits, which wait for the child to be reaped, are modelled.
- InputGate.SessionInputGate.OpenGeneration: generations are unbounded, so the exhaustion error of the source does not exist.
- Terminals.StaleInputIsNeverWritten: items between the reader and the loop are one queue of tagged bytes from which any run of one origin may be taken; the channel's capacity of sixteen is not modelled, so a reader that waits for room is one that has not read yet.
- stripPreClientQueries, prompt colours and screen contents: no property is claimed of them.
- ColumnGroups.OrderColumns: the merging of results into plan items and their reasons is left out; within a group equal columns keep the order of the plan instead of the order of session names, which decides nothing because such a group is refused. In a stretch that mixes two places of one workspace identifier the targets are taken by descending column over the whole stretch, where the source takes them place by place.
- ColumnOrder.Executor.ObserveWorkspace: answers come in the order of window identifiers, so the sort of each observation is left out.
- RecoveryServer.Handle: the status summary, frame decoding, deadlines and the limit of 128 connections are left out.
- The idle exit of the recovery service, its election lock and its socket file.
- ProcessTree.ProcessTable: reads are functions of the process number, so a process tree that changes during the walk is not modelled; parsing of stat and children files is left out.
- Zellij evidence from process arguments (`ObserveZellijSessionEvidence`) and the second identity check it makes.
- ShellWords.ShellReadsCommand: the tokenizer covers quoting and blanks; expansions and operators give no words instead of their meaning.
- AttachmentRelay.Relay.ServeClient: a failing write sends nothing instead of part of a frame; the two directions of a connection run one after the other; dialling and deadlines are left out.
- Probe connections of the relay: that only a frame of kind 4 is answered is a single branch.
- RecoveryCapture.BuildRecoveryInventory: the directory lookup is a table, and times have no zone.
- Hashes, JSON and the crash-durable write of a checkpoint: a file is identified by boot, host and profile.
- Checkpoints.Prune: a failing removal ends the run as in the source; the directory listing itself does not fail.
- Follow budgets, retry delays, pin validation, manual control, workspace resolution, port forwarding and clipboard upload: counters, plumbing and single-branch checks.
