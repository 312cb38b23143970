# Chatarium: a verified model of its journal and text cores

Chatarium keeps every conversation, route, tool call and worker order in one append-only journal. An
operation replays the journal, checks its guards, appends one or more durable events and replays again
to confirm. This project models that control plane and proves what every run keeps, wherever a crash
falls between two appends. It also models eight self-contained cores: calendar arithmetic, event-stream
framing, inline Markdown, case-folded excerpts, the transcript printer, the policy text, Base64 and the
bounded stream reader.

`dafny verify dfyconfig.toml` checks the whole project (Dafny 4.11).

## How the journal is modelled

- `events.dfy`, `core.dfy`: the typed events and the pure rules (worker lifecycle, control admission,
  route gate). The event with sequence number n is `j[n - 1]`.
- `replay.dfy`: the audits of `crates/store/src` as one fold. `Accepts` holds their checks, `Apply` their
  updates, and `Replay` fails closed on the first rejected event.
- `writer.dfy`: what each checked append writes and when it refuses (`Plan`). A `Step` is a command
  interrupted after at most `cut` appends, `After` the journal it leaves, and `Run` any sequence of steps.
  Session registration, container phases and successors are environment steps.
- `sound.dfy`, `safety.dfy`: the invariant, its preservation by every admitted event, and the proof that
  every event of every plan is admitted.
- `log.dfy`, `index.dfy`: the replayed state is an exact index of the journal, in both directions.
- `runs.dfy`, `routes.dfy`, `authority.dfy`, `control_actions.dfy`, `memories.dfy`, `readers.dfy`: the
  theorems about all runs.
- `uninterrupted.dfy`, `requests.dfy`, `acceptance.dfy`: what every command means, stated without `Plan`.
  In every run a command is accepted exactly when `Permits` holds, and an accepted one leaves exactly the
  state that `Honours` relates to the request, with everything else unchanged.
- `flows.dfy`, `refusals.dfy`: undisturbed protocols complete, and what a Deny, a status request or a stale
  session keeps from happening in every later run.
- `journal_ops.dfy`, `journal_appends.dfy`: the operations as methods over a mutable event store whose
  appends can fail at any point, proved to leave exactly the journal `After` says and never to report a
  disagreement on a legal journal; `Log.RunLegal` says that every run leaves a legal one, and `verdicts.dfy`
  what each verdict then means for the command.
- `protocol_stream.dfy`, `protocol_frames.dfy`: framing, and what a written frame says when it is read back.

What follows from the invariant is that several of the code's error paths cannot be reached from a
legal journal: the gate rebuilt before a dispatch always agrees, a Continue never meets ambiguous leases
or several open permits, no replay after an append disagrees with it, and the route-history guards are
implied by endpoint ownership.

Three properties fail on a family of inputs, and are stated with their exact condition. Set-then-get on a
policy target works from the empty text exactly for the targets a line can name (`SettableTargets`), and
setting a target leaves every other answer alone exactly for those targets (`SetIsolatesExactly`). Framing
is independent of chunking exactly for the streams without CR CR LF (`ChunkingExactly`).

## Model

| member | source | states |
|---|---|---|
| Log.RunNeverBricks | apps/desktop/src/journal_ops.rs:591-600 | After any commands, each cut off anywhere, the store's fail-closed replays accept the whole journal |
| Invariant.KeepsInv | README.md:125-128 | One admitted event keeps the invariant of all audits together |
| Safety.PlanAdmitted | README.md:125-128 | Whatever a command appends, each event passes the audits after the ones before it |
| Log.RunLegal | apps/desktop/src/journal_ops.rs:591-600 | In the journal of every run each event passed the audits and the writer's guards when it was appended |
| Log.StepLegal | crates/store/src/lib.rs:318-341 | An interrupted command leaves a journal whose every event was admitted; the journal only grows |
| Log.RecordsKept | crates/store/src/routing_audit.rs:158-340 | No later event changes what the replayed state records of an earlier one |
| Log.Recorded | crates/store/src/lib.rs:174-199 | The replayed state records every event of the journal at its own sequence number |
| Index.StateBacked | crates/store/src/lib.rs:174-199 | Whatever the replayed state records is an event of the journal at the recorded place |
| Runs.HappensOnce | apps/desktop/src/journal_ops.rs:481-628 | No proposal, payload, dispatch, delivery, binding, outcome, permit, control, action phase or execution occurs twice for the same identity |
| Runs.RestAppended | apps/desktop/src/journal_ops.rs:3497-3723 | From every durable prefix of its plan a resumable command appends exactly the rest |
| Runs.RetryCompletes | apps/desktop/src/journal_ops.rs:3497-3723 | A delivery, control dispatch or control action interrupted anywhere and retried ends in the journal of the uninterrupted run |
| RouteTheorems.DecisionIsLast | crates/store/src/routing_audit.rs:248-275 | The replayed decision of a route is the last one in the journal |
| RouteTheorems.GateFollowsDecisions | apps/desktop/src/journal_ops.rs:458-479 | The gate rebuilt from policy and latest decision equals the fold over all decisions; a dispatch is refused only while pending or denied |
| RouteTheorems.DeliveryHistory | apps/desktop/src/journal_ops.rs:481-628 | A delivered message has its proposal, payload and user-allowed dispatch before it, in this order, with the payload's own identity and conversations |
| RouteTheorems.AllowFollowsPayload | apps/desktop/src/journal_ops.rs:374-394 | Every Allow of a session message comes after its payload |
| RouteTheorems.DispatchAuthority | apps/desktop/src/journal_ops.rs:563-589 | A dispatch needs a latest user Allow, or a standing Allow with no user decision ever; nothing is decided afterwards |
| RouteTheorems.DecisionsAlternate | apps/desktop/src/journal_ops.rs:351-456 | Only undispatched approval routes are decided and no decision repeats the previous one |
| RouteTheorems.ExecutionNeedsBoundCall | apps/desktop/src/journal_ops.rs:800-920 | A dispatched tool route belongs to a call recorded, proposed and bound before it |
| RouteTheorems.AtMostOneExecution | apps/desktop/src/journal_ops.rs:1106-1423 | Once any executor left a dispatch, no later execution of the route appends anything, whatever happens in between |
| RouteTheorems.EndpointOwnedOnce | apps/desktop/src/journal_ops.rs:97-139 | An endpoint gets an owner at most once across sessions and providers |
| RouteTheorems.RouteEndsOwnedBefore | apps/desktop/src/journal_ops.rs:212-217 | Both ends of every proposed route were owned by an earlier event |
| RouteTheorems.HistoryGuardImplied | apps/desktop/src/journal_ops.rs:738-776 | An endpoint without an owner appears in no route, so the history guard never decides |
| Safety.ResolveFinds | apps/desktop/src/journal_ops.rs:524-545 | Looking an endpoint up through its owner is the directory search for the entry that has it |
| Safety.ApplyControlResumes | apps/desktop/src/journal_ops.rs:3539-3722 | After any durable phase the control action plans exactly the remaining phases |
| ControlActions.TransitionFollowsStart | apps/desktop/src/journal_ops.rs:3602-3683 | At the transition the worker has not moved since the start event and is in the phase recorded there |
| ControlActions.ActionInOrder | apps/desktop/src/journal_ops.rs:3539-3722 | Start, transition and result are durable in this order, with no lifecycle event of the worker between the first two |
| ControlActions.RetryPlansRemaining | apps/desktop/src/journal_ops.rs:3543-3722 | A retry is accepted exactly when the action is open and the worker stands where the start recorded it |
| ControlActions.RetrySurvivesOthers | apps/desktop/src/journal_ops.rs:3543-3722 | After any other events that leave the worker alone, a retry appends exactly what the action still owed |
| ControlActions.InterruptedIsRetriable | apps/desktop/src/journal_ops.rs:3543-3602 | A crash right after the start or the transition leaves a retriable action |
| Core.AdmissionEnablesAction | crates/core/src/control.rs:1-200 | An admissible mutating control always has its lifecycle transition and its resulting phase |
| Authority.SupervisionIsForest | apps/desktop/src/journal_ops.rs:1953-2105 | Conversations and workers are paired, no session is worker-bound and designated, supervision is one level deep |
| Authority.TenureIsChain | apps/desktop/src/journal_ops.rs:1855-1937 | The sessions a worker was active on are a contiguous predecessor chain without repetition that ends at the active one |
| Authority.AuthorityIsUnambiguous | apps/desktop/src/journal_ops.rs:2208-2228 | Per worker and goal at most one live lease and at most one open permit |
| Authority.ContinueNeedsOnlyAuthority | apps/desktop/src/journal_ops.rs:2376-2447 | A Continue is accepted exactly when the worker is working and a permit is open or a lease is live |
| Authority.AuthorityIsConserved | apps/desktop/src/journal_ops.rs:2208-2447 | Granted allowance equals consumed permits plus the open permit plus the unissued rest; executions never exceed consumed permits |
| Memories.LineageEnds | apps/desktop/src/journal_ops.rs:1629-1714 | Successors stay in one conversation, move strictly forward in recorded sequence and end at a memory without a successor |
| Memories.LineageSuffix | apps/desktop/src/journal_ops.rs:1629-1714 | The lineage of a later memory is a suffix of the one it lies on |
| Memories.LineagesDisjoint | apps/desktop/src/journal_ops.rs:1629-1714 | Two lineages that meet contain one another's start: supersession paths never merge |
| Memories.HeadIsUnique | apps/desktop/src/journal_ops.rs:1634-1696 | Memories of one lineage share one head in every run |
| Memories.NoAdmitAfterSupersession | apps/desktop/src/journal_ops.rs:1564-1576 | No Admit decision is appended for a memory after its supersession |
| Readers.MatchingIsUnique | apps/desktop/src/mcp_context_inventory.rs:57-66 | In a listing without duplicates the join finds exactly the recorded call |
| Readers.OutcomesMatchCalls | apps/desktop/src/mcp_result_review.rs:118-131 | Every outcome of every run matches its recorded call in identity and chronology |
| Readers.VerifiedInventory | apps/desktop/src/mcp_context_inventory.rs:29-112 | Returns all joined rows newest first, each agreeing in identities and chronology, or rejects exactly the inconsistent sets |
| Readers.InventoryNeverRejects | apps/desktop/src/mcp_context_inventory.rs:36-83 | No journal a run leaves behind is rejected by the inventory |
| Readers.RecentQueue | apps/desktop/src/mcp_result_review.rs:28-92 | Returns the owned results of the review window, undecided ones first and newest first, or blocks on exactly a disagreement |
| Readers.DecisionFixesStage | apps/desktop/src/mcp_result_review.rs:284-297 | A result over 64 KiB can not be admitted; otherwise its decision, or the lack of one, fixes its stage |
| Readers.CandidatesAreNewest | apps/desktop/src/mcp_result_review.rs:37-46 | An outcome outside the window of 16 is older than all in it |
| Readers.QueueNeverBlocks | apps/desktop/src/mcp_result_review.rs:47-73 | The review queue is available after every run for every provider and conversation |
| Requests.RequestHonoured | apps/desktop/src/journal_ops.rs:5-4010 | In every run an accepted uninterrupted command records exactly what it asked for (decision, text, operation and arguments, order, permit, allowance, phase) and changes nothing else |
| Requests.AlwaysOwned | apps/desktop/src/journal_ops.rs:2594-2746 | Controls are for workers with a lifecycle, delivered ones lie with the worker's conversation, and bound calls still own both ends of their route |
| Acceptance.AcceptedExactly | apps/desktop/src/journal_ops.rs:5-4010 | In every run each command is accepted exactly under the listed conditions; the other checks of the code never refuse anything |
| Verdicts.VerdictsMean | apps/desktop/src/journal_ops.rs:433-455 | For every method: refused exactly when not permitted, done exactly as asked, and otherwise a proper prefix of that is durable |
| Refusals.DecisionRecorded | apps/desktop/src/journal_ops.rs:433-449 | After an accepted decision on a message, call or control the latest decision in the journal is the given one and the gate follows it |
| Refusals.DenyHolds | apps/desktop/src/journal_ops.rs:458-628 | After a Deny no dispatch, delivery or result of the route is appended in any later run before an Allow is given |
| Refusals.CausesAreOrders | apps/desktop/src/journal_ops.rs:3539-3683 | Only start and stop controls cause lifecycle events |
| Refusals.RequestsMoveNothing | apps/desktop/src/journal_ops.rs:2449-2460 | A control proposed as a status request or a Continue never moves its worker, whatever runs later |
| Refusals.StaleCallNeverRuns | apps/desktop/src/journal_ops.rs:1170-1182 | Once the session of a call is saturated or replaced, no adapter ever executes the call |
| Flows.MessageCompletes | apps/desktop/src/journal_ops.rs:162-628 | From every reachable journal an allowed message between addressable conversations is delivered with its text to their current sessions |
| Flows.ToolCallCompletes | apps/desktop/src/journal_ops.rs:800-1215 | From every reachable journal an authorised call is recorded with the operation and arguments asked for, dispatched once, and its result recorded |
| Flows.FirstApplicationCompletes | apps/desktop/src/journal_ops.rs:3539-3722 | Applying an acknowledged, unstarted, fitting start or stop order appends start, transition and result and leaves the worker working or stopped |
| Flows.StartCompletes | apps/desktop/src/journal_ops.rs:2252-3723 | From every reachable journal an allowed start order reaches the worker and sets it to work |
| Flows.StopCompletes | apps/desktop/src/journal_ops.rs:2252-3723 | From every reachable journal an allowed stop order stops the worker from any phase that is not terminal |
| Flows.ContinueCompletes | apps/desktop/src/journal_ops.rs:2369-3870 | From every reachable journal an allowed Continue with authority left ends in one execution under its own permit |
| JournalOps.EventStore.Append | crates/store/src/lib.rs:318-341 | Appends one event with the next sequence number or changes nothing |
| JournalOps.Perform | apps/desktop/src/journal_ops.rs:481-628 | Any command, event by event: leaves the planned journal or a prefix of it, never a disagreement |
| JournalOps.DispatchRoute | apps/desktop/src/journal_ops.rs:563-589 | Appends the dispatch of an allowed route or reports the durable one |
| JournalOps.AppendDispatchAndDelivery | apps/desktop/src/journal_ops.rs:481-628 | Leaves dispatch and delivery, or a durable prefix; the comparisons after each append never fail |
| JournalOps.AppendControlDispatch | apps/desktop/src/journal_ops.rs:2594-2746 | Leaves dispatch and worker delivery, or a durable prefix; the comparisons never fail |
| JournalOps.AppendBuiltinResult | apps/desktop/src/journal_ops.rs:1106-1215 | Dispatches before it records; succeeds exactly for an executable call with a recordable result and room for both |
| JournalOps.AppendControlAction | apps/desktop/src/journal_ops.rs:3497-3723 | Leaves the missing phases of the action, or a durable prefix; the comparisons never fail |
| JournalOps.AuthorizeControl | apps/desktop/src/journal_ops.rs:2369-2467 | Chooses the control that carries the order asked for; a new permit is durable even if the proposal stops there |
| JournalOps.AppendControlProposal | apps/desktop/src/journal_ops.rs:2252-2507 | Leaves the optional permit and the four proposal events, or a durable prefix |
| JournalAppends.AppendTopology | apps/desktop/src/journal_ops.rs:5-70 | Leaves session, container and binding, or a durable prefix of them |
| JournalAppends.AppendPayload | apps/desktop/src/journal_ops.rs:239-349 | Attaches one payload to an undispatched session route whose ends are live and differ; the comparison never fails |
| JournalAppends.AppendMessageDecision | apps/desktop/src/journal_ops.rs:351-456 | Appends the decision given, one that changes the latest one, an Allow only behind the payload; the comparison of decision and gate never fails |
| JournalAppends.AppendToolCall | apps/desktop/src/journal_ops.rs:800-920 | Leaves the call with the operation and arguments given, its proposal and binding, or a durable prefix; the comparisons never fail |
| JournalAppends.ReserveExecution | apps/desktop/src/journal_ops.rs:1220-1423 | Leaves the dispatch of an executable call before any adapter acts, or nothing |
| JournalAppends.AppendSupersession | apps/desktop/src/journal_ops.rs:1629-1714 | Links two memories of one conversation, older before newer, neither linked that way already |
| JournalAppends.AppendWorkerSession | apps/desktop/src/journal_ops.rs:1824-1951 | Binds the worker to the current session, first or as direct successor of its active one |
| JournalAppends.AppendContinuationLease | apps/desktop/src/journal_ops.rs:2107-2250 | Grants a lease only where no live lease and no open permit exist |
| JournalAppends.AppendExecutionStart | apps/desktop/src/journal_ops.rs:3725-3870 | Starts the one execution of an acknowledged Continue while the worker is working |
| JournalOps.OutcomeFollowsDispatch | apps/desktop/src/journal_ops.rs:1197-1215 | After the dispatch the prepared result is recordable exactly when it is not too large |
| Gregorian.DayNumberCounts | apps/desktop/src/local_tool_adapter.rs:359-378 | The reference day number counts calendar days from 1970-01-01 |
| Gregorian.YearOfEraCorrect | apps/desktop/src/local_tool_adapter.rs:365-369 | The year formula finds the March-based year that contains the day of the era |
| Gregorian.ConvertInverts | apps/desktop/src/local_tool_adapter.rs:359-378 | Every second count converts to a valid date-time that converts back to exactly that count |
| Gregorian.ConvertIncreases | apps/desktop/src/local_tool_adapter.rs:359-378 | The field tuple is strictly increasing in the input |
| Gregorian.NoOverflow | apps/desktop/src/local_tool_adapter.rs:359-378 | No intermediate value leaves i64 for any i64 input |
| Gregorian.TimestampIsRfc3339 | apps/desktop/src/local_tool_adapter.rs:373-378 | In years 0000 to 9999 the text is a date-time of section 5.6 of RFC 3339 with exactly the converted fields |
| Gregorian.FourDigitYears | apps/desktop/src/local_tool_adapter.rs:359-378 | The years 0000 to 9999 are exactly the seconds from -62167219200 up to 253402300799 |
| ProtocolStream.Stream.Feed | browser/flight-recorder.user.js:625-651 | Consumes every complete frame of the buffer in order and keeps the rest |
| ProtocolStream.Capture | browser/flight-recorder.user.js:837-868 | Feeding the decoded chunks one by one ends in the chunk-wise fold |
| ProtocolStream.NormalizeAppends | browser/flight-recorder.user.js:626-626 | Normalising line ends chunk by chunk is normalising the whole, unless a CR CR LF occurs |
| ProtocolStream.ChunkingIsIrrelevant | browser/flight-recorder.user.js:625-651 | Any split of a stream without CR CR LF gives the same frames in the same order and the same final state |
| ProtocolStream.ChunkingExactly | browser/flight-recorder.user.js:625-651 | Every way to split a stream gives the same frame texts and the same leftover buffer exactly when it has no CR CR LF |
| ProtocolStream.WalHoldsTail | browser/flight-recorder.user.js:1031-1067 | The log holds the last 500000 units of the text since the last replacement, and its true length |
| ProtocolFrames.FrameReadsBack | browser/flight-recorder.user.js:635-649 | A written frame reads back as its last event name and its data lines joined by line feeds; comments and unknown fields say nothing |
| ProtocolFrames.StreamReadsBack | browser/flight-recorder.user.js:625-651 | Any chunks of a stream of written frames, with LF or CR LF line ends, are observed as exactly what the frames say |
| ProtocolFrames.DoneStreamFinishes | browser/flight-recorder.user.js:576-590 | The line `data: [DONE]` and a blank line, in any chunks, finish the stream |
| ProtocolFrames.OnlyDeltasChange | browser/flight-recorder.user.js:576-623 | Only delta frames extend or replace the message, and only the end marker finishes the stream |
| InlineMarkdown.Output.Push | apps/desktop/src/markdown_inline.rs:21-42 | Extends the last span of the same style or opens a new one; an empty text changes nothing |
| InlineMarkdown.Output.Append | apps/desktop/src/markdown_inline.rs:44-106 | Pushes the pieces of the input at most eight levels deep |
| InlineMarkdown.ParsedIsCanonical | apps/desktop/src/markdown_inline.rs:21-112 | No span is empty and adjacent spans differ in style |
| InlineMarkdown.ParsedDropsOnlyMarks | apps/desktop/src/markdown_inline.rs:44-112 | The text of a parse is the input without some backslashes and delimiter characters |
| InlineMarkdown.EscapeRoundTrip | apps/desktop/src/markdown_inline.rs:44-112 | Parsing the escaping of a non-empty text gives it back as one plain span |
| InlineMarkdown.WrappedParses | apps/desktop/src/markdown_inline.rs:44-106 | Unmarked text between two equal delimiters parses to one bold, italic, struck or code span, as the delimiter says |
| ArchiveSnippet.LocalSnippet | apps/desktop/src/local_archive_search.rs:227-277 | Returns an excerpt exactly when a non-empty query occurs, around the tight cover of its first occurrence |
| ArchiveSnippet.Locate | apps/desktop/src/local_archive_search.rs:235-256 | The scan finds the run of characters whose folds cover the match |
| ArchiveSnippet.CoverIsTightest | apps/desktop/src/local_archive_search.rs:235-256 | Any run of characters covering the match contains the found one |
| ArchiveSnippet.ExcerptLimits | apps/desktop/src/local_archive_search.rs:257-276 | The excerpt shows at most 49 characters before and 96 after the match, an ellipsis exactly where text was left out, and marked line ends |
| Text.NormalizedIsUnified | apps/desktop/src/native_transcript_export.rs:90-90 | The two replacements turn every CR LF, CR and LF into one LF and change nothing else |
| Transcript.Markdown | apps/desktop/src/native_transcript_export.rs:40-98 | The printed text is exactly the document lines |
| Transcript.HeadingParses | apps/desktop/src/native_transcript_export.rs:79-85 | A heading determines its role and event number |
| Transcript.TitleReadsBack | apps/desktop/src/native_transcript_export.rs:28-75 | The title line gives the safe title back |
| Transcript.HeadingNames | apps/desktop/src/native_transcript_export.rs:10-17 | Each role has its name in the headings |
| Transcript.ExportReadsBack | apps/desktop/src/native_transcript_export.rs:28-98 | For any title and texts the `## ` lines are exactly the role headings in order and the quotes below them give back the normalised texts |
| PolicyText.ToolPolicy | apps/desktop/src/mcp_agent_defaults.rs:115-135 | The line scan computes the answer of the rules, with its three errors |
| PolicyText.SetToolPolicyRule | apps/desktop/src/mcp_agent_defaults.rs:139-166 | Replaces the first rule of the target, drops its others, keeps every other line |
| PolicyText.SetThenGet | apps/desktop/src/mcp_agent_defaults.rs:115-166 | After setting a well-formed target its answer is the chosen mode, unless a line is malformed |
| PolicyText.SetKeepsOthers | apps/desktop/src/mcp_agent_defaults.rs:139-166 | Setting a target never changes the answer for another one, whatever the text |
| PolicyText.WrittenRules | apps/desktop/src/mcp_agent_defaults.rs:115-135 | A written rule has the mode its word names, and a target without a rule asks |
| PolicyText.SettableTargets | apps/desktop/src/mcp_agent_defaults.rs:115-166 | Set-then-get works from the empty text exactly for the well-formed targets |
| PolicyText.SetIsolatesExactly | apps/desktop/src/mcp_agent_defaults.rs:139-166 | Setting leaves every other answer alone, in every text, exactly for the well-formed targets |
| PolicyText.AppendMissingDefaults | apps/desktop/src/mcp_agent_defaults.rs:90-111 | Appends one rule for every registered tool the text does not name |
| PolicyText.FillGivesDefault | apps/desktop/src/mcp_agent_defaults.rs:90-111 | A registered tool that the text does not name gets its own default |
| PolicyText.FillKeepsOthers | apps/desktop/src/mcp_agent_defaults.rs:90-111 | Filling in defaults never changes a target already present or not registered |
| PolicyText.FillIsIdempotent | apps/desktop/src/mcp_agent_defaults.rs:90-111 | Filling in defaults twice is filling them in once |
| PolicyText.ValidateRules | apps/desktop/src/mcp_agent_defaults.rs:169-205 | Accepts exactly the valid texts; on them every answer is the unique-key lookup, Ask by default, never an error |
| Base64.EncodeBase64 | apps/desktop/src/attachment_intake.rs:170-191 | The chunk loop computes the encoding three bytes at a time |
| Base64.EncodedLength | apps/desktop/src/attachment_intake.rs:170-191 | Four characters for every three bytes begun |
| Base64.DecodeInverts | apps/desktop/src/attachment_intake.rs:170-191 | The decoder of section 4 of RFC 4648 recovers the exact bytes of every input |
| Base64.EncodeInverts | apps/desktop/src/attachment_intake.rs:170-191 | Every canonical text is the encoding of what it decodes to |
| Base64.EncodeDistributes | apps/desktop/src/attachment_intake.rs:170-191 | Encoding distributes over concatenation at multiples of three |
| ShellStream.ReadStream | apps/desktop/src/host_shell_mcp.rs:215-267 | Keeps exactly the last bytes of the stream and logs exactly its first 64 MiB while writes succeed |
| ShellStream.BoundaryIsCharacterEnd | apps/desktop/src/host_shell_mcp.rs:270-276 | The byte boundaries of an encoded text are exactly the ends of its characters |
| ShellStream.TailIsText | apps/desktop/src/host_shell_mcp.rs:270-276 | Cutting at the next boundary leaves the longest character suffix that drops at least the given bytes |
| ShellStream.ShrinkExcerpts | apps/desktop/src/host_shell_mcp.rs:369-387 | Ends with a reply within the bound or both excerpts empty; leaves a fitting reply alone |

## Left out

- JSON encoding, scopes, labels, timestamps and error texts: an event is its decoded payload and a refusal has no message.
- Allocation of fresh identities (`next_available_*`): they are command parameters guarded by freshness.
- Adapter eligibility, argument parsing and the legacy call envelope: Boolean parameters, so the theorems hold for all their outcomes.
- An append that is durable although it reports a failure inside one process: a failing append leaves nothing.
- `append_agent_mcp_call_checked`: a composition of steps that are modelled one by one; it is not atomic in the source either.
- Context decisions on delivered messages, on worker results and on coordination results, coordination suggestions, memory labels, message turns and status or execution results: their appends follow patterns already modelled.
- Controls issued directly by the user and the configured stdio executor: their appends are not among the modelled commands.
- Control actions other than start and stop are refused by the action path, as in the source; status requests are admitted and delivered only.
- JournalOps.Perform: the remaining operations that append one event (endpoints, providers, memories and their decisions, designation, supervision, decisions on calls and controls, acknowledgements and goals) have no method of their own and run through this one.
- Invariant.KeepsInv: the invariant is chosen for the theorems here and does not restate every check of the audits.
- Readers.VerifiedInventory: the library sort is modelled by an insertion sort with the same order; rows with equal keys cannot occur in a consistent set.
- ProtocolStream.WalHoldsTail: one stream writes the log; other writers of the same storage key and failing storage are not modelled.
- ProtocolStream.Stream.Feed: frame fields follow the code, which trims event names and knows only event and data lines; the other fields of the standard are ignored.
- Gregorian.TimestampIsRfc3339: negative years and years beyond 9999 print as the formatter does but are not RFC 3339 texts.
- ShellStream.ReadStream: reads, log creation and log writes are inputs; a write that fails may leave part of its chunk in the file, which the source does not count either.
- ShellStream.ShrinkExcerpts: the JSON length is an arbitrary function of the two excerpts.
- ArchiveSnippet.LocalSnippet: lowercasing tables are parameters; that a context-dependent fold has the same UTF-8 length as the context-free one is a property of Unicode (final sigma) that the model takes as given.
- Settings files and their migrations, `parse_model_tool_request`, rendering, sockets, subprocesses and browser capture limits.
