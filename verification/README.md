# Cyber AI System: verified model of its state machines

The repository is an assistant that plans and carries out diagnostic work under human supervision. These modules model
the parts whose correctness is about whole runs, and prove what those parts promise.

**The agent orchestrator.** A task goes through 17 phases. Each step asks a reasoner for one action, passes it through a
gate, asks an operator where the kind of action demands it, executes it and recovers from failures, within budgets. The
reasoner's decisions and the services' answers are arbitrary input. `AgentTask` gives every operation as a function of
the task's value; `AgentOrchestrator` is the object form, in which methods update a task's fields, and each method is
proved equal to its function. `AgentInvariants`, `AgentControl`, `AgentSafety`, `AgentApprovals`, `AgentScope`,
`AgentRest`, `AgentLedger` and `AgentFleet` hold the theorems about all runs, `AgentEffects` what each operation and
each kind of action brings about, with the texts written out, `AgentSnapshot`, `AgentSnapshotLaws` and `AgentLockstep`
the JSON snapshot and the database registry.

**Installation, policy and the terminal engine.** `ToolTrust` and `ToolTrustLaws` cover how a tool becomes trusted,
`Installation`, `InstallationService` and `InstallationRuns` the request with its bounded retries and separate
verification, `Policy` and `Terminal` the gate in front of every process, `CommandTemplates` the commands, and
`CommandReading` an independent reader of them. `InstallationLaws` says what each step of a request does,
`InstallationEnds` how requests end and fail to, `InstallationLaunches` accounts for every process started,
`AgentSystem` and `AgentSystemSafety` do so for orchestrator, installer and engine together.

**The Termux connection protocol.** `TermuxPairing`, `TermuxMessages`, `TermuxConnection` and `TermuxRuns`, `TermuxWire`
in terms of the JSON values sent, and `TermuxAccess` on who gets in: many devices, concurrent commands, disconnects,
timeouts and cancellations; `CappedOutput`, `ConnectorText` and `Utf8` the capped text and byte streams.

**Two smaller services.** `Discovery` (cache, lock and throttle) and `SelfHealing` (bounded proposals).

Each part has the same build: values as datatypes, the effect of an operation as a function, classes with fields where
the source updates objects, methods whose postconditions equate the new state with the function, and lemmas about the
functions for all runs. An operation that awaits is cut at its awaits where other calls can come in between: the Termux
calls, `discover`, and `start_installation` around the engine.

## Findings

- `reject` while a start call waits for the engine, or `cancel` while it verifies, makes a request terminal although the
  call goes on; the call then overwrites the state. `InstallationEnds.FinalExactly` says when a terminal state is final,
  `InstallationRuns.RejectedYetInstalled` that the other case occurs, `TerminalStatesAbsorb` what holds when operators
  do not do this.
- When the engine raises during an attempt, the entry of the running command stays in its table and the request stays
  INSTALLING: `cancel` then changes nothing, for ever, and only `reject` ends the request.
  `InstallationEnds.CancelsExactly`, `StaleExactly` and `StaleForever` say exactly when, `RaisedThenCancelled` gives the
  run.
- A discovery search that raises or is cancelled leaves no trace in the cache or the throttle, so it can be repeated at
  once (`Discovery.AbortedSearchRepeats`); `SearchesAreSpaced` says that this and a clearing are the only exceptions to
  the spacing.
- The discovery cache is keyed by the normalised text but the provider gets the text as it came;
  `Discovery.TransparentExactly` says when that is visible.
- A step whose provider, environment or registry raises an unexpected exception before the reasoner answers changes
  nothing, so the budgets do not bound the number of such calls until the duration is over. `AgentRest.StuckExactly`
  says which calls these are, `NowhereExactly` that any number of them gets nowhere, `ComesToRest` and `TimeIsUp` what
  bounds the rest.
- `pause` and `resume` between an approval and the next step lose the approval for good: the action stays approved and
  pending, but the reasoner is asked for another one (`AgentApprovals.ApprovalTakesEffectExactly`, `ApprovalLost`,
  `LostForGood`).
- The connector decodes every chunk it forwards on its own, so output is garbled exactly when a forwarded piece begins
  inside a character; a split beyond its cap does no harm (`ConnectorText.PumpFaithfulExactly`, `SplitLetter`). The
  local process reader decodes once, at the end.
- The documentation of `handle_inbound_message` says that only malformed messages raise, and raise
  `MalformedMessageError`. A type that is a list or an object raises `TypeError`, a command id that is truthy but no
  text `AttributeError`, one that is no UUID `ValueError`, exactly as `TermuxMessages.RaisesExactly` says; the gateway
  does not catch these, so one such message takes the device's connection down (`TermuxRuns.ConnectionSurvivesExactly`).
  The model follows the code.
- The policy gate's documentation lists `COLLECT_INFORMATION` neither as read-only nor as gated; the code runs it like a
  diagnostic, without approval unless the decision asks for it, and without the task being authorised
  (`AgentApprovals.ApprovedExactly`, `CollectsUnapproved`).
- `installation_count` is not incremented when the installation call raises
  (`AgentInvariants.InstallationCountedExactly`), so its budget does not bound the installations requested; the actions
  do (`AgentSystemSafety.RequestsBounded`).
- The install command for dnf joins name and version with a hyphen, which names may contain, so it does not tell the
  package `tool` at version 1 from the package `tool-1` (`CommandReading.DnfIsAmbiguous`); where any other manager pins
  a version, the command determines name and version (`InstallRoundTrip`).
- The patterns of the command templates end in a dollar sign, which also matches before a final line feed, so a text
  that ends in one is accepted and passed on with it (`CommandReading.NamesExactly`).

## Model

| member | source | states |
|---|---|---|
| `Utf8.SubpartOfEncoded` | services/termux/connection_manager.py:91 | an encoded character is one complete subpart for the decoder, whatever follows: overlong forms, surrogates and values past U+10FFFF are what its byte ranges exclude (section 3 of RFC 3629) |
| `Utf8.DecodeCutChar` | services/termux/connection_manager.py:91 | a character cut short decodes to exactly one U+FFFD (section 3.9 of the Unicode Standard) |
| `Utf8.DecodeEncodedPrefix` | services/termux/connection_manager.py:91 | whole characters decode to themselves whatever bytes follow them |
| `Utf8.DecodeEncode` | services/termux/connection_manager.py:91 | decoding undoes encoding |
| `Utf8.TruncatedShape` | services/termux/connection_manager.py:90-91 | `encode()[:n].decode("replace")` is the text itself if it fits, otherwise the whole characters that fit and one U+FFFD unless the cut falls between characters |
| `Utf8.TruncatedBytes` | services/termux/connection_manager.py:90-101 | what is kept of an overflowing text encodes to n, n + 1 or n + 2 bytes |
| `CappedOutput.AcceptHolds` | services/termux/connection_manager.py:76-101 | one `append` turns the one-shot text of what came before into the one-shot text of everything |
| `CappedOutput.AcceptAllIsOneShot` | services/termux/connection_manager.py:76-101 | accumulating any messages keeps exactly `encode(all)[:cap].decode("replace")`; the counter is the UTF-8 length of the kept chunks and at most cap + 2 |
| `CappedOutput.TruncatedExactly` | services/termux/connection_manager.py:84-95 | the truncated flag is set exactly when the cap is exceeded or a message, even an empty one, met a full buffer |
| `CappedOutput.AbsorbIsPrefix` | services/terminal/adapters/local_process.py:48-70 | for every chunking the loop holds exactly the first `max_bytes` bytes and has flagged excess iff more was read |
| `CappedOutput.CappedReader.ReadAll` | services/terminal/adapters/local_process.py:48-70 | drains the pipe to its end, keeps exactly the first `max_bytes` bytes, and sets `exceeded` iff the stream is longer |
| `CappedOutput.PumpedAll` | apps/termux_connector/cyberai_termux.py:203-235 | the connector's pump forwards the same byte prefix under its own cap and flags truncation iff the stream is longer |
| `CappedOutput.Pump` | apps/termux_connector/cyberai_termux.py:203-235 | drains the stream; the texts sent are the pieces of the capped prefix, each decoded on its own; counter and flag agree with the prefix |
| `ConnectorText.DecodeAtLeast` | apps/termux_connector/cyberai_termux.py:230 | decoding gives at least one character per lead byte, and one more when the bytes begin inside a character |
| `ConnectorText.AlignedIsFaithful` | apps/termux_connector/cyberai_termux.py:207-235 | if no piece begins inside a character, the texts sent add up to the text written |
| `ConnectorText.FaithfulExactly` | apps/termux_connector/cyberai_termux.py:207-235 | the texts sent add up to the text written iff no piece begins inside a character; otherwise they are longer |
| `ConnectorText.PumpFaithfulExactly` | apps/termux_connector/cyberai_termux.py:203-235 | for every way its reads cut the output and every cap, the pump sends the text cut at the cap (the whole characters that fit, one U+FFFD if the cap falls inside one) iff no forwarded piece begins inside a character, and a longer text otherwise |
| `ConnectorText.SplitCharacter` | apps/termux_connector/cyberai_termux.py:230 | any character of more than one byte that a read cuts after k bytes arrives as one U+FFFD and one more for each remaining byte |
| `ConnectorText.SplitLetter` | apps/termux_connector/cyberai_termux.py:230 | at one input: U+00E9 split between two reads arrives as two U+FFFD |
| `ConnectorText.EndToEnd` | services/termux/connection_manager.py:76-101 | from the process on the device to the result on the server: with no forwarded piece beginning inside a character, the accumulated text is what was written, cut at the device's cap and then at the server's; within both caps it is unflagged and complete |
| `TermuxPairing.PairingService.RegisterDevice` | services/termux/pairing.py:95-118 | a new device waits for pairing with one pending code and no token |
| `TermuxPairing.PairingService.ConfirmPairing` | services/termux/pairing.py:120-138 | an expired code is removed and refused, a wrong one refused and kept; the right one is used up, a token hash stored, the device AUTHORIZED |
| `TermuxPairing.PairingService.RevokeDevice` | services/termux/pairing.py:151-158 | the device is REVOKED, its token hash and pending code are gone |
| `TermuxPairing.PairingService.MarkConnected` | services/termux/pairing.py:160-164 | the device is CONNECTED |
| `TermuxPairing.PairingService.MarkDisconnected` | services/termux/pairing.py:166-171 | only a CONNECTED device becomes DISCONNECTED |
| `TermuxConnection.PendingCommand.Append` | services/termux/connection_manager.py:76-101 | updates exactly the chunk list, byte counter and flag of the named stream as one `Accept` |
| `TermuxConnection.TermuxConnectionManager.HandleConnect` | services/termux/connection_manager.py:132-142 | a failed authentication stores no transport; a good one stores it and marks the device connected |
| `TermuxConnection.TermuxConnectionManager.HandleDisconnect` | services/termux/connection_manager.py:144-162 | drops the transport and fails exactly the pending, unresolved commands of that device; for an unknown device the error comes after the transport is gone |
| `TermuxConnection.TermuxConnectionManager.FailLost` | services/termux/connection_manager.py:149-162 | the loop fails and unlists each pending command of the device and no other |
| `TermuxConnection.TermuxConnectionManager.ExecuteStart` | services/termux/connection_manager.py:172-184 | with no transport nothing happens; otherwise a new pending command is listed |
| `TermuxConnection.TermuxConnectionManager.ExecuteSendFails` | services/termux/connection_manager.py:190-199 | a failed send leaves the pending entry behind |
| `TermuxConnection.TermuxConnectionManager.ExecuteSent` | services/termux/connection_manager.py:190-200 | after the send the call waits |
| `TermuxConnection.TermuxConnectionManager.ExecuteResume` | services/termux/connection_manager.py:202-243 | returns the future's result and unlists the command |
| `TermuxConnection.TermuxConnectionManager.ExecuteTimeout` | services/termux/connection_manager.py:204-218 | returns the partial output marked timed out and unlists the command |
| `TermuxConnection.TermuxConnectionManager.ExecuteCancelled` | services/termux/connection_manager.py:219-225 | a cancelled call unlists its command |
| `TermuxConnection.TermuxConnectionManager.HandleInboundMessage` | services/termux/connection_manager.py:253-290 | malformed, unparsable, stale and foreign messages change no command; others reach exactly their own command, with the effect of `TermuxWire.MessageMeans` |
| `TermuxConnection.TermuxConnectionManager.Dispatch` | services/termux/connection_manager.py:276-290 | each message type appends to its stream or resolves, as `TermuxWire.MessageMeans` says of the type texts |
| `TermuxConnection.TermuxConnectionManager.Resolve` | services/termux/connection_manager.py:292-315 | resolves once, with all output so far and the error message appended uncapped |
| `TermuxRuns.RunSound` | services/termux/connection_manager.py:132-162 | in every run a token is stored iff the device is AUTHORIZED, CONNECTED or DISCONNECTED, a pending code means PAIRING_REQUIRED and no token, and CONNECTED implies a transport |
| `TermuxRuns.AuthenticatedExactly` | services/termux/pairing.py:140-149 | in every reachable state a token authenticates a device iff its hash is the one stored for it |
| `TermuxMessages.RaisesExactly` | services/termux/connection_manager.py:253-275 | over all JSON values: something other than MalformedMessageError is raised iff the value is typed and its type is a list or an object, or its command id is truthy and does not read as a UUID; which of TypeError, AttributeError and ValueError, and when MalformedMessageError, each by an iff |
| `TermuxMessages.ListAsType` | services/termux/connection_manager.py:265 | at one input: a type that is a list raises TypeError |
| `TermuxMessages.NumberAsId` | services/termux/connection_manager.py:271 | at one input: a command id that is a number raises AttributeError |
| `TermuxMessages.WordAsId` | services/termux/connection_manager.py:271 | at one input: a command id that is a text but no UUID raises ValueError, whatever the message's type |
| `TermuxRuns.ConnectionSurvivesExactly` | apps/api/app/ws/termux_gateway.py:86-99 | whatever a device sends, it stays connected iff none of it raises an exception other than MalformedMessageError; the first that does takes the connection down, and no command of the device is pending any more |
| `TermuxRuns.RaisingMessagesChangeNothing` | services/termux/connection_manager.py:253-275 | any run ends as the run without its raising messages does |
| `TermuxRuns.RevokedForever` | services/termux/pairing.py:151-158 | REVOKED is absorbing: no run gets the device authenticated again |
| `TermuxRuns.PairedAtMostOnce` | services/termux/pairing.py:120-138 | a device is paired at most once in any run |
| `TermuxRuns.TokensAreGranted` | services/termux/pairing.py:132-138 | every stored token hash was issued by a confirmation with the device's own, unexpired code |
| `TermuxRuns.Isolation` | services/termux/connection_manager.py:144-315 | whatever is interleaved, a command's state is the fold of its own events (its device's messages with its id, its device's disconnects, its own call) |
| `TermuxRuns.FutureSetOnce` | services/termux/connection_manager.py:292-301 | a future, once set, is never set again |
| `TermuxRuns.SoloExplained` | services/termux/connection_manager.py:169-315 | for every sequence of own events the result is the closed form: streams up to the first terminal event, partial output at a timeout |
| `TermuxRuns.CommandOutcome` | services/termux/connection_manager.py:169-315 | for every interleaving over any devices, the outcome of a command is determined by its own messages up to the first terminal event; foreign, stale and later messages change nothing |
| `TermuxWire.MessageMeans` | services/termux/connection_manager.py:253-315 | over JSON values with the type texts written out, for a command that is listed and not resolved: `stdout` and `stderr` extend exactly their own stream, `command_completed` sets SUCCEEDED with the exit code given or 0, `command_failed` FAILED with the exit code given or none and stderr followed by the error text; any other type changes nothing, and no other command changes |
| `TermuxWire.WireOutcome` | services/termux/connection_manager.py:169-315 | the same over runs: in every interleaving of JSON values, disconnects, timeouts and cancellations, the result a call returns is the closed form over the list of its own values, up to the first that says completed or failed |
| `TermuxAccess.RightCodePairs` | services/termux/pairing.py:95-138 | a registered device that was left alone since is paired iff the presented code is its own and not late; then exactly the token handed out authenticates; a late code is used up, a wrong one changes nothing |
| `TermuxAccess.TokenLasts` | services/termux/pairing.py:132-158 | a token that authenticates goes on doing so in every run without a revocation of its device |
| `TermuxAccess.ConnectMeans` | services/termux/connection_manager.py:132-142 | a connection opens iff the token authenticates the device |
| `TermuxAccess.ConnectionsAreAuthenticated` | services/termux/connection_manager.py:132-162 | over every run, a transport that is stored was opened by a presented token that authenticated then, and no disconnect has come since |
| `Text.NormalizeIdempotent` | services/tools/discovery.py:59-61 | a normalised capability is its own normal form |
| `Text.LowerMeans` | services/tools/discovery.py:59-61 | two texts are lowered alike iff they differ in the case of letters only |
| `Text.StripMeans` | services/agent_orchestrator/policy_gate.py:57 | trimming removes the blanks on both sides and nothing else |
| `Text.NormalizeMeans` | services/tools/discovery.py:59-61 | two capabilities have the same key iff they consist of the same words but for the case of letters |
| `Discovery.ToolDiscoveryService.DiscoverBegin` | services/tools/discovery.py:63-71 | the first check: empty keys and fresh entries return at once, others queue for the lock |
| `Discovery.ToolDiscoveryService.DiscoverLocked` | services/tools/discovery.py:73-83 | the second check under the lock: return, sleep or search |
| `Discovery.ToolDiscoveryService.MinWaitSeconds` | services/tools/discovery.py:108-111 | how long the throttle still has to wait, never negative |
| `Discovery.ToolDiscoveryService.DiscoverFound` | services/tools/discovery.py:85-106 | the entry is stored under the normalised key with a full TTL, and the lock freed |
| `Discovery.ToolDiscoveryService.DiscoverAborts` | services/tools/discovery.py:73-90 | an exception or cancellation frees the lock and stores nothing |
| `Discovery.ToolDiscoveryService.ClearCache` | services/tools/discovery.py:113-114 | forgets every entry |
| `Discovery.SearchesAreSpaced` | services/tools/discovery.py:63-111 | for every interleaving, of any two searches the later starts at least the minimum interval after the earlier ended, and for the same key a full TTL after it ended or after a clearing, unless the earlier one was aborted; at most one is under way |
| `Discovery.AbortedSearchRepeats` | services/tools/discovery.py:85-90 | the exception for aborted searches happens under every configuration: a search that raises or is cancelled can be repeated at the same moment |
| `Discovery.ClearedSearchRepeats` | services/tools/discovery.py:108-114 | after a clearing the key is searched again exactly the minimum interval later, however long the TTL |
| `Discovery.RunTransparent` | services/tools/discovery.py:63-106 | with a provider that respects normalisation every returned list is a direct search's |
| `Discovery.WrongAnswer` | services/tools/discovery.py:64-90 | with any other provider and a positive TTL there is a run that returns a list no direct search of the asked text gives |
| `Discovery.TransparentExactly` | services/tools/discovery.py:64-90 | the cache is transparent in all runs iff the TTL is not positive or the provider respects normalisation |
| `Discovery.HitsExactly` | services/tools/discovery.py:63-106 | over every interleaving a call is answered from the cache iff a search of its key ended less than a TTL ago and the cache was not cleared since, and the answer is what the latest such search found |
| `SelfHealing.HealingHistoryStore.Record` | services/self_healing/history.py:33-34 | appends the attempt |
| `SelfHealing.HealingHistoryStore.UpdateOutcome` | services/self_healing/history.py:46-52 | changes outcome and note of the first attempt with that id and nothing else |
| `SelfHealing.SelfHealingEngine.Heal` | services/self_healing/engine.py:50-83 | records exactly the proposal made from the task's own earlier attempts |
| `SelfHealing.TasksAreIndependent` | services/self_healing/engine.py:59-68 | what is proposed for a task depends on that task's own calls only, whatever else is interleaved |
| `SelfHealing.ProposedParameters` | services/self_healing/planner.py:65-90 | the timeout multiplier and the backoff, as functions of the retries used |
| `SelfHealing.ProposalTable` | services/self_healing/planner.py:31-126 | which category gets which strategy, with the category texts written out, and when it is given up |
| `SelfHealing.BackoffDoubles` | services/self_healing/planner.py:79-90 | the backoff begins at its base and doubles with each retry used |
| `SelfHealing.MultiplierDoubles` | services/self_healing/planner.py:65-77 | the timeout multiplier begins at two and doubles up to its maximum |
| `SelfHealing.ProposeWithinBounds` | services/self_healing/planner.py:65-90 | backoff is at most base * 2^(max_retries - 1) and the multiplier at most its maximum |
| `SelfHealing.ProposeIsCautious` | services/self_healing/planner.py:31-126 | without a person only a bounded retry, a longer timeout or giving up is proposed; a policy refusal goes to a person or is abandoned; what touches the system is checked against policy again |
| `SelfHealing.ProposalsAreBounded` | services/self_healing/planner.py:31-126 | over any history each task and category gets at most max_retries retry or timeout proposals, and no category but timeout gets two proposals in a row that do not abandon |
| `Policy.TokenMeans` | services/policy/engine.py:89-109 | a token exists iff the target was authorised, the action type reviewed, and the risk low or a person approved |
| `Terminal.ExecutedGate` | services/terminal/engine.py:163-236 | a process starts iff the session is usable, the request valid and the decision allows it or was approved; only a started process can complete, fail, time out or be cancelled |
| `Terminal.LaunchMeans` | services/terminal/engine.py:163-215 | a process is started, for exactly this request, iff the session is usable and not idle too long, there are 1 to 64 arguments of at most 4096 characters, the directory is not refused, and the decision is ALLOW, or REQUIRE_APPROVAL with an approval |
| `Terminal.StatusMeans` | services/terminal/engine.py:217-236 | a launched process that ends is reported TIMEOUT iff it timed out, COMPLETED iff it did not and succeeded, FAILED otherwise, with its own exit code and output; one that was cancelled is CANCELLED |
| `Terminal.TerminalEngine.Execute` | services/terminal/engine.py:158-236 | session check, validation, approval, run and bookkeeping in this order, whatever the adapter does; `LaunchMeans` and `StatusMeans` say what that comes to |
| `Terminal.TerminalEngine.IsValidArgv` | services/terminal/validation.py:65-75 | accepts exactly 1 to 64 arguments of at most 4096 characters |
| `Terminal.TerminalEngine.Submit` | services/terminal/engine.py:163-215 | everything before the wait: the first check that fails decides; a command is registered and launched iff all pass |
| `Terminal.TerminalEngine.Await` | services/terminal/engine.py:217-236 | however the wait ends, the command is released and its session freed, and the result says how: TIMEOUT, COMPLETED, FAILED or CANCELLED as in `StatusMeans` |
| `Terminal.TerminalEngine.Terminate` | services/terminal/engine.py:238-243 | asks the task of a running command to stop, unless it has ended, and leaves every other command alone |
| `Terminal.TerminateStops` | services/terminal/engine.py:217-243 | over any terminations and any end of its process, a launched command reports CANCELLED iff it was terminated before the process ended (or ended cancelled by itself), and then leaves the engine as a cancelled call does |
| `ToolTrust.ReviewPasses` | services/tools/verification.py:62-162 | all seven stages pass iff the card is flawless in the listed respects, and the review fails iff a prohibited capability is declared, one of the seven that `ToolTrustLaws.ProhibitedExactly` writes out |
| `ToolTrust.VerificationReport.OverallResult` | services/tools/models.py:138-150 | FAILED beats UNKNOWN beats UNVERIFIED beats VERIFIED; an empty report is unknown |
| `ToolTrust.VerificationPipeline.Verify` | services/tools/verification.py:62-79 | the seven stages each write their own entry and leave a complete report, the one `ToolTrustLaws.StagesMean` describes |
| `ToolTrust.FirstProhibitedMarker` | services/tools/verification.py:152-154 | the first marker in the list that occurs in the text, if any |
| `ToolTrust.InMemoryToolRegistry.Create` | services/tools/registry.py:44-48 | refuses a name already taken, otherwise stores the tool |
| `ToolTrust.InMemoryToolRegistry.GetByName` | services/tools/registry.py:56-60 | finds a tool of that name iff there is one |
| `ToolTrust.InMemoryToolRegistry.UpdateTrustStatus` | services/tools/registry.py:89-93 | changes one tool's trust level and nothing else |
| `ToolTrust.InMemoryToolRegistry.RecordVerification` | services/tools/registry.py:95-99 | changes one tool's report and nothing else |
| `ToolTrust.ToolRoutes.RegisterTool` | apps/api/app/api/routes/tools.py:181-212 | a new tool starts DISCOVERED with an empty report |
| `ToolTrust.ToolRoutes.VerifyTool` | apps/api/app/api/routes/tools.py:215-235 | the report is recorded and the trust level follows from it, whatever it was before |
| `ToolTrust.ToolRoutes.ApproveTool` | apps/api/app/api/routes/tools.py:238-256 | only a VERIFIED tool is approved |
| `ToolTrust.ToolRoutes.BlockTool` | apps/api/app/api/routes/tools.py:259-267 | any tool can be blocked |
| `ToolTrust.ToolRoutes.DeprecateTool` | apps/api/app/api/routes/tools.py:270-278 | any tool can be deprecated |
| `ToolTrust.RegistryAlwaysSound` | apps/api/app/api/routes/tools.py:181-278 | over any sequence of registry operations VERIFIED or APPROVED implies that every stage is VERIFIED for the tool's own card, and names stay unique |
| `ToolTrust.TrustNeedsAReview` | apps/api/app/api/routes/tools.py:215-278 | without a new `verify` a blocked, deprecated, unreviewed or unknown tool never becomes VERIFIED or APPROVED |
| `ToolTrust.ApprovableExactly` | apps/api/app/api/routes/tools.py:215-256 | verify then approve ends APPROVED iff the card is flawless |
| `ToolTrust.GateReduces` | services/tools/policy.py:37-77 | for reachable tools the gate comes down to APPROVED and platform supported |
| `ToolTrust.ReadyUnfolds` | services/installation/readiness.py:44-91 | readiness is official source, platform supported, trust approved and target authorised at both readings of the clock |
| `ToolTrust.ReadinessReduces` | services/installation/readiness.py:44-195 | for reachable tools the eleven checks come down to APPROVED, platform supported and target authorised |
| `ToolTrustLaws.ProhibitedExactly` | services/tools/verification.py:41-49 | the security review objects iff some capability contains one of the seven forbidden texts, in whichever case |
| `ToolTrustLaws.StagesMean` | services/tools/verification.py:84-162 | what each of the seven stages records for a card, with official sources and known platforms written out |
| `ToolTrustLaws.VerifyMeans` | apps/api/app/api/routes/tools.py:215-235 | `verify` blocks a tool iff it declares something forbidden, makes it VERIFIED iff its card is flawless, and leaves it under review otherwise |
| `ToolTrustLaws.TrustedIsFlawless` | apps/api/app/api/routes/tools.py:181-278 | over every sequence of registry operations a tool that is VERIFIED or APPROVED has a flawless card |
| `ToolTrustLaws.ForbiddenIsNeverTrusted` | apps/api/app/api/routes/tools.py:181-278 | over every such sequence a tool declaring one of the seven forbidden texts is never VERIFIED or APPROVED, never eligible, never ready to be installed |
| `ToolTrustLaws.RoutesMean` | apps/api/app/api/routes/tools.py:181-278 | when each operation is refused, and that it touches one tool only |
| `ToolTrustLaws.VerdictLasts` | apps/api/app/api/routes/tools.py:238-278 | over every sequence, a block or a deprecation holds and keeps the tool from being used until it is verified again or the other of the two is called; approvals in between are refused |
| `ToolTrustLaws.GateMeans` | services/tools/policy.py:37-77 | which objection the gate raises: the first that applies |
| `CommandTemplates.InstallCommandIsValid` | services/terminal/command_templates.py:47-89 | every built install command passes the engine's argument check, and the text taken from the tool never reads as an option; what it says is `CommandReading.InstallRoundTrip` |
| `CommandReading.NamesExactly` | services/terminal/command_templates.py:40-42 | the texts the patterns accept: a letter or digit, then name characters up to the limit, and possibly one line feed at the end |
| `CommandReading.InstallRoundTrip` | services/terminal/command_templates.py:47-89 | read by an independent grammar of each manager's command line, the install command is built iff manager and texts are acceptable, and says: install exactly this package, at exactly this version where the manager pins one |
| `CommandReading.DnfIsAmbiguous` | services/terminal/command_templates.py:79-80 | at one input: for dnf a name and a version can give the command of another package's name alone |
| `CommandReading.VerificationRoundTrip` | services/terminal/command_templates.py:92-117 | read in the same way, a verification command asks the entrypoint for its version, or the manager about that very package; it never installs or removes |
| `CommandTemplates.VerificationCommandIsValid` | services/terminal/command_templates.py:92-117 | every built verification command passes the engine's argument check |
| `Installation.VerifiedMeans` | services/installation/verifier.py:16-40 | an installation is confirmed iff command, exit code and output all pass; an unknown check is never a pass |
| `InstallationService.ChoosePackageManager` | services/installation/planner.py:97-108 | the first available manager in the platform's order of preference |
| `Installation.PlanMeans` | services/installation/planner.py:33-108 | there is a plan iff the tool supports the platform and one of its managers is available; it names the first of them, and asks for approval iff the risk is not LOW |
| `InstallationService.ToolInstallationService.RequestInstallation` | services/installation/service.py:135-197 | the new request is BLOCKED, WAITING_FOR_APPROVAL or PREPARING as readiness and plan say; nothing else changes |
| `InstallationService.ToolInstallationService.Prepare` | services/installation/service.py:148-196 | readiness first, then the plan; approval is waited for iff the plan requires it |
| `InstallationService.ToolInstallationService.Approve` | services/installation/service.py:199-211 | only a waiting request is approved, with the approver on record |
| `InstallationService.ToolInstallationService.Reject` | services/installation/service.py:213-224 | any request that is not final is cancelled with the reason |
| `InstallationService.ToolInstallationService.Cancel` | services/installation/service.py:226-237 | with a command running only the engine is asked; otherwise the request is cancelled |
| `InstallationService.ToolInstallationService.StartInstallation` | services/installation/service.py:241-407 | the whole call, attempts, retries, verification and every exception, ends where the sequence of its waits ends |
| `InstallationService.ToolInstallationService.RunAttempts` | services/installation/service.py:276-357 | the retry loop with its early exits |
| `InstallationService.ToolInstallationService.Submit` | services/installation/service.py:277-305 | command built, policy asked afresh, entry of the running command written; the command reads as in `CommandReading.InstallRoundTrip` |
| `InstallationService.ToolInstallationService.Verify` | services/installation/service.py:359-407 | the separate verification command decides INSTALLED or ROLLBACK_REQUIRED |
| `InstallationLaws.PreferenceTable` | services/installation/planner.py:24-29 | which managers each platform has, in order of preference |
| `InstallationLaws.AskedMeans` | services/installation/service.py:135-197 | a new request is BLOCKED unless tool, platform, trust, authorisation and manager allow it; otherwise its plan is about the tool's own name and version, and it waits for approval iff the risk is not LOW |
| `InstallationLaws.DeniedExactly` | services/policy/engine.py:89-109 | the three reviewed kinds of action, written out, are denied iff the target is not authorised and allowed at once iff the risk is LOW |
| `InstallationLaws.StartMeans` | services/installation/service.py:249-305 | `start_installation` sends a first attempt iff the request is prepared with a plan, the tool still APPROVED and the attempt can be sent; otherwise the caller learns which of these failed first |
| `InstallationLaws.RetryMeans` | services/installation/service.py:325-355 | after a failed attempt another is sent iff it failed otherwise than the one before, attempts are left and it can be sent; after two alike, or when none is left, the request is FAILED |
| `InstallationLaws.AttemptMeans` | services/installation/service.py:307-323 | an attempt is recorded with its process's exit code, and with category TIMEOUT iff the process timed out, none iff it succeeded in time, FAILED or CANCELLED otherwise |
| `InstallationLaws.ConfirmationMeans` | services/installation/service.py:359-407 | the request becomes INSTALLED iff the verification command's process succeeded in time with exit code zero and visible output |
| `InstallationRuns.RecordedSound` | services/installation/service.py:276-352 | recording an attempt keeps the numbering and the loop detection's promise |
| `InstallationRuns.ReturnedSound` | services/installation/service.py:307-407 | every return of the engine keeps the request's invariant |
| `InstallationRuns.EveryRequest` | services/installation/service.py:199-407 | over any interleaving attempts are numbered 1..n with n at most the limit, all but the last failed, no two adjacent failures share a category except the final pair, and FAILED means that the attempts are used up or the last two are alike; INSTALLED implies a completed last attempt, a confirmed verification and an approver when the risk is above LOW |
| `InstallationRuns.FinalForever` | services/installation/models.py:60-67 | a final request with no call waiting is never changed again, by anything |
| `InstallationRuns.TerminalStatesAbsorb` | services/installation/service.py:213-237 | as long as nobody rejects during a call or cancels during its verification, the four terminal states are absorbing and no call outlives them |
| `InstallationEnds.FinalExactly` | services/installation/service.py:213-407 | in every reachable state, a request in a terminal state can still leave it, by some run, iff a call is waiting for the engine |
| `InstallationEnds.CancelsExactly` | services/installation/service.py:226-237 | in every reachable state `cancel` of a request that is not over makes it CANCELLED iff it has no running-command entry, and else changes nothing; it has one iff an install command is awaited or the engine raised during one |
| `InstallationEnds.CancelledAttempt` | services/installation/service.py:326-334 | a terminated install command ends the request CANCELLED, its call over, its entry gone, nothing sent after it |
| `InstallationEnds.CancelledInTime` | services/installation/service.py:226-334 | over runs: a cancellation that has the awaited command terminated before its process ends makes the request CANCELLED for good, whatever the process would have returned; one that comes later changes nothing of how the call returns |
| `InstallationEnds.StaleExactly` | services/installation/service.py:303-305 | in every reachable state an entry is left behind by a call that is over iff the engine raised during an attempt |
| `InstallationEnds.StaleForever` | services/installation/service.py:213-237 | from then on a run makes the request terminal iff it rejects it, and changes nothing of it otherwise |
| `InstallationEnds.RaisedThenCancelled` | services/installation/service.py:226-305 | it happens to every startable request: start, the engine raises, and `cancel` changes nothing |
| `InstallationRuns.RejectedYetInstalled` | services/installation/service.py:213-407 | the exception happens: any startable request, rejected while its command runs, can still end INSTALLED with the rejection on record |
| `InstallationRuns.WholeCallIsARun` | services/installation/service.py:241-407 | the uninterrupted call is one of the runs of the step relation, and changes no other request |
| `InstallationLaunches.NeverRefused` | services/installation/service.py:276-307 | an attempt that was not denied is never turned away for missing approval or bad arguments: given a session and a directory it is run |
| `InstallationLaunches.EveryLaunchJustified` | services/installation/service.py:280-305 | in every run, each process started is the install or verification command of a request, built in a step of its own call, or the reviewed diagnostic; its decision is the policy's about that request, that kind and risk, the target the caller named and the moment of that step, when the target was authorised, and the tool was APPROVED when its call started; read by its own grammar it installs exactly the plan's package, or asks about it; an install is of low risk or that request was approved, by the approver it names, before its call |
| `AgentRecovery.Classify` | services/agent_orchestrator/recovery.py:57-71 | refusal and timeout first, then the first hint in the list that occurs, then the exit code |
| `AgentEffects.ClassifiedMeans` | services/agent_orchestrator/recovery.py:43-71 | with the hint texts written out: the class is POLICY_RESTRICTION iff refused, TIMEOUT iff timed out and not refused, else the first text that occurs in stderr in whichever case, else by the exit code |
| `AgentEffects.DecideMeans` | services/agent_orchestrator/recovery.py:90-119 | the task gives up iff the failure repeats, its text is one of three, or its kind has been retried as often as allowed; it asks the user iff it does not give up and the text is one of two; else it retries |
| `AgentEffects.RecoveryMeans` | services/agent_orchestrator/orchestrator.py:576-651 | the failure, the healing proposal and the strategy are on record in this order, and only a retry is counted and remembered |
| `AgentRecovery.SignatureInjective` | services/agent_orchestrator/recovery.py:93 | loop detection never mistakes one failure for another: equal signatures mean equal action type and equal class |
| `AgentModels.ActionTextInjective` | services/agent_orchestrator/actions.py:9-21 | action types are told apart by their text |
| `AgentOrchestrator.AgentOrchestrator.CountActive` | services/agent_orchestrator/registry.py:45-46 | the number of tasks that are not terminal |
| `AgentOrchestrator.AgentOrchestrator.CreateTask` | services/agent_orchestrator/orchestrator.py:166-207 | refused at the limit of active tasks; otherwise one new task, planning iff it is authorised |
| `AgentOrchestrator.AgentOrchestrator.PauseTask` | services/agent_orchestrator/orchestrator.py:209-216 | pauses any task that is not over |
| `AgentOrchestrator.AgentOrchestrator.ResumeTask` | services/agent_orchestrator/orchestrator.py:218-225 | only a paused task resumes, planning |
| `AgentOrchestrator.AgentOrchestrator.CancelTask` | services/agent_orchestrator/orchestrator.py:227-235 | cancels any task that is not over, once |
| `AgentOrchestrator.AgentOrchestrator.ProvideClarification` | services/agent_orchestrator/orchestrator.py:237-248 | records the answer as an observation and drops the unknowns it mentions |
| `AgentOrchestrator.AgentOrchestrator.FindAction` | services/agent_orchestrator/orchestrator.py:278-283 | the first action with that id |
| `AgentOrchestrator.AgentOrchestrator.Approve` | services/agent_orchestrator/orchestrator.py:250-262 | marks exactly the pending action approved |
| `AgentOrchestrator.AgentOrchestrator.Reject` | services/agent_orchestrator/orchestrator.py:264-276 | marks the pending action rejected and blocks the task |
| `AgentOrchestrator.AgentOrchestrator.TakeStep` | services/agent_orchestrator/orchestrator.py:287-360 | one step, with every branch and exception; the task at the end is the task last saved |
| `AgentOrchestrator.AgentOrchestrator.StepState` | services/agent_orchestrator/orchestrator.py:292-328 | rest, approved action, budgets, reasoning, in this order |
| `AgentOrchestrator.AgentOrchestrator.ExecutePending` | services/agent_orchestrator/orchestrator.py:299-305 | executes exactly the approved action |
| `AgentOrchestrator.AgentOrchestrator.TakeDecision` | services/agent_orchestrator/orchestrator.py:330-360 | out of scope blocks, disallowed waits for authorisation, gated kinds wait for approval, others run; which is which is `AgentScope.GateMeans` |
| `AgentOrchestrator.AgentOrchestrator.Block` | services/agent_orchestrator/orchestrator.py:362-367 | closes the task with the reason |
| `AgentOrchestrator.AgentOrchestrator.Execute` | services/agent_orchestrator/orchestrator.py:369-415 | saves EXECUTING first; an exception leaves the task as saved |
| `AgentOrchestrator.AgentOrchestrator.Perform` | services/agent_orchestrator/orchestrator.py:375-404 | the dispatch on the action type |
| `AgentOrchestrator.AgentOrchestrator.DoCheckEnvironment` | services/agent_orchestrator/orchestrator.py:419-426 | records the environment as an observation; an inspection that raises changes nothing |
| `AgentOrchestrator.AgentOrchestrator.DoDiscoverTarget` | services/agent_orchestrator/orchestrator.py:428-433 | confirms the task's target or fails |
| `AgentOrchestrator.AgentOrchestrator.DoResearchTool` | services/agent_orchestrator/orchestrator.py:435-447 | records the candidates found or fails |
| `AgentOrchestrator.AgentOrchestrator.DoInstallTool` | services/agent_orchestrator/orchestrator.py:449-495 | the order of its refusals; the budget check raises; nothing is changed before an exception |
| `AgentOrchestrator.AgentOrchestrator.DoRunDiagnostic` | services/agent_orchestrator/orchestrator.py:497-539 | records the output or fails with the classified failure |
| `AgentOrchestrator.AgentOrchestrator.DoAnalyze` | services/agent_orchestrator/orchestrator.py:541-550 | proposes one finding on the latest observation |
| `AgentOrchestrator.AgentOrchestrator.DoVerify` | services/agent_orchestrator/orchestrator.py:552-562 | replaces the last unverified finding by its verification |
| `AgentOrchestrator.AgentOrchestrator.HandleFailure` | services/agent_orchestrator/orchestrator.py:576-651 | failure noted, proposal stored, then retry, ask or fail |
| `AgentEffects.CreatedMeans` | services/agent_orchestrator/orchestrator.py:166-207 | a new task plans iff its status reads AUTHORIZED, and nothing has happened in it |
| `AgentEffects.OperatorsMean` | services/agent_orchestrator/orchestrator.py:209-276 | which operations of an operator are accepted, iff, and where each takes the task |
| `AgentEffects.UnansweredMeans` | services/agent_orchestrator/orchestrator.py:237-248 | an answer settles exactly the unknowns it mentions, in whichever case; the others stay in order |
| `AgentEffects.AnswerMeans` | services/agent_orchestrator/orchestrator.py:237-248 | a clarification adds the answer as an observation, closes the question and settles what it mentions |
| `AgentEffects.VerdictMeans` | services/agent_orchestrator/orchestrator.py:250-283 | approving marks the first action with the pending id and leaves it on the desk; rejecting takes it off with the reason |
| `AgentScope.GateMeans` | services/agent_orchestrator/policy_gate.py:42-73 | the gate disallows iff the kind needs authority the task has not; else it is out of scope iff both targets are given and differ by more than case and blanks around them; else approval is needed iff asked for or the kind is gated |
| `AgentScope.NoBudgetBlocks` | services/agent_orchestrator/orchestrator.py:307-317 | without budget a step ends the task BLOCKED, asks nobody and executes nothing |
| `AgentScope.NoDecisionBlocks` | services/agent_orchestrator/orchestrator.py:319-328 | when reasoning fails, a step ends the task BLOCKED with an error that keeps the message |
| `AgentScope.AnotherTargetBlocks` | services/agent_orchestrator/orchestrator.py:328-334 | a decision that names another target, unless it is stopped for authorisation first, ends the step BLOCKED with an `out_of_scope` error, nothing recorded, nothing executed |
| `AgentScope.OwnTargetPasses` | services/agent_orchestrator/orchestrator.py:336-360 | a decision that names the task's own target, or none, is never stopped for scope: it waits for authorisation, waits for approval, or is executed at once |
| `AgentScope.ExecutedInScope` | services/agent_orchestrator/policy_gate.py:53-62 | over every run, an executed action comes from a decision that named no target, or the task's own but for case and blanks around it, or the task has none; the action carries that decision's tool, target, capability, arguments and plan unchanged |
| `AgentEffects.DoneMeans` | services/agent_orchestrator/orchestrator.py:406-415 | the phase that each kind of action leaves behind when it is done |
| `AgentEffects.EnvironmentMeans` | services/agent_orchestrator/orchestrator.py:419-426 | what the inspection says becomes the observation and the action's summary |
| `AgentEffects.TargetMeans` | services/agent_orchestrator/orchestrator.py:428-433 | the target is observed with its kind, or there is none and the action fails |
| `AgentEffects.ResearchMeans` | services/agent_orchestrator/orchestrator.py:435-447 | candidates are kept under the capability asked for, and none is a failure |
| `AgentEffects.InstallationMeans` | services/agent_orchestrator/orchestrator.py:449-495 | which refusal comes first, and what is left behind once the installer has answered |
| `AgentEffects.DiagnosisMeans` | services/agent_orchestrator/orchestrator.py:497-539 | carried through the engine: a diagnosis fails with class TIMEOUT iff its process timed out, and is done iff the process succeeded in time |
| `AgentEffects.NoDiagnosisMeans` | services/agent_orchestrator/orchestrator.py:497-526 | without a launched process: refused without a target scope or by the policy, or raised with the engine |
| `AgentEffects.AnalysisMeans` | services/agent_orchestrator/orchestrator.py:541-550 | one finding on the latest observation, or a failure if there is none |
| `AgentEffects.CorroborationMeans` | services/agent_orchestrator/orchestrator.py:552-562 | the last unverified finding is verified on the last three observations, which its summary names |
| `AgentEffects.FinishingMeans` | services/agent_orchestrator/orchestrator.py:388-404 | asking leaves the question open and waits, asking for approval puts the action on the desk, a report or the end completes the task |
| `AgentInvariants.PerformedShape` | services/agent_orchestrator/orchestrator.py:375-404 | an action's work touches no counter but the installation count (within budget, by INSTALL_TOOL only) and no other action; a failure is handed over untouched |
| `AgentInvariants.ExecutedShape` | services/agent_orchestrator/orchestrator.py:369-415 | the phases an execution can end in, what it does to the pending action and to the completion time |
| `AgentInvariants.RecoveredShape` | services/agent_orchestrator/orchestrator.py:576-651 | recovery ends in RECOVERING, WAITING_FOR_AUTHORIZATION or FAILED and leaves evidence and counters alone |
| `AgentInvariants.InstallationCountedExactly` | services/agent_orchestrator/orchestrator.py:449-484 | an installing action uses up its budget iff the installation call is made and returns: one that raises leaves the task in EXECUTING and is not counted |
| `AgentControl.TakenSound` | services/agent_orchestrator/orchestrator.py:328-360 | a decision keeps the control invariant whatever the reasoner asks for |
| `AgentControl.ExecutedSound` | services/agent_orchestrator/orchestrator.py:369-415 | an execution keeps the control invariant whatever the services do |
| `AgentControl.RunSound` | services/agent_orchestrator/orchestrator.py:166-651 | the control invariant holds over every run with fresh ids |
| `AgentControl.BooksBalance` | services/agent_orchestrator/orchestrator.py:307-360 | action_count = the number of actions <= max_actions; model_call_count within its budget, equal to action_count until the end and at most one more then; installation_count within its budget and at most the number of INSTALL_TOOL actions |
| `AgentSafety.ReachedExecutes` | services/agent_orchestrator/orchestrator.py:287-360 | which operation hands which action to `_execute` |
| `AgentSafety.StepQuiet` | services/agent_orchestrator/orchestrator.py:292-360 | a step that executes nothing installs, retries and finds nothing, adds no output, records at most one action and then comes to rest |
| `AgentSafety.OperatorQuiet` | services/agent_orchestrator/orchestrator.py:209-276 | an operator's operation executes nothing: no action is added, and only the pending one changes its approval |
| `AgentSafety.ExecutionIsApproved` | services/agent_orchestrator/policy_gate.py:42-91 | a RUN_DIAGNOSTIC or INSTALL_TOOL action reaches `_execute` only if it is on record, APPROVED, and the task AUTHORIZED |
| `AgentSafety.AtMostOnce` | services/agent_orchestrator/orchestrator.py:250-360 | and at most once, across any mix of pause, resume, approve, reject, clarify, cancel and step |
| `AgentApprovals.ApprovalTakesEffectExactly` | services/agent_orchestrator/orchestrator.py:209-305 | after an approval, and whatever operators do before the next step, that step executes the approved action iff nobody paused or cancelled the task in between |
| `AgentApprovals.ApprovalLost` | services/agent_orchestrator/orchestrator.py:209-225 | it happens: approve, pause, resume leaves the task planning, the action approved and pending, and the next step does not execute it |
| `AgentApprovals.LostForGood` | services/agent_orchestrator/orchestrator.py:209-360 | after such an interruption no run executes the approved action |
| `AgentApprovals.ApprovedExactly` | services/agent_orchestrator/policy_gate.py:42-91 | in every run an executed action was approved iff it had to be (other than WAIT_FOR_APPROVAL itself), and it had to be iff its decision said so or its kind is gated; a diagnosing action without approval is a COLLECT_INFORMATION |
| `AgentApprovals.OnlyOperatorsApprove` | services/agent_orchestrator/orchestrator.py:250-262 | only `approve_action`, on the action the task waits for, marks an action APPROVED |
| `AgentApprovals.CollectsUnapproved` | services/agent_orchestrator/orchestrator.py:386-387 | it happens, even in a task that was never authorised: after a clarification a COLLECT_INFORMATION decision runs at once, unapproved |
| `AgentRest.StepDecreases` | services/agent_orchestrator/orchestrator.py:287-415 | a step changes nothing or brings the task strictly closer to rest, and does the latter whenever the reasoner answers |
| `AgentRest.StuckExactly` | services/agent_orchestrator/orchestrator.py:299-324 | a step leaves a task as it is iff the task is at rest, or the call breaks before the reasoner answers with no approved action waiting and no budget used up |
| `AgentRest.ComesToRest` | services/agent_orchestrator/budget.py:29-45 | whatever is returned or raised, at most (max_actions - action_count) + 2 steps change the task, and that many that are not stuck, with any number of stuck ones between them, bring it to rest |
| `AgentRest.NowhereExactly` | services/agent_orchestrator/orchestrator.py:307-324 | a task that is not at rest is where it was after a list of steps iff every one of them is stuck there: such calls never bring it to rest |
| `AgentRest.TimeIsUp` | services/agent_orchestrator/budget.py:29-38 | once the maximum duration has passed, two more steps bring the task to rest whatever is returned or raised |
| `AgentRest.RestIsIdentity` | services/agent_orchestrator/orchestrator.py:292-297 | at rest `step` is the identity |
| `AgentSafety.TerminalAbsorbs` | services/agent_orchestrator/orchestrator.py:209-276 | no operation changes a task that is over, and only cancel and step report success |
| `AgentSafety.TerminalForever` | services/agent_orchestrator/models.py:54-56 | terminal phases are absorbing over every run |
| `AgentSafety.EndsAreRecorded` | services/agent_orchestrator/orchestrator.py:227-276 | completed_at is set iff the task is terminal, and the phase is CANCELLED iff the cancellation state is |
| `AgentFleet.NeverTooManyActive` | services/agent_orchestrator/orchestrator.py:177-181 | across any number of tasks the active count never exceeds max_concurrent_tasks |
| `AgentLedger.VerifyPromotesTheLast` | services/agent_orchestrator/orchestrator.py:552-562 | a verify step promotes exactly the last unverified finding, in place, keeping its id, and fails iff there is none |
| `AgentLedger.AnalyzedSound` | services/agent_orchestrator/orchestrator.py:541-550 | an analysis adds exactly one unverified finding, drawn from its action, to findings and evidence, and fails iff there is nothing to analyse |
| `AgentLedger.AnalysisRecorded` | services/agent_orchestrator/analysis.py:21-24 | a new finding keeps the evidence a complete record of the findings |
| `AgentLedger.VerificationRecorded` | services/agent_orchestrator/analysis.py:30-46 | so does a promotion: the evidence then holds the verified finding behind its unverified form |
| `AgentLedger.LedgerAlwaysSound` | services/agent_orchestrator/orchestrator.py:541-651 | over every run findings rest on observations, the verification table is exactly the verified findings, the evidence holds every finding, every verified one also as it was before and that first, nothing else and nothing twice; retry records equal the retry counts within the limit, never repeat key and category in a row, and never retry a refusal, permission, platform, dependency or unavailable-tool failure |
| `AgentLedger.RetriedSound` | services/agent_orchestrator/recovery.py:90-119 | recording a retry keeps records, counts and loop detection in agreement |
| `AgentLedger.NoSecondRetry` | services/agent_orchestrator/recovery.py:90-119 | after a retry the same failure of the same kind of action ends the task, and another is retried only below the limit |
| `AgentLedger.ReportPartitions` | services/agent_orchestrator/report.py:10-67 | the report's two lists partition the findings in order, it says verified iff something is, and advises corroboration iff something is not |
| `AgentSnapshot.PhaseRoundTrip` | services/agent_orchestrator/models.py:34-51 | a phase is recovered from its text |
| `AgentSnapshotLaws.PhaseTexts` | services/agent_orchestrator/models.py:34-51 | every phase is written under its own name |
| `AgentSnapshotLaws.EnumerationTexts` | services/agent_orchestrator/models.py:59-92 | so are approval and cancellation states, evidence kinds and subtask states |
| `AgentSnapshotLaws.ActionTexts` | services/agent_orchestrator/actions.py:9-21 | and action types |
| `AgentSnapshot.EvidenceRoundTrip` | apps/api/app/db/agent_repository.py:40-57 | evidence survives its JSON form |
| `AgentSnapshot.ActionRoundTrip` | apps/api/app/db/agent_repository.py:60-99 | an action survives its JSON form, arguments of any shape included |
| `AgentSnapshot.SubtaskRoundTrip` | apps/api/app/db/agent_repository.py:102-119 | a subtask survives its JSON form |
| `AgentSnapshot.ErrorRoundTrip` | apps/api/app/db/agent_repository.py:122-139 | an error survives its JSON form |
| `AgentSnapshot.RecoveryRoundTrip` | apps/api/app/db/agent_repository.py:142-161 | a recovery record survives its JSON form |
| `AgentSnapshot.RoundTrip` | apps/api/app/db/agent_repository.py:164-251 | reading back the snapshot of any task gives that task |
| `AgentSnapshotLaws.IdentityFields` | apps/api/app/db/agent_repository.py:164-206 | where the snapshot holds id, objective, request, execution state and authorisation |
| `AgentSnapshotLaws.TargetFields` | apps/api/app/db/agent_repository.py:164-206 | where the snapshot holds the target, its kind and id, and the current subtask |
| `AgentSnapshotLaws.TimeFields` | apps/api/app/db/agent_repository.py:164-206 | where the snapshot holds the four times, absent ones as null |
| `AgentSnapshotLaws.EvidenceFields` | apps/api/app/db/agent_repository.py:164-206 | where the snapshot holds observations, findings and evidence, each item in place |
| `AgentSnapshotLaws.HistoryFields` | apps/api/app/db/agent_repository.py:164-206 | where the snapshot holds actions, errors, recoveries and subtasks, each item in place |
| `AgentSnapshotLaws.TextFields` | apps/api/app/db/agent_repository.py:164-206 | where the snapshot holds the lists of texts |
| `AgentSnapshotLaws.StateFields` | apps/api/app/db/agent_repository.py:164-206 | where the snapshot holds phase, approval, cancellation and the pending action |
| `AgentSnapshotLaws.MessageFields` | apps/api/app/db/agent_repository.py:164-206 | where the snapshot holds question, next action and last failure |
| `AgentSnapshotLaws.CountFields` | apps/api/app/db/agent_repository.py:164-206 | where the snapshot holds confidence and the counts |
| `AgentSnapshotLaws.TableFields` | apps/api/app/db/agent_repository.py:164-206 | where the snapshot holds the tables |
| `AgentSnapshotLaws.MinimalReads` | apps/api/app/db/agent_repository.py:209-251 | a snapshot with the required keys only reads as a task of which nothing else is known |
| `AgentLockstep.SqlAlchemyAgentTaskRegistry.Create` | apps/api/app/db/agent_repository.py:262-274 | the row holds the task's snapshot and phase, and the task read back is the one given |
| `AgentLockstep.SqlAlchemyAgentTaskRegistry.Get` | apps/api/app/db/agent_repository.py:276-280 | what the row's snapshot reads as, or not found |
| `AgentLockstep.SqlAlchemyAgentTaskRegistry.Save` | apps/api/app/db/agent_repository.py:282-291 | rewrites exactly that row; a missing row is refused |
| `AgentLockstep.SqlAlchemyAgentTaskRegistry.CountActive` | apps/api/app/db/agent_repository.py:297-300 | the number of rows whose phase column is not terminal |
| `AgentLockstep.ApplyAlike` | services/agent_orchestrator/orchestrator.py:209-651 | no operation's effect or reply depends on the time of the last update |
| `AgentLockstep.HeldApplied` | apps/api/app/db/agent_repository.py:276-291 | an operation on the task read from a row replies as on the task in memory, and the row then holds the same task |
| `AgentLockstep.Lockstep` | apps/api/app/db/agent_repository.py:258-300 | driven by the same events, rows and in-memory registry hold the same tasks but for `updated_at`, give the same replies, phase columns are right, and the same tasks count as active |
| `AgentSystemSafety.InstallApprovals` | services/agent_orchestrator/orchestrator.py:466-482 | the orchestrator's installation adds its own request, for the tool its action names, and changes the approver of no other |
| `AgentSystemSafety.InstallGranted` | services/agent_orchestrator/orchestrator.py:449-477 | the action behind an installation was approved, no earlier request was made for it, and it cannot be executed again |
| `AgentSystemSafety.NextSafe` | services/agent_orchestrator/orchestrator.py:287-415 | every event of the composed system keeps its safety invariant |
| `AgentSystemSafety.InstallerIsARun` | services/agent_orchestrator/orchestrator.py:449-545 | what the installer and the engine go through in a run of the whole system is the list of calls that operators and tasks made |
| `AgentSystemSafety.RequestsBounded` | services/agent_orchestrator/orchestrator.py:449-482 | a task has at most one installation requested per approved and spent INSTALL_TOOL action, and at most max_actions; the installation count does not bound them |
| `AgentSystemSafety.AgentCallsAccountedFor` | services/agent_orchestrator/orchestrator.py:379-390 | in every run, what a step calls at the installer or the engine it calls for an installing action that was approved in an authorised task, or for a diagnosing action that was approved iff it needed approval, as RUN_DIAGNOSTIC always does |
| `AgentSystemSafety.EveryProcessAccountedFor` | services/terminal/engine.py:191-218 | in every run of orchestrator, installer and engine each process started is justified, as in `EveryLaunchJustified`, by one of the calls made; requests approved in the agent's name map one to one to INSTALL_TOOL actions that an operator approved, in authorised tasks, for that very tool, and that cannot run again |

## Left out

- Suspensions inside one orchestrator method: each call of the orchestrator is atomic, also with respect to the
  installer and the engine it calls. The installer itself is cut at its waits for the engine, with in-memory registries,
  whose awaits never suspend.
- Calls from the orchestrator's class to the service objects: its methods take the services' answers as input.
  `AgentSystem` computes those of the installer and the engine from their models, on values.
- The terminal engine's own suspension between starting a process and its end, in the runs of the installer: there
  `Executed` is one step, taken when the process ends. `Terminal` itself is cut there.
- SHA-256 and random codes and tokens: a digest is a free constructor, fresh values are inputs. UUIDs are numbers; their
  text form, and ISO time stamps, appear in JSON as values of their own. Fresh ids are assumed not to repeat.
- JSON field names are constructors instead of spelled keys. Numbers with a fraction are reals.
- NormalizeIdempotent: `lower` knows ASCII letters only, here and wherever texts are compared; blanks are those of
  Python's `isspace`. Lone surrogates, which make `encode` raise, do not occur in `char`.
- Time is one integer clock in microseconds per call; `started_at`, `finished_at`, `last_seen`, `revoked_at`, `touch` of
  tools, sessions and installation requests, and durations of attempts are not kept.
- Texts composed for people: error details of readiness checks, verification notes and numbers inside budget messages
  are shortened or replaced by constructors; log previews of output are not kept.
- Regular expressions of the diagnosis engine and of memory filtering: their result is an input. Those of the command
  templates are modelled.
- Races of `asyncio.wait_for` between a result and a timeout: a timeout is possible at any moment while a call waits.
- `AgentAction` objects are values in the task's list, since nothing else keeps a reference to them; a device is its
  state.
- Entries of the program's own coroutine stacks (where a call is suspended) are ghost state in `TermuxConnection` and
  `Discovery`, and the field `flight` of a `Leg` in `Installation`.
- The SQL registries of tools, installations and terminal sessions; session limits and idle reaping beyond the idle
  check of the used session; command registration of sessions in adapters.
- Audit and event emission, except for the ghost log of launches.
- FastAPI routes other than the trust transitions, schemas, migrations, WebSocket hub, web and Android applications,
  voice commands, AI providers and prompts, chat pipeline, environment probes, process creation: input or no part of the
  properties.
- ReportPartitions: covers the findings, the verification status and the recommendations; the other entries of the
  report copy fields.
- ApplyAlike: speaks of values; that a task read from a row is a copy, while the in-memory registry returns the object
  itself, is what `AgentOrchestrator.Valid` and `Save` cover, by proving that every operation leaves the task as it was
  last saved.
- CancelledInTime: the outcome with which a call returns is tied to the cancellations before it by a premise, not by the
  installer's step relation, in which `Return` may carry any outcome.
- RaisesExactly: texts with lone surrogates, which `encode` refuses when they are appended, are not among the texts.
