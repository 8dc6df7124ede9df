# hl-advanced-orders: the trailing-stop daemon, verified

This project models the local trailing-stop daemon of hl-advanced-orders and
proves properties of the model in Dafny. The daemon polls an account and a
price feed, keeps one trailing stop per rule in a state file, and, for rules in
`auto_submit`, closes the position on the exchange when the stop is crossed. It
may crash anywhere, and operators change the same file while it runs.

`dafny verify dfyconfig.toml` checks everything.

## How it is built

| file | what it holds |
|---|---|
| `prelude.dfy`, `models.dfy` | options, means, and the records of models.py with their construction |
| `trailing.dfy` | the price engine: classes `TrailingStopState` and `TrailingStopEngine`, proved against functions on values |
| `trailing_runs.dfy` | what the engine does over any sequence of ticks |
| `json.dfy`, `response.dfy` | JSON trees, and the classification of exchange responses |
| `state.dfy`, `fills.dfy` | `LocalDaemonState`, and fill and position accounting |
| `storage.dfy`, `storage_defaults.dfy` | the state codec over JSON trees; what it makes of missing fields, repeated ids and other schemas |
| `submission.dfy` | readiness and the submission policy, over a journal |
| `tick.dfy`, `daemon.dfy` | one tick as a function, and the imperative `LocalStateStore` and `DaemonService` that compute it |
| `operators.dfy` | the operator commands as they update the file |
| `protocol.dfy` | daemon and operators as interleaved small steps over one file |
| `protocol_safety.dfy`, `protocol_operators.dfy` | safety over every run; operators against a running tick |
| `protocol_refines.dfy` | an undisturbed tick is a run of small steps |
| `protocol_sizes.dfy`, `protocol_trails.dfy`, `protocol_calls.dfy` | close sizes, stops and exchange calls over every run |
| `protocol_reach.dfy` | the bounds are attained |
| `restart.dfy` | ticks in a row: rules do not interfere, and restarts are invisible |
| `whole_runs.dfy` | one rule over a run of ticks: the marks it accepts, when it fires, what is logged, what it protects |
| `tick_facts.dfy` | a tick over the fields of its inputs: which prices count, what is noted, when a pass calls |

Code that updates fields in place is a class whose methods are proved equal to
a function of the old state; what the program promises is then proved about
those functions, for every input, run or reachable state.

The journal (`Log`) holds, in the order in which they happen, the audit events,
the exchange calls and the saves of the state file. So the order of a save and
a call is part of what a tick computes, not only its result.

A run of the protocol is any list of steps: loading, taking a rule, taking its
mark, the write-ahead save, the policy's decision and call, recording the
reply, the last save, a crash, and the five operator commands. A step that is
not enabled does nothing, so theorems about all lists are theorems about all
interleavings. An exception that escapes a tick drops memory exactly as a crash
does. Everything the daemon asks of the outside - positions, fills, marks, the
readiness context, the key store, the clock, the exchange - is an arbitrary
value carried by the step that asks.

## What the proofs rest on

- Decimals are exact reals: no rounding to 28 digits, no NaN or infinity.
- One daemon process, and each operator command is one atomic
  read-modify-write of the file; the code takes no lock.
  `AStaleCommandBreaksTheBound` shows that the second assumption is needed.
- New rule ids are fresh and contain no colon (`rule_` and twelve hex digits).
- Reported fill sizes are not negative. `AccountingExactlyWhen` gives the exact
  condition without this. Position sizes are not negative either, where
  `SizesStayInRange` says so: the gateway takes their absolute value
  (hyperliquid_client.py:147).
- PERCENT prices are positive where a theorem says so. The general first-passage
  theorem needs no such thing.
- `Decimal(str(d)) == d` for the decimals that are saved (`Readable`).
- The readiness context is an arbitrary input of each submission. As cli.py
  wires it, dry-run evidence is counted per rule id while only dry-run rules
  produce it, so that no live rule would ever be ready; fixing that wiring
  would make every theorem about submissions empty.

## Where the code and its promises differ

- The runbook (docs/runbooks/trader-readiness.md, section "Normal Live") has the
  operator run continuous mode after a promotion, from which one would infer
  that a promoted rule can submit. It cannot: a rule is promoted only while
  latched, only a reset opens that latch, and a reset returns the rule to
  pending canary. `EveryCallIsJustified` and `Lifecycle` prove that every call
  is made for a pending canary in a canary run; `ACanaryReachesTheExchange`
  shows that the status is reached and the call made.
- A create, disable, promote or reset that falls inside a tick is overwritten
  by the tick's last save. `DisableHoldsExactlyWhenIdle` and
  `SwitchOffHoldsExactlyWhenUnseen` say exactly when a command holds. Turning
  the kill switch on is never lost.
- The kill switch is read at the write-ahead save. Turning it on between that
  save and the call comes too late (`CommandsAfterSaveAreTooLate`).
- Dry-run exits have no write-ahead save and are logged again after a crash
  (`CrashesRepeatDryRuns`); without crashes a trigger is logged exactly once
  (`DryRunLogsExactlyItsTrigger`).
- A reset opens the latch but keeps the stop, so the next mark at the same or a
  worse price fires at once (`ResetRuleFiresAgain`).
- Two rules on one opening order share the map of seen fills. With non-negative
  fills this is invisible (`RulesDoNotInterfere`); when fills cancel out it is
  not (`CancellingFillsInterfere`).

## Model

| member | source | states |
|---|---|---|
| Models.ConstructionIsAProjection | src/hl_advanced_orders/models.py:64-79 | A rule is constructed exactly when its numbers are valid; the result differs from the request at most in id and live status, is well formed, and constructing it again changes nothing |
| Trailing.TrailingStopState.IncreaseProtectedSize | src/hl_advanced_orders/trailing.py:27-30 | Adds a positive fill up to the configured size and changes nothing else |
| Trailing.TrailingStopEngine.SignalPrice | src/hl_advanced_orders/trailing.py:58-66 | The in-place window ends as the last w marks, and the signal is the mark or that window's mean |
| Trailing.TrailingStopEngine.UpdateTrail | src/hl_advanced_orders/trailing.py:68-86 | The favourable price only moves in favour of the position, and the stop is away from it by the fraction of it (PERCENT) or by the trail value itself (both other modes), below for LONG and above for SHORT |
| Trailing.TrailingStopEngine.Observe | src/hl_advanced_orders/trailing.py:39-112 | The whole new runtime and the exit, as a function of the old runtime and the tick |
| Prelude.MeanIsAverage | src/hl_advanced_orders/trailing.py:65-66 | The mean of one mark is that mark, and one more mark moves the mean as an average moves |
| TrailingRuns.WindowHoldsLastMarks | src/hl_advanced_orders/trailing.py:58-66 | After any run from fresh the moving window is, element by element, the last min(n, w) marks, and the signal is their mean |
| TrailingRuns.ListensExactlyWhen | src/hl_advanced_orders/trailing.py:39-43 | A fresh engine sets a stop exactly for a mark of the rule's own coin while the latch is open and something is protected; otherwise nothing changes |
| TrailingRuns.FavorableIsExtremum | src/hl_advanced_orders/trailing.py:68-86 | After any run from fresh the favourable price is the best of all signals, and one of them |
| TrailingRuns.StopRatchets | src/hl_advanced_orders/trailing.py:68-86 | From any consistent trail, favourable price and stop never move against the position, in all three modes |
| TrailingRuns.FirstPassage | src/hl_advanced_orders/trailing.py:39-96 | In every mode the engine fires at tick k if and only if k is the first tick whose mark lies at or beyond the stop of some signal up to it |
| TrailingRuns.FirstPassageOfMarks | src/hl_advanced_orders/trailing.py:39-96 | ABSOLUTE and PERCENT fire exactly at the first mark that lies a whole trail distance beyond some earlier mark, by a formula over marks alone |
| TrailingRuns.FirstPassageOfSignals | src/hl_advanced_orders/trailing.py:58-96 | In every mode the engine fires exactly at the first mark that lies a whole trail distance beyond some signal up to it, the signal being the mark or, in MOVING_AVERAGE, the mean of the last marks |
| TrailingRuns.FiresOnce | src/hl_advanced_orders/trailing.py:39-112 | No two ticks of a run fire, and the exit carries the rule, the protected size, the tick's mark and a crossed stop |
| TrailingRuns.AbsoluteDominatesMovingAverage | src/hl_advanced_orders/trailing.py:58-86 | On the same ticks and trail value, ABSOLUTE has fired whenever MOVING_AVERAGE fires, for every window and both sides |
| TrailingRuns.TighterFiresNoLater | src/hl_advanced_orders/trailing.py:68-96 | A smaller trail value fires at or before a larger one |
| TrailingRuns.RunSymmetry | src/hl_advanced_orders/trailing.py:58-96 | Negating with sides swapped, shifting, and scaling map runs to runs that fire at the same tick |
| TrailingRuns.ExitGapBound | src/hl_advanced_orders/trailing.py:45-55 | If consecutive marks differ by at most d, an exit's mark is within d of its stop |
| TrailingRuns.BlockedExitFiresAgain | src/hl_advanced_orders/trailing.py:39-96 | Once the latch is opened again, whatever marks came between, the next mark at the same or a worse price fires |
| Response.FindIsSoundAndComplete | src/hl_advanced_orders/submission.py:206-222 | For every JSON tree an error is found if and only if some dict at some depth holds one, and its text is that of such an entry |
| Response.AcceptedIffClean | src/hl_advanced_orders/submission.py:190-203 | A response is accepted if and only if its status reads "ok" in any case and no dict at any depth reports a failure |
| Response.StatusTextDecides | src/hl_advanced_orders/submission.py:191-203 | A response that is only a status is accepted if and only if that is "ok" in any case |
| Response.NestedStatusDecides | src/hl_advanced_orders/submission.py:206-226 | A nested status refuses a response if and only if it is error, err, rejected, failed or failure, in any case |
| Response.ErrorValueDecides | src/hl_advanced_orders/submission.py:206-211 | An `error` entry is harmless if and only if it is null, false, zero or empty |
| Response.FailureMessages | src/hl_advanced_orders/submission.py:191-193 | A failing status is reported as the response's body, or else its message, or else the status itself |
| Response.OtherMessages | src/hl_advanced_orders/submission.py:195-203 | What a missing status and an unknown one are reported as |
| DaemonState.LocalDaemonState.EnsureRuleState | src/hl_advanced_orders/storage.py:55-59 | The in-place dictionaries become those of the registration function |
| DaemonState.EnsureNewRule | src/hl_advanced_orders/storage.py:55-59 | Registering a new rule keeps coherence, appends it last and leaves every other record |
| DaemonState.EnsureChangedRule | src/hl_advanced_orders/storage.py:55-59 | Registering a known id keeps coherence if and only if the rule is unchanged |
| Fills.OtherFillIsIgnored | src/hl_advanced_orders/daemon.py:186-193 | A fill of another coin, side or order can be left out of a report: size, high-water marks and remembered fills come out the same |
| Fills.NoOwnFillChangesNothing | src/hl_advanced_orders/daemon.py:161-178 | A report without a fill of the rule's own coin, side and order changes nothing |
| Fills.OwnFillCounts | src/hl_advanced_orders/daemon.py:164-167 | A fill of the rule's own raises the total by exactly its size, wherever it stands |
| Fills.FirstOwnFill | src/hl_advanced_orders/daemon.py:164-178 | The first fill of an order is protected, capped, and becomes the high-water mark |
| Fills.AttachmentDecides | src/hl_advanced_orders/daemon.py:160-184 | With no order id or an empty one fills do not matter; with another, positions do not |
| Fills.OtherPositionIsIgnored | src/hl_advanced_orders/daemon.py:180-184 | A position of another coin or side can be left out of a snapshot |
| Fills.FillKeysTellFillsApart | src/hl_advanced_orders/daemon.py:168 | A fill is remembered by its id; without one two fills share a key if and only if they agree on order, coin, side and size |
| Fills.SeenUnlessFalsy | src/hl_advanced_orders/daemon.py:169-170 | A remembered value counts unless it is null, false, zero or empty |
| Fills.LoopRemembersItsRule | src/hl_advanced_orders/daemon.py:164-172 | The loop adds exactly the unseen fills of its order, under the rule's id, and leaves every other entry |
| Fills.TallyLoop | src/hl_advanced_orders/daemon.py:163-172 | The loop returns the sum of all matching fills, and its two dictionaries end as the de-duplicating tally |
| Fills.PositionSize | src/hl_advanced_orders/daemon.py:180-184 | The first matching position, capped, or zero |
| Fills.UpdateProtectedSize | src/hl_advanced_orders/daemon.py:153-184 | The whole new state after sizing one rule |
| Fills.SeenAfterLoop | src/hl_advanced_orders/daemon.py:164-172 | A fill key is remembered afterwards if and only if it was before or some matching fill carries it |
| Fills.LoopGrowsExactlyWhen | src/hl_advanced_orders/daemon.py:164-172 | The loop's own size changes if and only if there is room and some unseen positive matching fill |
| Fills.LoopAddsWhatCounts | src/hl_advanced_orders/daemon.py:164-172 | What the loop adds is the sum of the fills that count - matching, positive, not seen before nor earlier in the list - capped |
| Fills.AccountingExactlyWhen | src/hl_advanced_orders/daemon.py:161-184 | For any fills, the loop meets the one-line specification if and only if it is not the case that matching fills cancel out while one still counts; then the size is what the loop made it; the high-water mark always meets its own |
| Fills.AccountingMeetsSpec | src/hl_advanced_orders/daemon.py:161-184 | With non-negative fills the protected size is min(size, max(high-water, total)), or unchanged when nothing matched |
| Fills.CancellingFillsInterfere | src/hl_advanced_orders/daemon.py:163-178 | A family of inputs on which that condition fails: of two rules on one order only the first handled gets a size |
| Fills.AccountingStaysInRange | src/hl_advanced_orders/daemon.py:173-184 | The size never exceeds the rule's, is covered by a matching position for an unattached rule, and is not negative when positions are not |
| Fills.OtherMarksStay | src/hl_advanced_orders/daemon.py:161-177 | Sizing one rule leaves every other rule's high-water mark |
| Fills.TotalIgnoresOrder | src/hl_advanced_orders/daemon.py:163-167 | Totals of permuted fill lists agree |
| Fills.HighWaterIsRunningMaximum | src/hl_advanced_orders/daemon.py:161-178 | Over any history of non-negative reports the accounting loop leaves as high-water mark the largest total ever reported, and the protected size is that, capped |
| Fills.StaleReportsChangeNothing | src/hl_advanced_orders/daemon.py:161-178 | Running the loop again on an earlier report, replayed, permuted or truncated, changes neither |
| Storage.DecodedStateIsCoherent | src/hl_advanced_orders/storage.py:130-156 | Every accepted document - schema 1, missing fields, repeated ids - yields equal key sets, one record per rule, and runtimes that hold their rule |
| Storage.RuleRoundTrip | src/hl_advanced_orders/storage.py:186-216 | Decoding an encoded well-formed rule gives that rule |
| Storage.RuntimeRoundTrip | src/hl_advanced_orders/storage.py:218-242 | Decoding an encoded runtime gives that runtime |
| Storage.HealthRoundTrip | src/hl_advanced_orders/storage.py:158-184 | Decoding an encoded health record gives that record |
| Storage.StateRoundTrip | src/hl_advanced_orders/storage.py:112-184 | Decoding an encoded coherent state gives that state, order of rules and health record included |
| Storage.DecodingIsAFixpoint | src/hl_advanced_orders/storage.py:130-156 | Decode, encode, decode is decode, for every accepted document |
| StorageDefaults.NamesOfTheFormat | src/hl_advanced_orders/models.py:11-47 | Exactly the format's texts name the values of each enumeration |
| StorageDefaults.MissingRuleFields | src/hl_advanced_orders/storage.py:201-216 | A rule with its six required fields only is an active dry-run market rule that follows no order |
| StorageDefaults.RequiredRuleFields | src/hl_advanced_orders/storage.py:201-208 | A rule that lacks one of the six is refused |
| StorageDefaults.MissingRuntimeFields | src/hl_advanced_orders/storage.py:228-242 | A runtime that is only a known rule's id is fresh, and one for an unknown rule is refused |
| StorageDefaults.FieldsOfARuntime | src/hl_advanced_orders/storage.py:218-226 | Under which key each part of a runtime is written |
| StorageDefaults.FieldsOfHealth | src/hl_advanced_orders/storage.py:158-169 | Under which key each part of a health record is written |
| StorageDefaults.MissingHealth | src/hl_advanced_orders/storage.py:171-184 | A health record that is no dict, or an empty one, is a new one |
| StorageDefaults.WrittenSchema | src/hl_advanced_orders/storage.py:112-114 | States are written as schema 2 |
| StorageDefaults.CountersTruncate | src/hl_advanced_orders/storage.py:171-184 | Health counters lose their fraction toward zero |
| StorageDefaults.AcceptedSchemas | src/hl_advanced_orders/storage.py:130-135 | Only schemas 1 and 2 with a list of rules are accepted |
| StorageDefaults.LeastState | src/hl_advanced_orders/storage.py:130-156 | An empty document of either schema is the empty state with the switch off; any other schema is refused |
| StorageDefaults.MissingStateFields | src/hl_advanced_orders/storage.py:136-150 | In any accepted document a missing switch is off, a present one is on unless falsy, and missing maps are empty |
| StorageDefaults.MissingRuntimes | src/hl_advanced_orders/storage.py:151-156 | Without `rule_states` every rule protects nothing, has seen no price and is not triggered |
| StorageDefaults.RepeatedRules | src/hl_advanced_orders/storage.py:135 | Of rules with one id the last record counts, and earlier places stay |
| StorageDefaults.RepeatedRuntimes | src/hl_advanced_orders/storage.py:151-153 | Of runtimes for one rule the last one counts |
| Storage.FillRuntimes | src/hl_advanced_orders/storage.py:151-155 | The two filling loops succeed exactly when every entry decodes, later entries win, and rules without an entry start fresh |
| Storage.EncodedRuleHolds | src/hl_advanced_orders/storage.py:186-199 | Under which key each part of a rule is written |
| Storage.EncodedStateHolds | src/hl_advanced_orders/storage.py:112-128 | Under which key each part of a state is written, as schema 2 |
| Submission.CheckMainnetAutoSubmit | src/hl_advanced_orders/readiness.py:33-53 | Passes if and only if all seven conditions hold, and gives no reasons exactly then |
| Submission.SubmissionPolicy.CollectBlockedReasons | src/hl_advanced_orders/submission.py:132-172 | The list of reasons, empty if and only if every condition for submitting holds |
| Submission.BlockedIffNotAllowed | src/hl_advanced_orders/submission.py:132-160 | No reason is collected if and only if gateway, checker, context, readiness, fresh mark and live status all allow it |
| Submission.ReasonsAreTheFailures | src/hl_advanced_orders/submission.py:132-172 | The reasons are exactly the failing conditions, each given once |
| Submission.SubmissionPolicy.Handle | src/hl_advanced_orders/submission.py:43-130 | The outcome and the whole new journal: a dry-run record, or blocked reasons, or the call and its result |
| Submission.HandleIsGuarded | src/hl_advanced_orders/submission.py:43-130 | One call is made exactly for an allowed live exit, and success is reported exactly for a clean response to it |
| Submission.HandledOnAnswer | src/hl_advanced_orders/daemon.py:195-221 | A live exit is called for exactly when the factory's own answer passes every check, the state's switch is off, the key is there, the mark is fresh and the live status allows it; it is blocked exactly otherwise, whatever the factory said about the switch |
| Submission.ReasonsOnAnswer | src/hl_advanced_orders/daemon.py:200-221 | Which reasons are given, in terms of the factory's answer or its absence and of the state's switch |
| Tick.SettledKeepsRule | src/hl_advanced_orders/daemon.py:135-142 | Recording an outcome changes at most latch and live status; only a block opens the latch |
| Tick.TickKeepsCoherence | src/hl_advanced_orders/daemon.py:106-144 | A whole tick keeps coherence, the order of rules and the kill switch |
| Tick.LoopTouchesOnlyVisited | src/hl_advanced_orders/daemon.py:106-142 | The loop leaves the records of rules it has not visited as they were loaded |
| TickFacts.HearsExactlyWhen | src/hl_advanced_orders/daemon.py:125-129 | An armed rule hears a tick's price if and only if its source is MARK and its coin the rule's own |
| TickFacts.OtherPricesAreIgnored | src/hl_advanced_orders/daemon.py:111-126 | A mid price, another coin's price or none leaves rule, trail and latch as they were, and nothing is logged about the rule |
| TickFacts.TickNotes | src/hl_advanced_orders/daemon.py:127-128 | A tick notes a live mark, with its own time, exactly for the enabled rules it showed one; all other notes stay |
| TickFacts.PassCallsExactlyWhen | src/hl_advanced_orders/daemon.py:130-134 | A pass calls the exchange exactly when it fires a live exit that the factory's own answer, key store, clock and switch let through |
| Daemon.LocalStateStore.SavePreservingActiveKillSwitch | src/hl_advanced_orders/storage.py:107-110 | File and memory end alike, active if either was |
| Daemon.DaemonService.ObserveRuntime | src/hl_advanced_orders/daemon.py:127-129 | The state with the mark noted and the runtime observed, and the exit |
| Daemon.DaemonService.RecordOutcome | src/hl_advanced_orders/daemon.py:135-142 | The state with exactly one record settled by the outcome |
| Daemon.DaemonService.HandleExit | src/hl_advanced_orders/daemon.py:130-142 | State, file and journal after write-ahead save, policy and recording, in that order: the file holds the state before the outcome |
| Daemon.DaemonService.ProcessOne | src/hl_advanced_orders/daemon.py:106-142 | One pass over one rule computes the pass function |
| Daemon.DaemonService.RunOnce | src/hl_advanced_orders/daemon.py:80-151 | Undisturbed, file and journal end as the tick function of the old file, the old log and the answers |
| Operators.OperatorCommands.CreateTrailingRule | src/hl_advanced_orders/cli.py:245-281 | Succeeds exactly on valid numbers; the file gains exactly that rule, active, at market, its canary pending if live, with nothing protected and an open latch |
| Operators.OperatorCommands.DisableRule | src/hl_advanced_orders/cli.py:326-337 | Succeeds exactly for a known rule; the file differs in that rule's status alone |
| Operators.OperatorCommands.PromoteRuleLive | src/hl_advanced_orders/cli.py:341-359 | Succeeds exactly after canary success; the file differs in that rule's live status alone |
| Operators.OperatorCommands.KillSwitch | src/hl_advanced_orders/cli.py:528-544 | Succeeds exactly when one flag is given; the file's switch is then that flag's, and nothing else changes |
| Operators.OperatorCommands.ResetTriggeredRule | src/hl_advanced_orders/recovery.py:76-122 | Succeeds exactly with a reason, a known rule and an open matching position; the file differs in that rule's latch, size and live status alone |
| Operators.ResetReconciles | src/hl_advanced_orders/recovery.py:76-108 | A reset opens the latch, keeps the whole trail, returns a live rule to its canary and protects the first open matching position, all of it or the rule's size |
| Operators.CreatedRuleStartsFresh | src/hl_advanced_orders/trailing.py:17-25 | A created rule protects nothing, has seen no price and is not triggered, which is where the accounting of whole runs starts |
| ProtocolSafety.RequestedRule | src/hl_advanced_orders/cli.py:262-275 | What is created is the request under its new id, active, at market, with its canary pending if it is live |
| ProtocolSafety.AtMostOneCallPerArming | src/hl_advanced_orders/daemon.py:128-144 | In every run, with crashes and commands anywhere, a rule's exchange calls are at most one more than its resets, and no more than its resets while it is open on disk |
| ProtocolSafety.EveryCallIsJustified | src/hl_advanced_orders/submission.py:132-160 | In every run, every call is for an enabled pending canary in a canary run, fully ready, with a fresh mark, a crossed stop and a size that is positive, within the rule's and covered by the tick's snapshot unless the rule follows an order |
| ProtocolSafety.Lifecycle | src/hl_advanced_orders/daemon.py:223-243 | In every reachable state a live rule that is not pending its canary is latched, and normal live means an accepted response and later a promotion |
| ProtocolSafety.ReachableStatesAreCoherent | src/hl_advanced_orders/daemon.py:106-144 | File and memory stay coherent in every run, so no rule still to be visited lacks its record |
| ProtocolSafety.StepKeepsInv | src/hl_advanced_orders/daemon.py:80-144 | Every daemon step, crash and command keeps the joint invariant of file, memory and log |
| ProtocolSafety.CommandKeepsCredit | src/hl_advanced_orders/recovery.py:101-108 | A command opens a latch on disk only by a reset, which pays for the next call |
| ProtocolSizes.SizesStayInRange | src/hl_advanced_orders/daemon.py:153-184 | In every reachable state, with non-negative snapshots, the protected size of every rule in the file and in a running tick is between zero and the rule's own size |
| ProtocolTrails.StopsRatchet | src/hl_advanced_orders/trailing.py:68-86 | Whatever ticks, crashes and commands follow, a rule seen in the file between ticks stays there, and its stop and favourable price on disk never move against the position |
| ProtocolTrails.CallsUseTheSavedStop | src/hl_advanced_orders/daemon.py:128-134 | In every run, a step that calls the exchange does so for an exit whose stop is the one saved on disk and whose mark has crossed it |
| ProtocolCalls.StepCallsExactlyWhen | src/hl_advanced_orders/daemon.py:131-134 | In any state a step calls the exchange for a rule exactly when it submits an exit of it that the factory's own answer, key store, clock, options and memory's switch let through |
| ProtocolCalls.EveryCallWasSavedFirst | src/hl_advanced_orders/daemon.py:131-134 | In every run every call comes after a save that holds its rule latched at that exit's stop, with nothing but operator commands in between |
| ProtocolCalls.FileIsLastSave | src/hl_advanced_orders/storage.py:76-95 | In every run the file is what the journal last saw saved |
| ProtocolOperators.SwitchIsSet | src/hl_advanced_orders/cli.py:535-538 | Switching sets the file's switch to the new value, whatever it was, and nothing else |
| ProtocolOperators.SwitchingOnStopsAllCalls | src/hl_advanced_orders/cli.py:535-538 | After switching on, whatever the switch was, no later step calls for any rule until somebody switches off, unless a submission is already past its save |
| ProtocolOperators.ActiveSwitchStays | src/hl_advanced_orders/storage.py:107-110 | Unless an operator turns it off, an active switch on disk stays active through every run |
| ProtocolOperators.SwitchAtSaveStopsTheTick | src/hl_advanced_orders/daemon.py:131-134 | If the switch is active on disk or in memory at a trigger's save, that trigger and all later ones of the tick make no call, whatever operators do |
| ProtocolOperators.ActiveSwitchStopsAllCalls | src/hl_advanced_orders/daemon.py:195-221 | While the switch stays on and no submission is past its save, no rule reaches the exchange in any later tick |
| ProtocolOperators.CommandsAfterSaveAreTooLate | src/hl_advanced_orders/daemon.py:131-134 | Commands between the save and the policy change neither the calls nor the memory |
| ProtocolOperators.CommandsInsideATickAreLost | src/hl_advanced_orders/storage.py:107-110 | Creations, disablings, promotions and resets inside a tick leave the file as it would have been without them |
| ProtocolOperators.OffStaysOff | src/hl_advanced_orders/daemon.py:106-108 | A rule disabled on disk and in memory stays so and makes no call, in any run |
| ProtocolOperators.DisableHoldsExactlyWhenIdle | src/hl_advanced_orders/cli.py:326-333 | Disabling a rule that the tick holds as active survives the tick if and only if no tick is running |
| ProtocolOperators.SwitchOffHoldsExactlyWhenUnseen | src/hl_advanced_orders/storage.py:107-110 | Switching off inside a tick survives it if and only if the tick had not seen the switch on |
| ProtocolOperators.StaleCommandRepeatsTheTick | src/hl_advanced_orders/cli.py:535-538 | A command whose load lies before a tick and whose save lies after it lets the tick's calls happen twice with no further reset |
| ProtocolOperators.CrashesRepeatDryRuns | src/hl_advanced_orders/daemon.py:130-134 | n crashes before any save repeat a tick's dry-run exits n times |
| ProtocolRefines.TickIsARun | src/hl_advanced_orders/daemon.py:80-151 | The tick function is a run of small steps, so what holds of all runs holds of it |
| ProtocolReach.SubmittedExactlyWhenAllowed | src/hl_advanced_orders/daemon.py:133-142 | A saved exit is called for if and only if the world's own answers and the switch let it through, and otherwise is blocked with its latch opened |
| ProtocolReach.ACanaryReachesTheExchange | src/hl_advanced_orders/submission.py:99-130 | Some run makes one call with no reset and ends in normal live, so the bound is attained |
| ProtocolReach.AStaleCommandBreaksTheBound | src/hl_advanced_orders/cli.py:535-538 | Some run with one such command makes two calls for a rule that was never reset |
| ProtocolReach.ResetRuleFiresAgain | src/hl_advanced_orders/recovery.py:101-103 | After a reset the next mark at the same or a worse price fires |
| Restart.TickIsLocal | src/hl_advanced_orders/daemon.py:106-184 | After a tick a rule's record and high-water mark, and what was logged about it, are those of a tick of that rule alone, by the one-line accounting |
| Restart.RulesDoNotInterfere | src/hl_advanced_orders/daemon.py:153-184 | States that agree on one rule agree on it after the same tick, with the same events logged about it, whatever the other rules, their order and the fills they claimed |
| Restart.RestartsAreInvisible | src/hl_advanced_orders/storage.py:112-156 | A process restarted before every tick keeps a file that decodes to the state of one that never stops, and logs the same events |
| WholeRuns.RunFeedsAcceptedMarks | src/hl_advanced_orders/daemon.py:106-142 | Over any run of the daemon, blocks and failures included, the trail is the engine's fold over the accepted marks |
| WholeRuns.FiresExactlyOnPassage | src/hl_advanced_orders/daemon.py:106-142 | From a fresh trail, in every mode, dry-run and live, a tick logs an answer to an exit of the rule if and only if the rule hears a mark that passes a stop set up to it; the exit carries that mark and its time, the stop of all accepted marks, the protected size, and the rule's coin, closing side and order type |
| WholeRuns.LogsOnPassage | src/hl_advanced_orders/daemon.py:106-142 | Over a run from a fresh trail something is logged about a rule if and only if one of its accepted marks passed |
| WholeRuns.LatchFollowsLog | src/hl_advanced_orders/daemon.py:135-142 | Over any run from an open latch, a rule is latched if and only if the last thing logged about it is not a block, and its live status is what that event says |
| WholeRuns.DryRunTriggersOnPassage | src/hl_advanced_orders/daemon.py:106-142 | A fresh dry-run rule is triggered after a run if and only if some accepted mark passed |
| WholeRuns.RestartTransparency | src/hl_advanced_orders/daemon.py:106-144 | From file to file over any number of restarts, for live and dry-run rules: trail, log, latch and live status are as `RunFeedsAcceptedMarks`, `LogsOnPassage` and `LatchFollowsLog` say |
| WholeRuns.FiresAcrossRestarts | src/hl_advanced_orders/daemon.py:106-144 | Restarted before every tick, the daemon answers an exit of a rule at exactly the ticks whose mark the rule hears and that passes |
| WholeRuns.BlockedExitComesBack | src/hl_advanced_orders/daemon.py:135-136 | Once the daemon has fired for a rule, whatever ticks follow, it fires again at the next tick whose mark the rule hears at the same or a worse price |
| WholeRuns.AttachedRunProtectsLargestTotal | src/hl_advanced_orders/daemon.py:173-177 | After any run of ticks an enabled attached rule protects the largest total ever reported for its order, capped |
| WholeRuns.StaleTickLeavesTheRule | src/hl_advanced_orders/daemon.py:161-178 | A tick whose snapshot replays, permutes or truncates an earlier one leaves the rule's size and high-water mark |
| WholeRuns.DryRunLogsExactlyItsTrigger | src/hl_advanced_orders/submission.py:50-59 | Over any undisturbed run the logged dry-run exits of a rule grow exactly with its latch |

## Left out

- DecodedStateIsCoherent: the model's decoder is stricter than the code on hand-edited files: an attached order id or an observed rule id that is not a text, and a fill map given as an array of pairs, are refused.
- DecodingIsAFixpoint: for the documents that this decoder accepts.
- AtMostOneCallPerArming: says at most, not exactly: a crash after the write-ahead save leaves a rule latched with no call made, so there is no liveness to prove.
- RestartsAreInvisible: a run of undisturbed ticks with one configuration; operators and crashes inside ticks are the protocol's theorems.
- RunOnce: nobody else writes the file during the tick; interference is modelled by the protocol's steps, and `TickIsARun` joins the two.
- CreateTrailingRule: ids are fresh, and the coin arrives in upper case and the numbers arrive parsed.
- ResetTriggeredRule: a reason is blank when it is made of ASCII white space; other Unicode white space counts as a reason here. An account that fails to answer changes nothing and is not a step.
- AcceptedIffClean: the response is a dict, as the gateway's signature says; lower-casing of texts outside ASCII is an uninterpreted function.
- Aliasing of runtimes: a tick works on a copy of a rule's runtime and puts it back, where the code updates the object inside the dictionary.
- The order of `rule_states` in the file: the model writes it in the order of the rules; the code in its own insertion order, which nothing reads.
- Text: `str` of a value that is not a string, `int` of a text, `Decimal` of a text and `str` of a Decimal are uninterpreted functions (`Python`).
- Generated ids: the id given to a document's rule that has none is a function of that rule's text (`newId`), so two identical rules without an id get the same one here and different ones in the code.
- Blocked reasons are values, one per text; the display-only list that `run_once` returns is not kept.
- How the daemon computes its health record, and its timing: a health update is a load, any new record, and a save, between ticks.
- Audit events about snapshots, market data and submission attempts, and all payloads; the attempt event matters only in that failing to write it prevents the call.
- `save` as file mechanics (temporary file, fsync) and JSON as text: saving is one atomic replacement of a tree.
- `processed_fill_ids`, which nothing reads.
- Two daemons at once, and state files edited by hand while the daemon runs.
- preflight.py, secrets.py, hyperliquid_client.py, audit.py, command-line parsing and output.
