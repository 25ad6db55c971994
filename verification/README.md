# Verified model of the research ledger's money, history and bounded autonomy

This project models, in Dafny, the parts of the OpenTheory backend where a mistake costs money, rewrites
history or lets an autonomous agent run on: the harness's hold/release protocol over the debit ledger,
pricing and the turn clamp, the project pot, one bounded agent pass, the continuous campaign, the append-only
checkpoint ledger with its derived diff and blame, claim grounding, the Cordis patch parser, public handles,
and agent seats with their session tokens.

Services that assign fields are classes with those fields; their methods are proved equal to specification
functions on values, and the laws are lemmas about those functions over every input or every run. Loops
in the source are loops here. Conventions used throughout:

- Money is an integer number of 10^-6 units; rates are money per 1000 tokens. Identifiers are naturals,
  timestamps are integers (real seconds in the harness, where the turn timeout is fractional).
- One service call is one atomic step: the source takes the project row lock, and a refused call rolls back.
  Runs are arbitrary interleavings of such steps.
- Clocks, randomness, provider answers, planner output, instrument outcomes, rivals' inserts and the
  results of SQL reads with ties enter as parameters or arbitrary functions.

| file | part of the program |
|---|---|
| `harness_meter.dfy`, `harness_protocol.dfy`, `harness_session.dfy` | hold rows, their two readers, authorize / convert / release / recover |
| `harness_machine.dfy`, `harness_safety.dfy`, `harness_turns.dfy` | the simple (spent, optional hold) machine the rows refine; safety of all runs; the turn budget of a session |
| `pricing.dfy`, `pot.dfy`, `planner.dfy`, `agent_pass.dfy` | rates, the turn clamp, the pot, plan validation, the plan-observe-replan loop |
| `campaign.dfy`, `grounding.dfy` | the wave loop; grounding, headlines and yield |
| `graph.dfy`, `ledger.dfy`, `ledger_service.dfy`, `ledger_safety.dfy`, `blame.dfy` | ancestry, checkpoint / branch / merge, whole-run ledger safety, blame |
| `patch_text.dfy`, `patch_parser.dfy`, `patch_roundtrip.dfy`, `patch_noise.dfy` | the indentation parser, a printer, the round trip, layout |
| `handles.dfy`, `decimals.dfy` | handle normalisation and the free-handle search |
| `seats.dfy`, `seat_service.dfy` | agent seats and session tokens |
| `common.dfy` | shared small datatypes |

Three facts a reader may not expect, each with its lemma:

- A hold/release ledger is only as safe as its TTL: cap safety carries a "spent late" term
  (`HarnessSafety.CapSafety`), and the term is zero when the startup check accepted the settings and turns
  finish within timeout plus margin (`HarnessSafety.AcceptedSettingsProtectLiveTurns`).
- Blame telescopes over every validation history if and only if the listed chain is linear by ancestry
  (`Blame.TelescopesIffLinear`). The chain is listed by creation time, so two application servers with skewed
  clocks can list a linear history out of order (`Blame.SkewedClocksBreakBlame`).
- The free-handle search trusts a pre-query on a 24-character prefix. With fewer than 900,000 taken
  handles that is enough (`Handles.PartialQuerySuffices`). In general the offer can be trusted exactly when it
  still carries that prefix (`Handles.QueryTrustedExactly`, `Handles.PrefixKeptExactly`); past a million handles it
  need not (`Handles.QueryBlindSpot`). The retry loop still never takes over anybody's handle (`Handles.Accounts.CreateAccount`).

Where documentation and code disagree, the code is followed: the merge-base fallback to all common ancestors is
kept and shown unreachable on acyclic maps; the column-zero check of the patch parser is kept and shown dead
(`PatchParser.ColumnCheckIsDead`); a turn's prompt is not covered by its clamp (`Pricing.PromptCanOverdraw`, with the exact condition in `Pricing.OverdrawExactly`);
and the two readers of the hold rows pair leftovers without an id differently (`HarnessMeter.LegacyReadersDiffer`, with the
exact condition in `HarnessMeter.LegacyReadersAgreeExactly`).

## Model

| member | source | states |
|---|---|---|
| HarnessMeter.UnmatchedHolds | backend/app/services/harness_meter.py:196-230 | the writer's reader returns the id-carrying holds no release names, plus the id-less ones not covered by id-less release totals |
| HarnessMeter.PairHolds | backend/app/services/harness_meter.py:243-286 | the dashboard's reader returns every hold row once with its status and the time of its release, in display order |
| HarnessMeter.ReadersAgree | backend/app/services/harness_meter.py:196-286 | on any rows at all, both readers call the same id-carrying holds open: those on the ledger that no release names |
| HarnessMeter.LegacyReadersAgreeExactly | backend/app/services/harness_meter.py:196-286 | on id-less leftovers the readers agree hold by hold exactly when the releases' total pays for the first holds, one per release, and what is left pays for none of the others |
| HarnessMeter.LegacyReadersDiffer | backend/app/services/harness_meter.py:196-286 | a day on which they disagree: holds of 9 and 5, the second released; the writer still sees the 9 open, the dashboard the 5 |
| HarnessSession.HoldHasRelease | backend/app/harness/session.py:469-482 | true exactly when a release naming the hold is on the ledger |
| HarnessSession.ReleaseStaleHolds | backend/app/harness/session.py:485-512 | appends the opposite-token release of each unmatched hold past its TTL and nothing else |
| HarnessSession.SumTokens | backend/app/services/harness_meter.py:511-536 | the day's sum over all adjustment rows |
| HarnessSession.BilledAgentSpend | backend/app/services/agent_caps.py:83-100 | what a seat was billed by the rows, holds and releases excluded |
| HarnessSession.OutstandingHoldTokens | backend/app/services/agent_caps.py:103-112 | the unmatched hold tokens of a seat |
| HarnessSession.LoadSeatRoom | backend/app/services/agent_caps.py:115-134 | a seat's remaining lifetime tokens, or none when uncapped |
| HarnessSession.Session.Authorize | backend/app/harness/session.py:729-835 | decides as the specification does after stale recovery; a grant appends the recovery credits and the whole remaining room as one hold, a refusal writes nothing |
| HarnessSession.Session.ReleaseHold | backend/app/harness/session.py:837-855 | appends the matching credit unless one is already there |
| HarnessSession.Session.RecordSpend | backend/app/harness/session.py:857-914 | appends the credit unless recovery already did, then the spend, in one step |
| HarnessTurns.SpentBudgetRefuses | backend/app/harness/session.py:381-386 | once the counted turns reach the budget every try is refused and writes nothing: for drift first, otherwise for the turn budget |
| HarnessTurns.TurnsWithinBudget | backend/app/harness/session.py:916-919 | a session that counts a turn only after a try was let through never counts more turns than its budget, whatever other sessions write in between |
| HarnessMachine.LegalMeans | backend/app/harness/session.py:469-512 | on every ledger the protocol can write, the day's sum is spend plus the one open hold, never negative, and the open holds are that hold |
| HarnessMachine.RecoveredMeans | backend/app/harness/session.py:485-512 | stale recovery drops the hold exactly when it is past its TTL and leaves the spend alone |
| HarnessMachine.AuthorizeRefines | backend/app/harness/session.py:777-835 | authorize on the row list decides exactly as on the (spent, optional hold) machine |
| HarnessMachine.GrantPromises | backend/app/harness/session.py:389-400 | a grant holds the cap less the day's sum, and its clamp is at least the floor and within the hold and the seat's room |
| HarnessMachine.GrantRefines | backend/app/harness/session.py:813-835 | a grant leaves the same spend with the whole remaining room held, under a new id |
| HarnessMachine.OpenIffUnreleased | backend/app/harness/session.py:469-482 | a recorded hold is the machine's open hold exactly when no release names it |
| HarnessMachine.ConvertRefines | backend/app/harness/session.py:857-914 | converting releases the hold if it is still open and adds the spend; after a recovery it only adds the spend |
| HarnessSafety.RunsAreSafe | backend/app/harness/session.py:729-914 | every run keeps the ledger legal, exclusive, within the bound, and every granted turn on record |
| HarnessSafety.CapSafety | backend/app/harness/session.py:777-914 | after any interleaving, spend plus the open hold is at most the cap plus overshoot, late spend and unheld spend |
| HarnessSafety.Exclusion | backend/app/harness/session.py:777-835 | at most one hold is open; while it is, the sum reaches the cap and an authorize that finds it fresh is refused and writes nothing |
| HarnessSafety.ReleasesMatchHolds | backend/app/harness/session.py:837-914 | each release follows the one hold it names, carries the opposite tokens, and no hold is released twice |
| HarnessSafety.SeatSafety | backend/app/services/agent_caps.py:70-112 | a seat that entered the day within its lifetime cap stays within it, but for its own overshoot and spend without a live hold |
| HarnessSafety.AcceptedSettingsProtectSeats | backend/app/services/harness_meter.py:132-193 | under accepted settings and timely turns a seat passes its lifetime cap only by its own turns' overshoot, spend stamped to it from another seat's turn, and spend without a hold |
| HarnessSafety.AcceptedSettingsProtectLiveTurns | backend/app/services/harness_meter.py:132-193 | with settings the startup check accepts and turns inside timeout plus margin, no live turn loses its hold and nothing is spent late |
| Pricing.RoundNeverPasses | backend/app/agent/pricing.py:152-157 | half-up rounding never lifts a quotient past a whole bound it did not exceed |
| Pricing.RoundMonotone | backend/app/agent/pricing.py:152-157 | rounding keeps order, so more tokens never cost less |
| Pricing.ClampFitsEveryRoom | backend/app/services/harness_meter.py:395-424 | the clamp fits the daily, pot and seat room and equals the tightest; a request never widens it |
| Pricing.PotTokensFit | backend/app/services/harness_meter.py:379-392 | tokens bought from the pot at one rate cost at most the pot at that rate or any cheaper one |
| Pricing.ClampRateIsDearest | backend/app/services/harness_meter.py:347-376 | the clamp's rate is at least every rate the same quote can bill at |
| Pricing.CompletionFitsPot | backend/app/harness/session.py:796-817 | completion and unattributed tokens inside the clamp cost at most the pot's available amount, rounding included |
| Pricing.PromptCanOverdraw | backend/app/agent/pricing.py:160-190 | the prompt is not reserved: a turn inside its clamp can cost more than the pot held, billed on the split, on the sum alone, or from the catalogue |
| Pricing.OverdrawExactly | backend/app/agent/pricing.py:160-190 | for every quote, with or without reported counts, everything inside the clamp leaves the bill within the pot exactly when the prompt and a full clamp at the quote's rates fit it |
| Pricing.RemainderBillsAsCompletion | backend/app/agent/pricing.py:160-190 | tokens beyond the prompt cost the same however many of them are reported as completion |
| Pricing.SplitBillWithinOneQuantum | backend/app/agent/pricing.py:160-190 | a split bill is within one 10^-6 quantum of the exact cost |
| Pot.NoOversell | backend/app/services/compute.py:117-267 | over any interleaving spent plus reserved is at most funded plus what debits took beyond the holds they replaced, and no run is debited twice |
| Pot.ReserveEnvelope | backend/app/services/compute.py:197-259 | a reservation is positive, fits the remainder, and leaves room for another pass only if the whole envelope fitted |
| Pot.StopIsFinal | backend/app/services/compute.py:92-114 | tokens only grow, so once the mid-pass policy stops a pass it stays stopped |
| Pot.ProjectPot.ProjectBudget | backend/app/services/funding.py:163-204 | the aggregation loop returns funded, spent, reserved and their difference |
| Pot.ProjectPot.CreateFunding | backend/app/services/funding.py:78-141 | records a positive native or internal allocation, refuses anything else unchanged |
| Pot.ProjectPot.ReserveComputeForPass | backend/app/services/compute.py:224-259 | holds the specified amount on the run, or nothing when the pot is empty |
| Pot.ProjectPot.ReleaseComputeReservation | backend/app/services/compute.py:262-267 | clears the run's hold and nothing else |
| Pot.ProjectPot.RecordComputeDebit | backend/app/services/compute.py:117-183 | at most one debit per run, none for zero tokens, at the quoted cost |
| Pot.ProjectPot.SettlePass | backend/app/services/agent_runs.py:527-541 | the debit and the release of the hold it replaces are one step |
| Planner.Plan | backend/app/agent/planner.py:188-227 | the validating loop keeps or drops every proposal and truncates to the cap |
| Planner.PlanConserves | backend/app/agent/planner.py:188-227 | runnable and dropped runs together are exactly the proposals, none lost or doubled, and every runnable one is valid |
| AgentPass.ValidatingPlannerIsContractual | backend/app/agent/planner.py:188-227 | a planner that answers with validated and truncated plans keeps the contract the pass accounting needs |
| AgentPass.TallyAddsUp | backend/app/services/agent_runs.py:200-248 | executed rows number landed plus failed plus skipped, dropped rows the dropped runs |
| AgentPass.AgentRun.ExecuteBatch | backend/app/services/agent_runs.py:588-745 | every run of a batch gets one row in order: landed or failed if attempted, skipped after a budget stop; a crash loses only the run it hit |
| AgentPass.AgentRun.SkipRest | backend/app/services/agent_runs.py:598-617 | a budget stop records the whole rest of the batch as skipped |
| AgentPass.AgentRun.AdoptPlan | backend/app/services/agent_runs.py:804-833 | a plan version adds its row and one row per dropped run, and grows the proposed count and tokens |
| AgentPass.AgentRun.PlanObserveReplan | backend/app/services/agent_runs.py:588-846 | the loop ends within its replan and attempt budgets and keeps trace and plan versions in agreement |
| AgentPass.AgentRun.RunPass | backend/app/services/agent_runs.py:332-886 | for every planner, policy and instrument the pass stops in a terminal status within 1 + max_replans calls and max_runs attempts; the counter equals landed rows; the tokens used are those of every plan version and of an unusable reply; the only debit is the first call's; a completed pass accounts for every proposed run |
| Campaign.ResolveMaxCycles | backend/app/services/campaigns.py:78-83 | a client's cap never exceeds the server's and is at least one when the server allows any |
| Campaign.ResolveConcurrency | backend/app/services/campaigns.py:86-92 | concurrency is between one and four, no more than configured, and what was asked for when that fits |
| Campaign.CycleSlots | backend/app/services/campaigns.py:95-107 | no slot exactly when no cycle or no thread is left; otherwise each slot past the first still has threads the earlier ones cannot cover |
| Campaign.NoOpenWorkIsWitnessed | backend/app/services/campaigns.py:597-616 | a wave never ends the campaign for lack of work unless a cycle found that, none hit its pass cap, and no cancel or empty pot comes first |
| Campaign.VerdictMeans | backend/app/services/campaigns.py:575-630 | each stop reason read off a wave is witnessed by that wave's rows, the last budget read, the last reload or the error streak |
| Campaign.ResearchCampaign.RequestCancel | backend/app/services/campaigns.py:233-247 | sets the flag on a running campaign, refuses otherwise, never clears it |
| Campaign.ResearchCampaign.OpenWave | backend/app/services/campaigns.py:390-447 | the checks before a wave in order, each stop with its reason; a wave that opens has at least one slot, so the empty-wave guard never fires |
| Campaign.ResearchCampaign.PlanWave | backend/app/services/campaigns.py:465-489 | numbers consecutive cycles, at most the slots, never past the cap, and starts none only if cancelled |
| Campaign.ResearchCampaign.RecordRow | backend/app/services/campaigns.py:508-568 | consecutive_errors stays the length of the trailing failed rows, cycles_completed the finished rows |
| Campaign.ResearchCampaign.RecordWave | backend/app/services/campaigns.py:502-571 | one row per planned cycle, with its wave and its peers |
| Campaign.ResearchCampaign.RunWave | backend/app/services/campaigns.py:465-571 | a wave leaves rows numbered to the current cycle, or dies having lost only its own |
| Campaign.ResearchCampaign.OneWave | backend/app/services/campaigns.py:461-630 | one iteration records a wave and either ends the campaign for a witnessed reason or goes on with more cycles used or a cancel seen |
| Campaign.ResearchCampaign.Execute | backend/app/services/campaigns.py:354-631 | for every outcome and cancel timing the loop ends with current_cycle within max_cycles, waves within the concurrency, fewer than budget plus concurrency failures in a row, and a stop reason witnessed by the last read made of its kind or by a row of the last wave |
| Grounding.ComputeGrounding | backend/app/services/grounding.py:142-172 | the accumulating loop computes the specified grounding |
| Grounding.StrongestIsMaximum | backend/app/toolbench/grading.py:209-213 | strongest is a member of highest rank under A > B > C > D, none only for no grades |
| Grounding.GroundingClimbs | backend/app/services/grounding.py:122-172 | as evidence accumulates both rungs and the headline only climb ungrounded < cited < D < C < B < proven < refuted |
| Grounding.GroundingIgnoresOrder | backend/app/services/grounding.py:142-172 | a grounding depends only on which links there are |
| Grounding.HeadlineMeans | backend/app/services/grounding.py:68-139 | refuted exactly when a counter earns A or B, proven exactly when a support earns A and it is not refuted, ungrounded exactly when nothing contributes |
| Grounding.MovementsCompose | backend/app/services/grounding.py:178-198 | over climbing groundings, the movement from first to last is the stronger of the two steps |
| Grounding.YieldComposes | backend/app/services/grounding.py:178-198 | a whole pass moves a claim exactly as much as its strongest batch did |
| Grounding.PassMovesWhatABatchMoved | backend/app/services/agent_runs.py:684-706 | the recorded yield of a claim, absent snapshots included, is its strongest batch movement |
| Grounding.LosingEvidenceBreaksComposition | backend/app/services/grounding.py:178-198 | only that the accumulation hypothesis is used: were evidence removed, which no service does, the law would fail |
| Grounding.ComputeYield | backend/app/services/grounding.py:201-236 | counts the moved claims and lists every claim that moved or changed headline |
| Graph.WalkAncestors | backend/app/services/diff.py:59-74 | terminates on every finite parent map, cyclic ones included, with exactly the nodes reachable from the start |
| Graph.ReachesTransitive | backend/app/services/diff.py:59-74 | reachability over parents is transitive |
| Graph.SortCheckpointIds | backend/app/services/diff.py:105-109 | lists the ids once each, by creation time and then id |
| Graph.ListingUnique | backend/app/services/diff.py:105-109 | that listing is unique |
| Graph.LowestCommonAncestor | backend/app/services/diff.py:77-102 | returns the newest of the common ancestors that are no other's proper ancestor, falling back to all common ones |
| Graph.ProperAncestors | backend/app/services/diff.py:91-94 | the union of the proper ancestors of a set, computed node by node |
| Graph.SomeLowest | backend/app/services/diff.py:95-99 | on an acyclic map a non-empty common set has a lowest member, so the fallback is never taken |
| Graph.MergeBaseIsLowest | backend/app/services/diff.py:77-102 | the merge base is a common ancestor proper to no other common ancestor, symmetric in its tips, and `from` whenever `from` is an ancestor of `to` |
| Graph.CompareTips | backend/app/services/diff.py:442-469 | computes the ancestry block of a semantic diff |
| Graph.AncestryIsOneOfFour | backend/app/services/diff.py:442-469 | exactly one of equal, from-before-to, to-before-from, diverged; diverged exactly when neither tip reaches the other |
| Graph.AncestryStable | backend/app/services/diff.py:442-469 | the ancestry of two recorded tips is unchanged by anything recorded later |
| Graph.AppendKeepsAcyclic | backend/app/services/checkpoints.py:180-201 | a new node whose parents are all recorded closes no cycle |
| LedgerService.Store.ValidateParents | backend/app/services/checkpoints.py:180-201 | returns the parents deduplicated in order, or the first complaint |
| LedgerService.Store.CreateCheckpoint | backend/app/services/checkpoints.py:233-358 | appends one checkpoint or refuses with the first complaint, leaving everything as it was |
| LedgerService.Store.CreateBranch | backend/app/services/branches.py:54-127 | forks from a checkpoint of the project, with the branch's first checkpoint parented on it |
| LedgerService.Store.CloseBranch | backend/app/services/branches.py:130-174 | flips an open branch once and records the event on the main line |
| LedgerService.Store.MergeBranches | backend/app/services/merges.py:89-236 | records one merge node over the distinct source heads and the target's head and flips every source |
| LedgerService.Store.LoadMerge | backend/app/services/merges.py:101-176 | the checks of a merge in the order they are raised, and its parents |
| LedgerService.DedupIds | backend/app/services/merges.py:102-108 | first occurrences, in order |
| LedgerService.CollectParents | backend/app/services/merges.py:150-176 | the distinct heads of the sources and the target, none if a source has no checkpoint |
| LedgerSafety.CheckpointGood | backend/app/services/checkpoints.py:233-358 | an accepted checkpoint keeps the ledger good and everything recorded |
| LedgerSafety.ForkGood | backend/app/services/branches.py:92-127 | an accepted fork keeps the ledger good; the branch's only checkpoint is then the one parented on the fork point |
| LedgerSafety.BranchesBegin | backend/app/services/branches.py:92-127 | every branch a run creates has a moment at which its only checkpoint, hence its first, is parented on its fork point, which never changes |
| LedgerSafety.CloseAccepted | backend/app/services/branches.py:130-172 | on a good ledger closing succeeds exactly for an open branch |
| LedgerSafety.CloseSeals | backend/app/services/branches.py:150-172 | closing adds no checkpoint to the branch it closes |
| LedgerSafety.CloseGood | backend/app/services/branches.py:130-172 | an accepted close keeps the ledger good and everything recorded |
| LedgerSafety.MergeGood | backend/app/services/merges.py:102-236 | an accepted merge keeps the ledger good: every source's newest checkpoint becomes a parent of a node with two distinct parents |
| LedgerSafety.RunsAreGood | backend/app/models/append_only.py:38-51 | over every run the graph stays acyclic and in-project, every branch keeps a checkpoint parented on its fork point, closed branches gain nothing and never reopen, merged heads stay merged, and nothing recorded changes |
| LedgerSafety.EmptyIsGood | backend/app/services/checkpoints.py:233-358 | the empty ledger is good, so every run from it is |
| LedgerSafety.DiffIsStable | backend/app/services/diff.py:155-192 | ancestry and instrument outcomes between two fixed checkpoints are unchanged by every later run |
| Blame.ComputeSignal | backend/app/services/claims.py:20-43 | the two-flag loop computes the signal |
| Blame.SignalMeans | backend/app/services/claims.py:20-43 | contested exactly when some contradiction or failure has no later retraction; validated exactly when not contested and something passed |
| Blame.FilterVisible | backend/app/services/diff.py:217-228 | the validations recorded on the visible checkpoints, in order |
| Blame.ClassifyTouch | backend/app/services/blame.py:67-96 | none exactly when no reference touches the claim, otherwise exactly the roles its references give, with "instrument" added |
| Blame.RecorderTouches | backend/app/services/blame.py:200-205 | the checkpoint that recorded a validation of the claim touches the claim |
| Blame.RecordersAreListed | backend/app/services/blame.py:200-285 | so every recorded validation was recorded on a listed checkpoint |
| Blame.AttachRecorders | backend/app/services/blame.py:198-246 | attaches to each validation the first checkpoint whose reference recorded it |
| Blame.BlameClaim | backend/app/services/blame.py:179-406 | from one list of references: the touching checkpoints with their roles, their listing and the chain over it |
| Blame.BlameChain | backend/app/services/blame.py:269-406 | one step per touching checkpoint in listing order, with the signals visible before and at it |
| Blame.LinearTelescopes | backend/app/services/blame.py:324-406 | on a linear chain each before-signal is the previous after-signal, the first is none, the last is the signal over all recorded validations |
| Blame.TelescopesIffLinear | backend/app/services/blame.py:324-406 | a chain telescopes for every validation history exactly when it is linear by ancestry |
| Blame.BlameTelescopes | backend/app/services/blame.py:179-406 | when clocks follow ancestry and the checkpoints that touch the claim are totally ordered, the listed chain telescopes over every recorded validation |
| Blame.SkewedClocksBreakBlame | backend/app/services/blame.py:285 | a linear history with a child stamped before its parent is listed out of order and does not telescope |
| PatchParser.ParseTopLevelItems | backend/app/harness/composition.py:329-348 | the top-level loop returns what the grammar says of the lines, errors included |
| PatchParser.ParseListItem | backend/app/harness/composition.py:351-365 | agrees with the grammar and returns a strictly larger index |
| PatchParser.ParseMappingBody | backend/app/harness/composition.py:368-386 | agrees with the grammar, never moves backwards, so the mutual recursion ends |
| PatchParser.ParseKeyValue | backend/app/harness/composition.py:389-423 | agrees with the grammar and returns a strictly larger index |
| PatchParser.PeekContent | backend/app/harness/composition.py:404-412 | finds the next line that is not blank or a comment |
| PatchParser.ParseNestedList | backend/app/harness/composition.py:426-443 | agrees with the grammar and never moves backwards |
| PatchParser.ParseFoldedBlock | backend/app/harness/composition.py:446-459 | joins the stripped non-blank lines of the block and stops at the first line outside it |
| PatchParser.PutThenGet | backend/app/harness/composition.py:385-386 | assigning a key changes that key alone |
| PatchParser.ColumnCheckIsDead | backend/app/harness/composition.py:340-343 | an indented line already fails the dash check, so the column-zero error cannot occur |
| PatchRoundTrip.ScalarParses | backend/app/harness/composition.py:462-478 | every supported scalar form parses to its meaning |
| PatchRoundTrip.BlockRoundTrip | backend/app/harness/composition.py:446-459 | a printed block folds to its words and ends there, blank lines behind it aside |
| PatchRoundTrip.PayloadRoundTrip | backend/app/harness/composition.py:389-423 | a key's line and what is under it parse to the key and the payload's meaning |
| PatchRoundTrip.BodyRoundTrip | backend/app/harness/composition.py:397-423 | each kind of payload parses back, leaving what follows but for noise |
| PatchRoundTrip.EntriesRoundTrip | backend/app/harness/composition.py:368-386 | printed entries parse to their assignments in order |
| PatchRoundTrip.ItemRoundTrip | backend/app/harness/composition.py:351-365 | a printed list item parses to its meaning |
| PatchRoundTrip.ItemsRoundTrip | backend/app/harness/composition.py:426-443 | a printed nested list parses to the meanings of its items |
| PatchRoundTrip.RoundTrip | backend/app/harness/composition.py:329-478 | for every tree of the subset, with any indentation, comments, blank lines, trailing comments and block styles, parsing its print gives its meaning |
| PatchNoise.NoiseIsIrrelevant | backend/app/harness/composition.py:329-478 | removing every blank line, comment line and trailing comment changes nothing |
| PatchNoise.CommentAfterBlock | backend/app/harness/composition.py:446-459 | a comment line right after a folded block stays a comment exactly when it is indented less than the block |
| Handles.NormalizeIsWellFormed | backend/app/core/usernames.py:59-75 | any text becomes three to thirty lower-case letters, digits or single underscores, not starting with one |
| Handles.RenormalizeExactly | backend/app/core/usernames.py:59-75 | normalising again changes a handle exactly when truncation left a trailing underscore |
| Handles.BaseIsUsable | backend/app/core/usernames.py:78-93 | the chosen base is well formed and not reserved |
| Handles.SameWidthDistinct | backend/app/core/usernames.py:96-118 | candidates with suffixes of one width are distinct |
| Handles.CandidatesCanRepeat | backend/app/core/usernames.py:107-118 | a suffix can rebuild the base, so candidates can repeat |
| Handles.WalkStops | backend/app/services/account.py:29-58 | some candidate is free of every finite taken set |
| Handles.WalkStopsEarly | backend/app/services/account.py:52-55 | with fewer than 900,000 taken handles the first free candidate has a suffix of at most six digits |
| Handles.PartialQuerySuffices | backend/app/services/account.py:42-55 | then it is well formed, unreserved, not excluded, and held by no account at all |
| Handles.QueryTrustedExactly | backend/app/services/account.py:42-55 | given what the pre-query saw, the offer is unheld for every set of handles it could have been run on exactly when the offer carries the query's prefix |
| Handles.PrefixKeptExactly | backend/app/services/account.py:21-26 | the prefix survives exactly when the suffix has at most six digits, fits beside the base, or spells the part of the prefix it replaces |
| Handles.QueryBlindSpot | backend/app/services/account.py:42-55 | with every handle up to base1000000 held, the pre-query calls a held handle free |
| Handles.Walk | backend/app/core/usernames.py:107-118 | stops at the first candidate that is not taken |
| Handles.GenerateUniqueUsername | backend/app/services/account.py:29-58 | the first free candidate; unheld by anyone while fewer than 900,000 are taken |
| Handles.Accounts.Allocate | backend/app/services/account.py:70-84 | each retry offers a new handle, every failure is a handle really held, success adds exactly one handle nobody held |
| Handles.Accounts.CreateAccount | backend/app/services/account.py:61-84 | the same for the base picked from email and name; without rivals the first offer is accepted |
| Handles.ReservedWords | backend/app/core/usernames.py:37-53 | "user" is not reserved and the reserved words hardly narrow the search |
| Seats.ClampTtl | backend/app/services/agent_tokens.py:108-126 | unavailable exactly without a maximum, refused exactly when the request is outside it, otherwise the request or the default capped by the maximum |
| Seats.TransferRetires | backend/app/services/agent_roster.py:76-109 | a transfer leaves no live token on a seat it suspended |
| Seats.TransferSparesOthers | backend/app/services/agent_roster.py:76-109 | seats the transfer does not reach, and their tokens, are untouched |
| Seats.PatchRetires | backend/app/services/agent_roster.py:394-469 | a suspension or revocation leaves no live token, and a revoked seat stays revoked |
| Seats.RunsAreSafe | backend/app/services/agent_roster.py:49-153 | over every run an unrevoked token has an active seat, REVOKED is terminal, a revocation is never undone or restamped, and who deployed a seat is never rewritten |
| Seats.NeverResolvesAgain | backend/app/services/agent_tokens.py:270-373 | once a token's seat has been anything but active, no bearer of it is admitted again, whatever happens to the seat |
| Seats.DeactivationKillsTokens | backend/app/services/agent_roster.py:76-153 | suspending, revoking or transferring away a seat is such a moment for every token it then has, resume included |
| Seats.AdmittedExactly | backend/app/services/agent_tokens.py:333-373 | a bearer is admitted exactly when its row matches, is unrevoked and unexpired; the seat check can no longer fail |
| Seats.MintedIsAdmitted | backend/app/services/agent_tokens.py:155-203 | a minted token is admitted at once and refused from at most the maximum lifetime on |
| SeatService.Roster.RevokeLiveTokensForActors | backend/app/services/agent_roster.py:49-73 | stamps exactly the live tokens of these actors on this project |
| SeatService.Roster.PauseReached | backend/app/services/agent_roster.py:90-104 | suspends exactly the active seats a transfer reaches and reports their actors |
| SeatService.Roster.SuspendAgentsOnOwnerTransfer | backend/app/services/agent_roster.py:76-109 | the whole transfer, the crew's tokens included even without a seat |
| SeatService.Roster.GetOrCreateProjectAgentActor | backend/app/services/agent_actors.py:77-153 | one crew actor per project with a seat; an existing seat of any status is left alone |
| SeatService.Roster.DeployProjectAgent | backend/app/services/agent_roster.py:306-391 | a new active seat, or a conflict when the crew is already seated |
| SeatService.Roster.ResumeProjectAgent | backend/app/services/agent_roster.py:112-153 | only the owner, only a suspended seat; no token is revived |
| SeatService.Roster.PatchProjectAgent | backend/app/services/agent_roster.py:394-469 | status and cap edits with their refusals; leaving service revokes the seat's live tokens |
| SeatService.Roster.MintAgentSessionToken | backend/app/services/agent_tokens.py:155-203 | a token only on an active seat, for the clamped lifetime |
| SeatService.Roster.RotateAgentSessionToken | backend/app/services/agent_tokens.py:206-233 | revoke and mint together; a refused mint revokes nothing |
| SeatService.Roster.RevokeAgentSessionToken | backend/app/services/agent_tokens.py:236-255 | idempotent: an already revoked token keeps its stamp |
| SeatService.Roster.ResolveAgentSessionToken | backend/app/services/agent_tokens.py:333-373 | admits and stamps a matching live bearer, refuses all others unchanged |

## Left out

- Harness runs fix one project, one configured cap and one UTC day: the sum and the release lookup read only the day's rows, so a hold taken before midnight and credited after it is outside the model.
- HarnessMeter.PairHolds: the notes text of each pair is not modelled.
- HarnessSession.BilledAgentSpend: the billed dollar amount is not summed.
- HarnessSession.LoadSeatRoom: the dollar remainder of a seat is a field of the request instead.
- HarnessSession.Session.RecordSpend: the priced amount of the spend row is not modelled.
- Pot.ProjectPot.ProjectBudget: currency and the breakdowns by source and status.
- HarnessSession.Session.Authorize: which composition, credential or membership gate refuses first enters as a request field, as does the USD room of a seat; the bound token id is dropped.
- Decimal contexts: money and rates are exact integers of 10^-6, so a 28-digit overflow of a Decimal is not modelled.
- Pot.ProjectPot.CreateFunding: account lookup, native flags of foreign providers and the read models built after the insert.
- AgentPass.AgentRun.RunPass: branch selection, the observation text and its failure path, and the yield measurement at the end; the planner's JSON parsing.
- Planner.Plan: the claim, instrument and input checks are given by the offered sets and each proposal's own verdict.
- Campaign.ResearchCampaign.Execute: orchestrations are arbitrary outcomes; the error text kept for the operator and the budget snapshots are dropped.
- Campaign.ResearchCampaign.RequestCancel: the project's running orchestrations are not flagged.
- Sweeping stale campaigns and stale passes left running by a dead process.
- Grounding.ComputeGrounding: the instrument matrix is an arbitrary function; rollups per thread or project only count headlines.
- Semantic diff: the claims section depends on references made later on other lines, so it has no stability law; reference resolution by name is left out.
- LedgerSafety.RunsAreGood: branches the run started with are only known to keep some checkpoint parented on their fork point; `LedgerSafety.BranchesBegin` covers those the run creates.
- LedgerSafety.DiffIsStable: outcomes are compared in interval order, without the final sort by instrument name.
- LedgerService.Store.CreateCheckpoint: whether a referenced artifact, claim or evidence row exists enters as a flag of the payload.
- Blame.BlameChain: the grounding column, the producing actor and the linked agent run of a step; the touching checkpoints and recorders it is given are those `Blame.BlameClaim` derives.
- Blame.LinearTelescopes: about any chain that carries the recorded validations; `Blame.RecordersAreListed` shows that the listed one does.
- Row locks, isolation levels and savepoints: a service call is one atomic step.
- PatchParser.ParseTopLevelItems: splitting the source into lines; white space is ASCII only, and integers use ASCII digits.
- PatchRoundTrip.RoundTrip: texts containing `#`, scalar list items containing `:`, empty nested lists and maps written other than as a bare key, and tabs as indentation are outside the printed subset.
- Verifying the parsed patch against the capability inventory: a list of constant checks.
- Handles.NormalizeIsWellFormed: lower-casing and stripping are an arbitrary function applied first, so Unicode case rules are not modelled.
- Seats.AdmittedExactly: signature, issuer, audience and issue-time checks of the JWT; a bearer is its decoded claims, and every actor is an agent.
- SeatService.Roster.GetOrCreateProjectAgentActor: the owner's account set on an account-less crew actor, and a project that does not exist.
- SeatService.Roster.DeployProjectAgent: the project exists; membership of the acting human is given by their role.
- HTTP routes, the gateway, migrations, the front end and everything that only formats text.
