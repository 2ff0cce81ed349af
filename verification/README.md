# Chilimba: a verified model of the savings-club backend

Chilimba runs rotating savings clubs. The members of a group pay a fixed contribution into every round of a
cycle, and each round pays its collected money to k recipients. This project models the engine behind that, in
Dafny, and proves what it promises over whole runs: where the money of a round comes from and goes to, who is
paid how often, how cycles and rounds move, and when the reports agree with the stored totals. Five smaller
machines of the same repository are modelled beside it: the token refresh of the web client, the money printer
and parser, one-time passwords, the loan book, and billing.

`dafny verify dfyconfig.toml` checks everything.

## How the model is built

* `Tables.dfy` holds the rows of the engine's tables, a snapshot type `World`, and a class `Database` whose fields
  the services reassign. A write (`Write`) is one statement or one transaction; `Apply` is its effect.
* Each service file has a module: a function such as `RecordCall` says which writes a call issues or which error
  it throws, and a method such as `RecordContribution` performs the call on a `Database`, loop by loop, and is
  proved to do exactly that (`Did`). The scheduler, late detection, reports, OTP, loan, billing and client
  modules pair methods with functions in the same way.
* `Backend.dfy` makes a state machine of it: an `Event` per service call, `Step`, `Run`. Its invariant `Valid`
  is kept by every write that satisfies `Guard`, and every call issues guarded writes only. A run may interleave
  any calls of any groups in any order; refused calls change nothing.
* `Fairness`, `LedgerLaw`, `History`, `Completion`, `Stranding`, `Rotation`, `Reroll`, `Fulfilment`, `Redraw` and
  the second half of `Reports` hold the theorems. Lemmas that take a `World` with `Valid` hold in every reachable
  state, because `RunKeepsValid` carries `Valid` from a database without cycles (`Fresh`) through every run.
  `Witnesses` and `PairWitnesses` hold concrete runs: inputs for what fails, and runs that meet the premises of what
  holds.
* `RoundLaws`, `ContributionLaws`, `CycleLaws`, `PayoutLaws` and `GroupLaws`, and the last sections of `Otp`, `Loans`,
  `Billing`, `Reports`, `Client` and `Money`, say what every call means: when it is refused and with which error, and
  which rows it leaves behind. They speak of rows and numbers only, in terms of their own, and use none of the
  functions that a service shares with its specification, so that the two cannot go wrong together.
* `Common.dfy` and `Arith.dfy` hold what is not about Chilimba: sums over finite sets, cardinalities, products.

Amounts, totals and times are unbounded integers, as bigint and milliseconds. A call is atomic, and its clock
readings are parameters: `now`, and `clock(i)` for the seed of the i-th random draw.

## What the code does that its texts do not say

The model follows the code. These points are proved or made visible in the model:

* A round's stored total is not always the sum of its dated rows. Approving a row that already has a payment date
  credits it again, and recording over a waived row that has none dates it without a credit. `ExactLedgerLaw`
  counts both, and `TotalIsDatedSumIff` says when they cancel. Two runs of three calls show either at work
  (`ApprovalCreditsTwice`, `RecordOverWaiverCreditsNothing`).
* The late sweep leaves `late` rows without a payment date, and waiving keeps one. The cycle summary and the stored
  total differ by exactly those rows and the two counts of the previous point (`StoredVersusReported`,
  `StoredIsReportedIff`).
* A payout whose equal share comes to 0 pays the contribution amount instead. Right after it the round has paid no
  more than it collected if and only if the shares were positive or the amount is 0 (`PaidWithinTotalIff`);
  `PaidFromNothing` pays 100 out of 0.
* No money call looks at the cycle's status, so all rounds of a cycle may be completed before it starts. A queue or
  random cycle is then stranded: once started it stays in progress over any run until its owner completes it by
  hand (`EarlyMoneyStrandsCycle`, `StrandedUntilCompleted`). A running cycle with rounds always has an incomplete one
  if and only if no cycle with all rounds completed is ever started (`RunningCyclesAreUnfinishedIff`); money on
  started cycles only is enough for that (`RunningCyclesAreUnfinished`).
* Assigning recipients, re-rolling and paying stay open after a cycle's completion, and the completed cycle no longer
  locks the payout method. A queue cycle keeps its recipients if none are assigned or drawn after its completion
  (`RunKeepsCourse`), and a manual cycle taken in turn pays nobody twice if it is not re-rolled after its completion
  (`NobodyPaidTwice`). `CompletedQueueReassigned` and `CompletedManualRerolled` are runs in which that happens.
* Recording a contribution does not check that the member belongs to the group. Member statements and cycle
  summary then disagree (`OutsiderRecordBreaksAgreement`, `OutsiderRecordHappens`, `ReportsAgreeIff`).
* docs/product-specs/cycles.md:26 derives the number of rounds from maxMembers. The code counts the active members
  that have a payout position; the model follows the code.
* A comment in cycleScheduler.ts (lines 121 to 124) says each member is paid before anyone is paid twice. That
  holds, and if k < n and k does not divide n some are paid twice (`QueuePaymentCount`, `EverybodyPaidOnceIff`).
* The manual method, round by round and with a fixed roster, cannot pay out such a cycle while it is active. If k does
  not divide n, every assignment of the last round is refused once the others are paid (`LastRoundAssignableIff`);
  that round can then only complete without recipients, as it does when everything is collected. If all rounds were
  paid, k divides n and everybody was paid once (`ManualCyclePaysEverybodyOnce`).
* A re-roll simulates the rounds before it once more. Whatever the clock reads, it avoids every set of earlier
  recipients that round r can have if and only if n >= (2r - 1) * k (`RerollAvoidsEarlierIff`,
  `RerollPicksNewMembers`). `RerollPaysTwice` is a run of two accepted calls below that bound.
* A re-roll never looks at later rounds. If k divides n and a running cycle still has the recipients it was opened
  with, every re-roll that changes any of them ends its fairness, above the bound as well as below: somebody is then
  not named exactly once, nor paid exactly once if that is the only re-roll (`RerollKeepsNamesIff`,
  `RerollKeepsPaymentsIff`, `FirstRerollPaysTwice`).
* docs/design-docs/auth-design.md:36 locks the phone for 15 minutes after five wrong guesses. The code locks the
  code and marks it used, so the lock is never looked at again and ends with the next code
  (`OneCodeAtATime`, `LockoutEndsWithNextCode`).

## Model

| member | source | states |
|---|---|---|
| Scheduler.RoundsCount | backend/src/lib/cycleScheduler.ts:38-43 | No members give no round; a savings pool (k = 0) has one round per member; otherwise the count r is the least with r * k >= n. |
| Scheduler.Ordered | backend/src/lib/cycleScheduler.ts:80-83 | The roster holds positioned members only, in ascending position. |
| Scheduler.OrderedIsStable | backend/src/lib/cycleScheduler.ts:80-83 | Position by position the sorted roster lists exactly the members of that position, in their given order: nobody is lost, added or reordered among equals. |
| Scheduler.DrawN | backend/src/lib/cycleScheduler.ts:156-171 | The swap loop of the draw computes the specified draw: nothing for n <= 0, everybody when n covers the source, else the first n places of the Fisher-Yates pass driven by the generator. |
| Scheduler.DrawnPlace | backend/src/lib/cycleScheduler.ts:162-168 | The next state is (9301 * s + 49297) mod 233280, and the drawn place j among i + 1 satisfies j * 233280 <= s' * (i + 1) < (j + 1) * 233280. |
| Scheduler.ShuffleFillsFromTheBack | backend/src/lib/cycleScheduler.ts:166-169 | Place i gets what stood at the drawn place, places behind it stay, and the rest is shuffled from the next state. |
| Scheduler.ShuffleIsPermutation | backend/src/lib/cycleScheduler.ts:161-169 | From any generator state the swap pass leaves a permutation of what it was given. |
| Scheduler.DrawFacts | backend/src/lib/cycleScheduler.ts:156-171 | A draw of n from distinct ids gives min(n, size) distinct ids of the source, for every seed. |
| Scheduler.PickRecipients | backend/src/lib/cycleScheduler.ts:108-149 | The loops that pick one round's recipients compute the specified picks for queue, random and the methods assigned later. |
| Scheduler.GenerateRounds | backend/src/lib/cycleScheduler.ts:70-106 | The loop with its growing set of assigned members yields the specified plan: numbers 1, 2, ..., due dates, and each round's picks given all picks before it. |
| Fairness.QueuePlanIsRotation | backend/src/lib/cycleScheduler.ts:120-135 | For all n and k: the queue plan read off in order is the roster repeated cyclically, that is the whole roster once and then its first r * k - n places again; for k > n the single round pays everybody once. |
| Fairness.QueuePaymentCount | backend/src/lib/cycleScheduler.ts:120-135 | For k <= n the member at index p is paid once, and once more exactly when p lies below r * k - n. |
| Fairness.RandomRound | backend/src/lib/cycleScheduler.ts:136-142 | Every random round has min(k, n) distinct roster members, and it avoids everyone assigned before if and only if at least k members were still unassigned, whatever the clock reads. |
| Fairness.RandomPlanRoundsDisjoint | backend/src/lib/cycleScheduler.ts:86-106 | For any clock the first n / k rounds of a fresh random plan are pairwise disjoint, and all rounds have min(k, n) distinct roster members. |
| Fairness.PlanPaysEachOnceIff | backend/src/lib/cycleScheduler.ts:86-142 | A queue or random plan names every roster member exactly once if and only if k divides n or k exceeds n. |
| Fairness.RerollAvoidsEarlierRounds | backend/src/modules/payouts/payouts.service.ts:339-378 | Re-simulating the plan on top of at most (r - 1) * k earlier recipients, round r picks none of them whenever n >= (2r - 1) * k. |
| Fairness.RerollBelowBoundRepeats | backend/src/modules/payouts/payouts.service.ts:339-378 | For every roster, k and r from 2 to the last round, and whatever the clock reads: if n < (2r - 1) * k, there are (r - 1) * k earlier recipients of whom the re-rolled round r picks one again. |
| Fairness.RerollAvoidsEarlierIff | backend/src/modules/payouts/payouts.service.ts:339-378 | For every clock and every existing round r >= 2: re-rolling round r avoids all possible sets of at most (r - 1) * k earlier recipients if and only if n >= (2r - 1) * k. |
| Cycles.OpenCycleInternal | backend/src/modules/cycles/cycles.service.ts:59-158 | Opening refuses in the source's order of checks, or inserts the next-numbered open cycle with the generated plan; nothing else changes. |
| Cycles.CreateCycle | backend/src/modules/cycles/cycles.service.ts:120-151 | The insertion loops of the transaction create the cycle, one pending round with total 0 per planned round, and one unpaid payout per planned recipient. |
| Cycles.CreateRounds | backend/src/modules/cycles/cycles.service.ts:128-138 | The first loop appends the planned rounds in order and touches no other table. |
| Cycles.CreateAllRecipients | backend/src/modules/cycles/cycles.service.ts:139-149 | The nested loop adds one unpaid payout for every recipient of every planned round, and no other. |
| Cycles.OpenCycle | backend/src/modules/cycles/cycles.service.ts:49-57 | Only the owner opens a cycle. |
| Cycles.StartCycle | backend/src/modules/cycles/cycles.service.ts:163-180 | The owner turns an open cycle of the group to in_progress; every other case is refused with its error. |
| Cycles.CompleteCycle | backend/src/modules/cycles/cycles.service.ts:230-261 | The owner completes a cycle once; completing it again changes nothing; the next cycle opens if the group asks for it. |
| Cycles.NotifyCycleCompleted | backend/src/modules/cycles/cycles.service.ts:373-386 | Auto-open opens the next cycle if the setting is on and opening is possible, and swallows the refusal otherwise. |
| Cycles.AutoCompleteIfDone | backend/src/modules/cycles/cycles.service.ts:394-420 | An in_progress cycle with at least one round and all rounds completed is completed, and only such a one. |
| CycleLaws.OpeningVerdict | backend/src/modules/cycles/cycles.service.ts:49-108 | Opening is accepted if and only if the owner asks for an active group with at least one and at least k active members and no cycle under way; refused in this order. |
| CycleLaws.OpeningEffect | backend/src/modules/cycles/cycles.service.ts:110-151 | One cycle more, open and numbered one above the group's highest; its rounds, as many as it takes k members at a time to cover the positioned ones, pending, empty and numbered from 1; older cycles and rounds and all other tables are untouched. |
| CycleLaws.DueDatesAreEven | backend/src/lib/cycleScheduler.ts:8-52 | Round i + 1 of a new cycle is due i * 7, 14 or 30 days of 86400000 ms after round 1, which is due on the day of the opening: the rounds are evenly spaced and strictly ascending. |
| CycleLaws.OpeningPayouts | backend/src/modules/cycles/cycles.service.ts:139-149 | New payout rows belong to the new rounds, are unpaid, and go to positioned active members; old rows stay. |
| CycleLaws.StartLaw | backend/src/modules/cycles/cycles.service.ts:163-180 | Starting is accepted if and only if the owner names an open cycle of the group, and changes its status alone. |
| CycleLaws.CompleteLaw | backend/src/modules/cycles/cycles.service.ts:230-261 | Completing by hand is accepted whenever the owner names a cycle of the group; the cycle is completed and, if the group asks for it, the next one opened exactly as the owner would. |
| RoundLaws.CompletionEnds | backend/src/modules/cycles/cycles.service.ts:373-386 | What follows a completion is the opening that the owner could call, if the group asks for it, and nothing otherwise. |
| RoundLaws.CompleteRoundEnds | backend/src/modules/cycles/cycles.service.ts:394-420 | Completing a round completes the cycle with it if and only if the cycle is in progress and no other round is left. |
| Contributions.UploadContributionProof | backend/src/modules/contributions/contributions.service.ts:49-134 | A member's own upload, or a privileged one, stores the proof and the current amount and leaves status, payment date and totals alone; refuses in the source's order, missing storage first and unknown file types last. |
| Contributions.RecordContribution | backend/src/modules/contributions/contributions.service.ts:140-226 | Records the row as paid or late with today's date, credits the round only for a new or pending row, and advances the round; refuses paid and late rows. |
| Contributions.ApproveContribution | backend/src/modules/contributions/contributions.service.ts:233-304 | Dates the row, sets paid or late by due date plus grace, credits the round with the row's amount, and advances it; refuses only paid rows. |
| Contributions.RejectContribution | backend/src/modules/contributions/contributions.service.ts:310-336 | Clears the proof and nothing else. |
| Contributions.WaiveContribution | backend/src/modules/contributions/contributions.service.ts:343-369 | The owner sets the row to waived at the current amount, keeping its payment date; totals stay. |
| Contributions.MaybeAdvanceRoundStatus | backend/src/modules/contributions/contributions.service.ts:437-489 | A fully collected pending round starts collecting, or completes at once without recipients; a round whose recipients are all paid completes; completion may complete the cycle. |
| ContributionLaws.RecordVerdict | backend/src/modules/contributions/contributions.service.ts:140-185 | Recording is accepted if and only if an owner or treasurer names a round of that cycle and group and a row that is not paid or late, or a member who exists; each refusal has its own exact condition. |
| ContributionLaws.RecordEffect | backend/src/modules/contributions/contributions.service.ts:147-226 | The whole new state: the row is dated today, has the group's amount, is paid up to due date plus grace and late after, and keeps its proof; the total grows by the amount exactly for a missing or pending row; then the round advances. |
| ContributionLaws.ApproveVerdict | backend/src/modules/contributions/contributions.service.ts:233-262 | Approving is accepted if and only if an owner or treasurer names an existing row that is not paid. |
| ContributionLaws.ApproveEffect | backend/src/modules/contributions/contributions.service.ts:262-304 | The whole new state: the row's status and date, a credit of the row's own amount in every case, and the round's advance. |
| ContributionLaws.PaidIffOnTime | backend/src/modules/contributions/contributions.service.ts:155-156 | After an accepted recording or approval the row is paid if and only if now <= due date + grace days * 86400000, and late otherwise. |
| ContributionLaws.ApproveAfterRecord | backend/src/modules/contributions/contributions.service.ts:247-264 | Approving what was just recorded is refused as already paid if it was on time, and accepted, with a second credit, if it was late. |
| ContributionLaws.LeavesPendingIff | backend/src/modules/contributions/contributions.service.ts:437-489 | A pending round of which nothing was paid out stops being pending if and only if every active member of the group has a paid, late or waived row in the new state; it is then collecting if it has recipients and completed if not. No other round moves. |
| RoundLaws.AdvanceMoves | backend/src/modules/contributions/contributions.service.ts:437-489 | For every state of the round: the follow-up of a payment leaves exactly the state given directly by the members' rows and the payout rows, with the cycle and the next cycle after it. |
| ContributionLaws.UploadVerdict | backend/src/modules/contributions/contributions.service.ts:49-100 | Each refusal of an upload has its exact condition, in the source's order; the member in person, owners and treasurers may upload. |
| ContributionLaws.UploadEffect | backend/src/modules/contributions/contributions.service.ts:100-134 | The whole new state: proof and amount of the row, or a new pending, undated row; nothing else. |
| ContributionLaws.RejectVerdict | backend/src/modules/contributions/contributions.service.ts:310-325 | Rejecting is for owners and treasurers and needs the row. |
| ContributionLaws.RejectEffect | backend/src/modules/contributions/contributions.service.ts:325-336 | The proof is gone, and everything else is as before. |
| ContributionLaws.WaiveVerdict | backend/src/modules/contributions/contributions.service.ts:343-352 | Waiving is the owner's alone, and needs the round and the member. |
| ContributionLaws.WaiveEffect | backend/src/modules/contributions/contributions.service.ts:352-369 | The row is waived at the group's amount and keeps date and proof, or is new and undated; totals and statuses stay. |
| Payouts.RecordPayout | backend/src/modules/payouts/payouts.service.ts:52-172 | Pays all recipients of an undistributed round the equal share (or the contribution amount when that is zero), completes the round, and possibly the cycle; all refusals in order, that of a receipt without storage included. |
| Payouts.MarkPaid | backend/src/modules/payouts/payouts.service.ts:118-134 | The update loop marks every row of the round paid with one amount, each at its own clock reading, and no other row. |
| Payouts.AssignPayoutRecipients | backend/src/modules/payouts/payouts.service.ts:178-294 | Replaces an unpaid round's recipients by exactly k distinct active members none of whom was paid in an earlier round; every other list is refused with its error. |
| Payouts.RecreateRecipients | backend/src/modules/payouts/payouts.service.ts:269-276 | Deleting and recreating leaves the round with exactly the given recipients, unpaid, and every other round as it was. |
| Payouts.RerollRandomPayouts | backend/src/modules/payouts/payouts.service.ts:301-381 | Replaces an unpaid round's recipients by its entry in a plan re-simulated over the earlier rounds' recipients. |
| PayoutLaws.PayOutVerdict | backend/src/modules/payouts/payouts.service.ts:63-112 | A distribution is accepted if and only if an owner or treasurer names a round with recipients of whom none is paid, with k > 0 and storage for a receipt; refused in this order. |
| PayoutLaws.PayOutEffect | backend/src/modules/payouts/payouts.service.ts:97-160 | The whole new state: all rows of the round, and no others, are paid the same q, where q * n <= T < q * n + n for a total T >= n and q is the contribution amount otherwise; then the round is completed. |
| PayoutLaws.AssignVerdict | backend/src/modules/payouts/payouts.service.ts:178-267 | The answer to every list: k different active members, none paid in a lower-numbered round of the cycle, for an unpaid round of a manual group are accepted, and every other list is refused for its first reason. |
| PayoutLaws.AssignEffect | backend/src/modules/payouts/payouts.service.ts:269-294 | The round has exactly the named recipients, unpaid; no other row changes. |
| PayoutLaws.RerollVerdict | backend/src/modules/payouts/payouts.service.ts:301-361 | A re-roll is accepted if and only if the owner of a random group names an unpaid round that the positioned members still reach, k at a time. |
| PayoutLaws.RerollEffect | backend/src/modules/payouts/payouts.service.ts:339-378 | The round has min(k, n) positioned members as recipients, unpaid; no other row changes; in a running cycle with n >= (2r - 1) * k none of them has a row in a lower-numbered round. |
| LateDetection.RunLateDetection | backend/src/modules/cycles/lateDetection.ts:34-107 | The three nested loops mark exactly the overdue pending rows late; the result counts the running cycles, and the rows whose contents changed. |
| LateDetection.SweepCycle | backend/src/modules/cycles/lateDetection.ts:57-103 | One running cycle: the rounds past due date plus grace are swept, the others left alone. |
| LateDetection.SweepRound | backend/src/modules/cycles/lateDetection.ts:65-101 | One round: every pending row of the cycle and round becomes late, and is counted once. |
| LateDetection.SweepIsExact | backend/src/modules/cycles/lateDetection.ts:57-103 | After a sweep at t no pending row is overdue at t; overdue rows changed in their status alone and nothing else changed at all. |
| LateDetection.SweepsCompose | backend/src/modules/cycles/lateDetection.ts:57-103 | Sweeping at t1 and again at t2 >= t1 is sweeping at t2 alone, so sweeps are idempotent and missed runs are made up for. |
| CycleLaws.SweepEffect | backend/src/modules/cycles/lateDetection.ts:34-107 | A sweep marks late exactly the pending rows of pending or collecting rounds of running cycles that are later than due date plus grace, and changes nothing else. |
| Members.FindMember | backend/src/modules/groups/members.service.ts:66-68 | Finds a row of the user in the group, and finds none only if there is none. |
| Members.AddMember | backend/src/modules/groups/members.service.ts:26-105 | Adds a member or takes a former one back, within capacity, at the given position or one past the highest active one; refuses in the source's order. |
| Members.FindOccupant | backend/src/modules/groups/members.service.ts:179-181 | Finds another row of the group at the position, exited members included, and finds none only if there is none. |
| Members.FirstInProgress | backend/src/modules/groups/members.service.ts:212-215 | Finds a cycle of the group in progress, and finds none only if there is none. |
| Members.UpdateMemberRow | backend/src/modules/groups/members.service.ts:146-192 | The owner changes role and position; the holder of the wanted position gets the old one; the owner cannot be demoted. |
| Members.RemoveMember | backend/src/modules/groups/members.service.ts:198-236 | A member exits if no cycle is in progress or a paid payout of it exists; the owner never. |
| Members.NewcomersQueueLast | backend/src/modules/groups/members.service.ts:73-103 | Without an explicit position a new or returning member comes after every other active member. |
| Members.MovesExchangePositions | backend/src/modules/groups/members.service.ts:171-192 | A move gives the member the wanted position, gives its holder the old one, and leaves every other row, group, user and status as it was. |
| GroupLaws.RunKeepsOneRowEach | backend/prisma/schema.prisma:346-363 | Over every run no user gets a second row in a group, and no row changes its group or user. |
| GroupLaws.JoinVerdict | backend/src/modules/groups/members.service.ts:26-70 | Joining is accepted if and only if an owner or treasurer adds a user who is not active in a group with room. |
| GroupLaws.JoinEffect | backend/src/modules/groups/members.service.ts:70-105 | The user's old row or one new row is active, has the wanted role or that of a member, and stands at the wanted position or one past the highest active one; no other row changes. |
| GroupLaws.EditVerdict | backend/src/modules/groups/members.service.ts:146-170 | Editing is the owner's, of members of the group, and never demotes the owner. |
| GroupLaws.EditEffect | backend/src/modules/groups/members.service.ts:171-192 | The row has the wanted role and position; if somebody held that position one holder gets the old one; every other row stays. |
| GroupLaws.LeaveVerdict | backend/src/modules/groups/members.service.ts:198-232 | A member is let go if and only if the owner asks, it is not the owner who leaves, and in no running cycle of the group the member is still unpaid. |
| GroupLaws.LeaveEffect | backend/src/modules/groups/members.service.ts:232-236 | Only the status changes, to exited. |
| Groups.UpdateGroupSettings | backend/src/modules/groups/groups.service.ts:233-297 | Applies the patch field by field; while a cycle is open or in progress refuses every patch that touches amount, frequency, or changes members, recipients or method. |
| Groups.SuspendGroup | backend/src/modules/admin/admin.service.ts:95-105 | Suspends a group that is not suspended. |
| Groups.ReactivateGroup | backend/src/modules/admin/admin.service.ts:107-117 | Reactivates a suspended group and no other. |
| GroupLaws.ConfigureLaw | backend/src/modules/groups/groups.service.ts:233-297 | A patch is refused if and only if a cycle is under way and it names amount or frequency or changes members, recipients or method; otherwise every named field is taken over and every other kept. |
| GroupLaws.SuspensionLaw | backend/src/modules/admin/admin.service.ts:95-117 | Suspension and reactivation each work from the other side only, and change the status alone. |
| Backend.WriteKeepsValid | backend/prisma/schema.prisma:372-463 | A single guarded write keeps the whole invariant: references, row soundness, numbering, alike payouts, round soundness, recipient bounds. |
| Backend.EventGuarded | backend/src/modules/contributions/contributions.service.ts:140-369 | Whatever the invariant needs of a write, some check of the service call has established: every accepted call of every service issues guarded writes only. |
| Backend.RunKeepsValid | backend/src/modules/contributions/contributions.service.ts:397-406 | After any run: contributions carry their round's cycle and group, pending rows are undated and paid rows dated, amounts in active cycles are the group's, payouts go to members of the group, a round's payouts are all paid or all unpaid with one amount, and no round of an active cycle has more than k recipients. |
| LedgerLaw.ExactLedgerLaw | backend/src/modules/contributions/contributions.service.ts:140-369 | In every reachable state a round of an active cycle has total = A * (dated rows + approvals of already-dated rows - records over an undated waiver). |
| LedgerLaw.TotalIsDatedSumIff | backend/src/modules/contributions/contributions.service.ts:191-276 | The stored total is the sum of the dated rows if and only if those two counts are equal or the contribution amount is 0. |
| Witnesses.ApprovalCreditsTwice | backend/src/modules/contributions/contributions.service.ts:233-304 | A run of three accepted calls with net drift 1: the stored total is 200 where the dated rows and the report come to 100. |
| Witnesses.RecordOverWaiverCreditsNothing | backend/src/modules/contributions/contributions.service.ts:140-226 | A run of three accepted calls with net drift -1: the stored total is 0 where the dated rows and the report come to 100. |
| History.RunIsLater | backend/src/modules/cycles/cycles.service.ts:163-261 | Over any run cycle and round statuses and totals only rise, dated rows stay dated, and paid payouts with their round's recipients never change. |
| History.PayoutConservation | backend/src/modules/payouts/payouts.service.ts:79-134 | A distribution to m recipients with total T pays each the same q, for ever: if T >= m then q * m <= T < q * m + m and what was paid never exceeds what is collected; if T < m then q is the contribution amount. |
| History.PaidWithinTotalIff | backend/src/modules/payouts/payouts.service.ts:97-98 | Right after a distribution the stored total is unchanged, and the round has paid no more than it if and only if T >= m or the contribution amount is 0. |
| Witnesses.PaidFromNothing | backend/src/modules/payouts/payouts.service.ts:97-134 | Two accepted calls, an opening and a payout, after which 100 were paid from a total of 0. |
| History.SecondPayoutRefused | backend/src/modules/payouts/payouts.service.ts:89-94 | A distributed round is never distributed again, whatever happens in between. |
| History.GroupLifecycle | backend/src/modules/cycles/cycles.service.ts:90-126 | In every reachable state a group's cycles are numbered exactly 1 to N in order of creation, all but the last are completed, and an active one is number N. |
| History.LeaverWasPaid | backend/src/modules/groups/members.service.ts:212-236 | A member who leaves while a cycle is in progress holds a paid payout of that cycle, then and after any further run. |
| Completion.CompletedRoundsArePaid | backend/src/modules/contributions/contributions.service.ts:464-488 | In every reachable state no round is paid_out, and in an active queue or random cycle with k > 0 every round has recipients and a completed one has paid them all the same amount. |
| Completion.RunningCyclesAreUnfinishedIff | backend/src/modules/cycles/cycles.service.ts:163-180 | Over every run from a database without cycles: an in_progress cycle with rounds has an incomplete one in each state of the run if and only if no accepted start concerns a cycle whose rounds are all completed. |
| Completion.RunningCyclesAreUnfinished | backend/src/modules/cycles/cycles.service.ts:394-420 | In every run that records money on started cycles only, an in_progress cycle with rounds has an incomplete one, and an open cycle has no completed one. |
| Stranding.StrandedUntilCompleted | backend/src/modules/cycles/cycles.service.ts:394-420 | A queue or random cycle in progress with all rounds completed stays so over any run that does not complete it by hand, and is completed after any run that does. |
| Witnesses.EarlyMoneyStrandsCycle | backend/src/modules/payouts/payouts.service.ts:156-160 | A run of three accepted calls, open, payout, start, that strands a cycle. |
| Rotation.OpeningStartsLap | backend/src/modules/cycles/cycles.service.ts:110-151 | A manual cycle opens with ceil(n / k) numbered rounds and no recipients. |
| Rotation.RunKeepsTurns | backend/src/modules/payouts/payouts.service.ts:248-267 | Whoever joins, leaves or moves meanwhile, as long as each accepted assignment waits until all earlier rounds are paid and the cycle is not re-rolled after its completion: recipients are in a round only when the earlier rounds are paid, and no two rounds share one. |
| Rotation.RunKeepsRotation | backend/src/modules/payouts/payouts.service.ts:222-276 | If moreover each accepted assignment falls while the cycle is active and the active members are those of the opening (an orderly run), every assigned round has k recipients of the roster. |
| Rotation.NobodyPaidTwice | backend/src/modules/payouts/payouts.service.ts:248-267 | In every run, with any joins and leaves, that assigns a round only once all earlier rounds are paid and does not re-roll the cycle after its completion, two paid payouts of one member in the cycle are the same row. |
| PairWitnesses.CompletedManualRerolled | backend/src/modules/payouts/payouts.service.ts:301-378 | The last premise of the previous row is needed: a run of a manual cycle, assigned in turn, completed, switched to random and re-rolled, that pays one of two members for both rounds. |
| Rotation.FullLapNamesEveryone | backend/src/modules/payouts/payouts.service.ts:222-276 | A fully assigned manual cycle names every roster member in exactly one round, and exists only if k divides the roster. |
| Rotation.LastRoundAssignableIff | backend/src/modules/payouts/payouts.service.ts:222-267 | With all earlier rounds paid, some recipient list for the last round is accepted if and only if k divides the roster. |
| Reroll.EarlierAssignedBound | backend/src/modules/payouts/payouts.service.ts:339-349 | In a running cycle the rounds before round number r have at most (r - 1) * k recipients together. |
| Reroll.RerollPicksNewMembers | backend/src/modules/payouts/payouts.service.ts:301-378 | In every valid state with n >= (2r - 1) * k positioned members, re-rolling an unpaid round number r of a running random cycle is accepted and picks k distinct members of whom none is in an earlier round. |
| PairWitnesses.RerollPaysTwice | backend/src/modules/payouts/payouts.service.ts:301-378 | Two accepted calls from a database without cycles, an opening and a re-roll, after which one of two members is the recipient of both rounds. |
| PairWitnesses.FirstRerollPaysTwice | backend/src/modules/payouts/payouts.service.ts:301-378 | A re-roll of the first round, which meets the bound, after which one of two members is the recipient of both rounds. |
| Fulfilment.OpeningSetsCourse | backend/src/modules/cycles/cycles.service.ts:110-151 | A new cycle's rounds have exactly the planned recipients. |
| Fulfilment.RunKeepsCourse | backend/src/modules/payouts/payouts.service.ts:215-220 | Whatever else happens, a queue cycle, and a random one that is not re-rolled, keeps the recipients it was opened with, as long as none are assigned or re-rolled after its completion. |
| PairWitnesses.CompletedQueueReassigned | backend/src/modules/payouts/payouts.service.ts:178-294 | The last premise of the previous row is needed: a queue cycle is completed, the method switched and a round assigned anew, after which one of two members has both rounds; nothing was re-rolled. |
| Fulfilment.EverybodyPaidOnceIff | backend/src/lib/cycleScheduler.ts:80-149 | From the opening of a queue or random cycle to the payment of its last round, over any such run: every positioned member holds a paid payout in exactly one round if and only if k divides n or k exceeds n. |
| Witnesses.QueueClubPaysOnce | backend/src/modules/cycles/cycles.service.ts:59-158 | A run that meets all premises of the previous row: the smallest club opens a cycle, pays its one round, and its member is paid exactly once. |
| Fulfilment.ManualCyclePaysEverybodyOnce | backend/src/modules/payouts/payouts.service.ts:178-294 | From the opening of a manual cycle over any orderly run (assignments in turn, while the cycle is active and with the members of the opening; no re-roll after completion) to the payment of all its rounds: k divides the roster, and every active member holds a paid payout in exactly one round. |
| Witnesses.ManualClubPaysOnce | backend/src/modules/payouts/payouts.service.ts:178-294 | A run that meets all premises of the previous row. |
| Redraw.RerollKeepsNamesIff | backend/src/modules/payouts/payouts.service.ts:301-378 | If k divides the roster of a running random cycle on its course, a re-roll of any of its rounds, at any clock and whoever joined or left, leaves everybody named in exactly one round if and only if the round's recipients stay the same. |
| Redraw.RerollKeepsPaymentsIff | backend/src/modules/payouts/payouts.service.ts:301-378 | From the opening over one re-roll of the running cycle to the payment of its last round: everybody holds a paid payout in exactly one round if and only if the re-roll changed nothing. |
| Reports.Latest | backend/src/modules/reports/reports.service.ts:25-35 | The resolved cycle belongs to the group and has the highest number among the candidates. |
| Reports.GetCycleSummary | backend/src/modules/reports/reports.service.ts:38-98 | The summary's totals are the sums over all counted rows and all paid payouts of the cycle, its balance their difference, its lines the sums round by round. |
| Reports.SummarizeRounds | backend/src/modules/reports/reports.service.ts:61-82 | The accumulating loop over the rounds computes the sums over the whole cycle. |
| Reports.SummaryIsOrdered | backend/src/modules/reports/reports.service.ts:52-82 | In every reachable state the summary has exactly one line per round of the cycle, in ascending round number. |
| Reports.GetMemberStatement | backend/src/modules/reports/reports.service.ts:100-147 | The statement's totals are the sums over the member's counted rows and paid payouts of the group, or of one cycle. |
| Reports.DefaultCycleIsNewest | backend/src/modules/reports/reports.service.ts:19-36 | In every reachable state the default cycle, active first, is simply the group's highest-numbered cycle. |
| Reports.ReportAgreement | backend/src/modules/reports/reports.service.ts:61-147 | Exchange of summation: the net positions of all members ever in the group add up to the cycle's balance less the counted rows of people outside the group. |
| Reports.ReportsAgreeIff | backend/src/modules/reports/reports.service.ts:61-147 | Statements and summary agree if and only if no counted row with money on it belongs to a member of another group. |
| Reports.OutsiderRecordBreaksAgreement | backend/src/modules/contributions/contributions.service.ts:140-196 | Recording for a member of another group is accepted, and right after it the reports of the cycle disagree. |
| Witnesses.OutsiderRecordHappens | backend/src/modules/contributions/contributions.service.ts:140-196 | Two accepted calls on a database of two groups without cycles that make the reports disagree. |
| Reports.StoredVersusReported | backend/src/modules/reports/reports.service.ts:63-70 | In every reachable state of an active cycle: stored total - reported collection = A * (waived dated rows - late undated rows + approvals of already-dated rows - records over an undated waiver). |
| Reports.StoredIsReportedIff | backend/src/modules/reports/reports.service.ts:63-70 | The stored total and the reported figure coincide if and only if those corrections cancel or A is 0. |
| Reports.PayoutLabels | backend/src/modules/reports/reports.service.ts:257-266 | No round is ever reported as partially paid, and a pre-assigned round of an active cycle is reported paid exactly when all its recipients are. |
| Reports.SummaryLaw | backend/src/modules/reports/reports.service.ts:19-98 | Which cycle a summary shows (the named one, else the newest under way, else the newest), when it is refused, and that its totals add up the paid and late rows and the paid payouts of that cycle's rounds. |
| Reports.LineLaw | backend/src/modules/reports/reports.service.ts:61-92 | A line has the round's own fields, the sums over its counted rows and paid payouts, and the number of its rows of either kind. |
| Reports.StatementLaw | backend/src/modules/reports/reports.service.ts:100-147 | A statement adds up the member's paid and late rows and paid payouts in the group, or in one cycle, and is refused for anybody who never was a member. |
| Reports.LabelLaw | backend/src/modules/reports/reports.service.ts:257-266 | The label of a round for every combination of paid and unpaid payout rows and status. |
| Client.ApiClient.Dispatch | frontend/src/api/client.ts:31-38 | A new request goes out once. |
| Client.ApiClient.OnResponse | frontend/src/api/client.ts:45-68 | A response settles its request, queues it behind the refresh under way, or makes it the leader of a new refresh, as the interceptor decides. |
| Client.ApiClient.Flush | frontend/src/api/client.ts:71-78 | Calling every queued callback replays or rejects each queued request once per entry and empties the queue. |
| Client.ApiClient.OnRefreshed | frontend/src/api/client.ts:66-83 | A successful refresh flushes the queue with the token, replays the leader and lowers the flag, in one step. |
| Client.ApiClient.OnRefreshFailed | frontend/src/api/client.ts:76-83 | A failed refresh rejects the queue and the leader and lowers the flag, in one step. |
| Client.RunKeepsInv | frontend/src/api/client.ts:40-87 | Over every interleaving: at most one refresh is outstanding and the flag says so, a non-empty queue implies it, and each request is in exactly one place (on the wire, queued, leading, settled), sent at most twice and settled at most once. |
| Client.StepKeepsSettled | frontend/src/api/client.ts:43-87 | No request is forgotten, and a settled request never changes again. |
| Client.SettledByAnswers | frontend/src/api/client.ts:43-87 | Over every run: a request was resolved if and only if some response to it was a success, and rejected if and only if it got a failure other than 401, a 401 for an authentication address, a second 401, a 401 with no refresh under way and no refresh token, or waited for a refresh that failed or brought no token. |
| Client.RefreshServesAllWaiting | frontend/src/api/client.ts:66-83 | When the refresh returns, everybody who waited is replayed a second and last time or rejected, and queue and flag are clear; a response without a token rejects the queue but still replays the leader. |
| Client.Progress | frontend/src/api/client.ts:47-68 | While a request is unsettled some response is still due, its own or a refresh's: nobody waits in the queue of a refresh that ended. |
| Client.EveryRequestSettles | frontend/src/api/client.ts:43-87 | After the last send at most three responses per request can arrive, in any order, and when none is due any more every request was settled exactly once. |
| Money.ThousandsAreGrouped | backend/src/lib/money.ts:59-62 | On every digit string the regular-expression replacement groups by three from the right. |
| Money.CommaPattern | backend/src/lib/money.ts:59-62 | Counted from the right exactly every fourth character is a comma, and the length is that of the digits plus (n - 1) / 3. |
| Money.GroupingIsUndone | backend/src/lib/money.ts:39-61 | Removing the commas gives the digits back, for any number of digits. |
| Money.RoundTrip | backend/src/lib/money.ts:21-48 | Every non-negative amount is parsed back to itself from its printed form, and every printed negative amount is refused. |
| Money.FormatIsInjective | backend/src/lib/money.ts:21-29 | Different amounts, negative ones included, are printed differently. |
| Money.ParseIsStable | backend/src/lib/money.ts:35-48 | For every accepted string, printing the parsed value and parsing again gives the same value. |
| Money.SpellingIsIgnored | backend/src/lib/money.ts:39-42 | An accepted string means what its cleaned form means: blanks, prefix and commas play no part. |
| Money.ShortFractions | backend/src/lib/money.ts:43-47 | A missing or one-digit fraction is filled up with zeros: w, w.00 and w.d, w.d0 mean the same, 100 * w and 100 * w + 10 * d. |
| Money.PrintedForm | backend/src/lib/money.ts:21-29 | Every printed amount is the sign, K, the kwacha without leading zeros in groups of three, a full stop and two digits, with 100 * kwacha + ngwe the amount. |
| Money.AcceptedIff | backend/src/lib/money.ts:39-47 | A string is an amount if and only if its cleaned form is digits, or digits, a full stop and one or two digits; the value is given for each case. |
| Money.SpellingLaw | backend/src/lib/money.ts:39-39 | Blanks around an amount, a K or k before it and a comma inside it do not change what is parsed. |
| Otp.OtpService.CreateOtp | backend/src/modules/auth/otp.service.ts:30-47 | Marks all codes of the user and purpose used and appends a fresh one that lives ten minutes. |
| Otp.OtpService.AssertResendAllowed | backend/src/modules/auth/otp.service.ts:50-58 | Refuses exactly when the user has three or more codes from the last 30 minutes. |
| Otp.OtpService.VerifyOtp | backend/src/modules/auth/otp.service.ts:69-114 | Looks up the newest unused code and answers by lock, expiry and code in this order, charging a wrong guess, locking at the fifth, and using the code up on success. |
| Otp.VerifiedIff | backend/src/modules/auth/otp.service.ts:69-114 | In every reachable state a verification succeeds if and only if the user's unused code for the purpose exists, has not expired and equals the guess, which then uses it up. |
| Otp.Verification | backend/src/modules/auth/otp.service.ts:69-114 | All other verifications: nothing without an unused code or after its ten minutes; otherwise a wrong guess is charged, and the fifth locks the code for 15 minutes and uses it up. |
| Otp.GuessesTellTheCode | backend/src/modules/auth/otp.service.ts:89-113 | Over every run what was redeemed equals the code of its row, and what was charged as wrong differs from it. |
| Otp.CodeSentIff | backend/src/modules/auth/otp.service.ts:30-58 | A known user gets a new code, open for ten minutes, if and only if fewer than three were created in the last 30 minutes; the older codes of that purpose are then used, and nothing else changes. |
| Otp.RunKeepsInv | backend/src/modules/auth/otp.service.ts:30-114 | Over every run: codes are spaced by the resend limit, one per user and purpose is unused, attempts are the wrong guesses logged, and guesses fall between the code's creation and its expiry or its successor. |
| Otp.RateLimits | backend/src/modules/auth/otp.service.ts:50-58 | Over every run and in every interval of 30 minutes a user gets at most three codes and is charged at most 25 wrong guesses. |
| Otp.OneCodeAtATime | backend/src/modules/auth/otp.service.ts:70-82 | After every run a user has at most one unused code per purpose, and the lock check decides no verification. |
| Otp.RedeemedOnce | backend/src/modules/auth/otp.service.ts:107-113 | Over every run a code is redeemed at most once, and within ten minutes of its creation. |
| Otp.LockoutEndsWithNextCode | backend/src/modules/auth/otp.service.ts:89-104 | After the guess that locks a code, a code requested in the same instant is accepted if and only if the resend limit allows the request. |
| Loans.InterestIsNearest | backend/src/modules/loans/loans.service.ts:14-18 | The interest is the exact one rounded to the nearest ngwe, halves up. |
| Loans.LoanService.MemberSavings | backend/src/modules/loans/loans.service.ts:31-47 | Savings are contributions less payouts over the whole group, never below zero. |
| Loans.LoanService.RequestLoan | backend/src/modules/loans/loans.service.ts:60-124 | Refuses in the source's order of checks or appends a pending loan with its total due. |
| Loans.LoanService.ApproveLoan | backend/src/modules/loans/loans.service.ts:126-154 | Turns a pending loan of the group active; privileged roles only. |
| Loans.LoanService.RejectLoan | backend/src/modules/loans/loans.service.ts:156-178 | Turns a pending loan of the group rejected; privileged roles only. |
| Loans.LoanService.RecordRepayment | backend/src/modules/loans/loans.service.ts:180-223 | Appends the repayment, adds it to the loan, and closes the loan once the total is reached. |
| Loans.LoanService.GetLoanBook | backend/src/modules/reports/reports.service.ts:333-349 | Outstanding is the sum of what is left on the live loans, the count their number; a missing group is refused. |
| Loans.RequestVerdict | backend/src/modules/loans/loans.service.ts:60-107 | A request is granted if and only if loans are allowed, a cycle is under way, the amount is positive, the member has no running loan, and 100 * amount <= net position * multiplier; refused for the first reason against it. |
| Loans.RequestEffect | backend/src/modules/loans/loans.service.ts:105-124 | One pending loan is added whose total due is the amount plus the interest to the nearest ngwe. |
| Loans.DecisionLaw | backend/src/modules/loans/loans.service.ts:126-178 | Owners and treasurers decide on pending loans, and the decision sets the status alone. |
| Loans.RepaymentLaw | backend/src/modules/loans/loans.service.ts:180-223 | A positive repayment of an active loan is added to it and recorded, and closes it if and only if the total due is reached. |
| Loans.LoanBookLaw | backend/src/modules/reports/reports.service.ts:333-349 | The book counts the loans of the group that are neither repaid, rejected nor defaulted, and adds up due less repaid. |
| Loans.RunKeepsInv | backend/src/modules/loans/loans.service.ts:83-222 | Over every run: one live loan per member and group, the amount repaid is the sum of the repayments, an active loan is not yet covered, a repaid one was covered by its last repayment and by none before. |
| Loans.LoanBookPromises | backend/src/modules/reports/reports.service.ts:344-349 | After every run: outstanding is at least the number of live loans, each of a different borrower; a loan has at most as many repayments as ngwe due; amounts repaid and repayments recorded add up to the same. |
| Loans.RequestLimits | backend/src/modules/loans/loans.service.ts:83-103 | A granted request is positive, at most savings times multiplier, and went to a member without a live loan and with the net position of the member statement as savings. |
| Billing.BillingService.CreateInvoice | backend/src/modules/invoices/invoices.service.ts:153-164 | A new invoice is pending and unpaid; existing ones stay. |
| Billing.BillingService.UploadPop | backend/src/modules/invoices/invoices.service.ts:273-323 | Appends a pending proof to an accessible pending invoice, or refuses in the source's order. |
| Billing.BillingService.ApprovePop | backend/src/modules/payment-proofs/payment-proofs.service.ts:33-63 | Approves a pending proof of a pending invoice and marks the invoice paid. |
| Billing.BillingService.RejectPop | backend/src/modules/payment-proofs/payment-proofs.service.ts:94-121 | Rejects a pending proof, with a reason, and leaves the invoice alone. |
| Billing.BillingService.RejectPending | backend/src/modules/invoices/invoices.service.ts:345-353 | Rejects exactly the invoice's pending proofs. |
| Billing.BillingService.RecordCashPayment | backend/src/modules/invoices/invoices.service.ts:329-374 | Rejects all pending proofs of a pending invoice, adds an approved one, and marks the invoice paid. |
| Billing.BillingService.CreateGroupFromToken | backend/src/modules/groups/groups.service.ts:37-99 | Links a new group to a paid, unlinked invoice of the same phone number, or refuses in the source's order. |
| Billing.UploadLaw | backend/src/modules/invoices/invoices.service.ts:273-323 | Who may upload for which invoice, each refusal with its exact condition, and the one row added. |
| Billing.ApprovalLaw | backend/src/modules/payment-proofs/payment-proofs.service.ts:33-63 | A pending proof of a pending invoice is approved and pays it, with the time of the review on both; everything else is refused or untouched. |
| Billing.RejectionLaw | backend/src/modules/payment-proofs/payment-proofs.service.ts:94-121 | A rejection needs a reason and a pending proof, and changes that proof alone. |
| Billing.CashLaw | backend/src/modules/invoices/invoices.service.ts:329-374 | Cash pays a pending invoice, adds one approved cash proof and rejects exactly the proofs still pending for it. |
| Billing.CreateGroupLaw | backend/src/modules/groups/groups.service.ts:37-99 | A group is founded if and only if the invoice is paid, unlinked and of the same phone number. |
| Billing.IssueLaw | backend/src/modules/invoices/invoices.service.ts:153-164 | A new invoice is pending and unpaid, and no other row changes. |
| Billing.RunKeepsInv | backend/src/modules/invoices/invoices.service.ts:284-374 | Over every run: an invoice is paid if and only if exactly one of its proofs is approved, never two; one paid in cash has no pending proof; each invoice has at most one group, and only if paid. |
| Billing.PaidIsFinal | backend/src/modules/payment-proofs/payment-proofs.service.ts:46-61 | A paid invoice never changes again, and no later cash payment or approval for it succeeds. |
| Billing.OneGroupPerInvoice | backend/src/modules/groups/groups.service.ts:54-59 | Once a group was created from an invoice, every later attempt is refused as already linked. |

## Left out

- Routes, request validation, sessions, password hashing, file storage, queues, WhatsApp messages and their templates: input and output. Whether storage is configured and a file type supported are parameters.
- Races inside one call: calls are atomic, as if each were one serializable transaction. In the web client a step runs from one await to the next.
- Loans.InterestIsNearest: does not model double-precision multiplication; the rate is an integer number of ten-thousandths and the rounding exact. The loan limit likewise uses hundredths and floor.
- Scheduler.DrawN: does not model the rounding of s / 233280 * (i + 1) in double precision, nor that of the first product when the seed is a millisecond timestamp; both are exact on integers.
- Client.RunKeepsInv: does not track token values. A refresh response is modelled by whether it carries an access token; the retried mark is taken to survive the replay of a request's configuration, and requests whose address contains /auth/ are marked as such.
- Members.UpdateMemberRow: does not model which of several holders of a position the database returns; the model takes the row with the lowest id.
- Reports.GetCycleSummary: does not sort the lines by round number; they come in order of insertion, which `SummaryIsOrdered` shows to be the same order.
- Otp.OtpService.VerifyOtp: keeps the history of guesses and redemptions in a ghost log; requests that the callers drop before reaching the service (verified or unknown users) are not events.
- Money.RoundTrip: covers bigint amounts; conversion from number and string arguments is not modelled.
- Cycles.OpenCycleInternal: takes it that settings exist for every group, as group creation guarantees.
- Reports.GetMemberStatement: gives the totals; the lists of rows, payouts and loans of the member are left out.
- Loans.LoanService.GetLoanBook: gives the two figures; the lines of the single loans are left out.
- Loans.LoanService.RequestLoan: computes limit and interest with exact integers, see InterestIsNearest.
- LateDetection.RunLateDetection: does not count messages and errors; sending reminders is output.
- Payout-position uniqueness over runs: explicit positions and exited holders break it; only distinct member ids are used.
- Settings the engine does not read, the group templates' defaults, member and group listings, the outstanding list, the payout ledger's amounts: simple filters.
- Invoice numbers: their allocation depends on database timestamps. Payment settings, admin counts, phone normalisation and the creation of users by phone: thin wrappers; a user or phone is an id.
- The frontend's copy of the money helpers, pages, stores and layout.
- Late penalties, voting payouts, subscriptions and defaulted loans: described in the documentation, not implemented.
