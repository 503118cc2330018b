# Verification of the budget action core

BalanceFrame plans changes to a household budget, asks for approval, performs them on a ledger and checks
afterwards that exactly the approved change has happened. This project models that core and proves it.

An *action* is an ordered list of atoms: reallocations between budget categories, purchases, evidence-backed
credits and amendments, new wallets, transfers. Four computations of the source go over one such list in four
different ways: planning folds it into expected final values, dispatch folds it into per-atom preconditions, the
change guard walks it backwards over those final values, and post-write verification reverses every atom out of the
observed ledger. Here all four are tied to one meaning, `Undo.Performed`: what the action does to a ledger.

The main results:

- `Undo.UndoIsInverse` and `PlanLaws.PlanUndone`: reversing an action succeeds with a ledger if and only if performing the
  action on that ledger gives the observed one.
- `PlanVerify.PlannedVerifies`: every plan verifies against the sources and time it was built from, although it
  is built again from a reduced list of observations.
- `PlanPerforming.PlanPerformable`: an accepted action of reversible steps can be performed on a valid ledger if and only if the
  facts recorded beside the ledger take it; the books themselves always do.
- `PlanConfirm.ConfirmedExactly`: post-write verification accepts a ledger if and only if it is the planned ledger, up to the account
  facts the plan lists as invalidated, with the whole action performed on it and nothing more; `ConfirmedFacts.ConfirmedFromPlanned`
  says which: a confirmed ledger is the planned one with the action performed on it if and only if the plan lists no currency.
  `LedgerRuns.PlanKeepsValid` shows that such a ledger is valid.
- `CardAction.CardPlans`: the whole action a decision card stands for, its moves in any order and then its cart, is planned if and
  only if no donor is protected or a goal and every purchase the card moves nothing for is covered by what its category has to spare.
- `Funding.DonorPaths`, `Cart.Spread`, `CategoryLaws.BuildTotals`: the card's greedy algorithms have exact specifications;
  `CategoryLaws.ReservationsOrderFree` says exactly when the order of claims does not matter to them.
- `AllocationLaws.Conserved`, `AllocationOrder.PlanCanonical`, `SettlementLaws.SettlementIsMatrix`,
  `FundingEdges.DerivedExactly`: the receipt matrix conserves, is canonical, contains the whole-receipt planner, and agrees
  with relationships derived from its own cells.
- `Trees.Leaves`, `Mutation.FindUnique`: explicit-stack walks equal their recursive meaning.
- `ReviewQueue.EveryRun`: the web controller's lifetime fence holds in every interleaving, that of a bulk request included
  (`ReviewController.BulkProposals`).

Amounts are 64-bit: `CheckedMoney.i64` is a subset type of the integers and every addition, subtraction and negation is checked.
Errors are `Result` values with the source's codes. Loops over mutable collections are methods with invariants, proved
against functions; the working copy of the reversal, the review buffer and the controller are classes.

`Money`, `Text`, `Rows`, `Ordered`, `Permutations`, `Sorting` and `Sums` hold the shared vocabulary; the other modules follow
the source's parts.

## Findings

Properties one might expect of the code and that are false of it. Each has a concrete input and the exact condition under which
the property does hold.

- An accepted action can always be undone. False for an amendment of the least 64-bit amount (`Witness.PlannedButNeverUndone`);
  true exactly when every amended category amount has a negation (`PlanLaws.PlanUndone`).
- The planner accepts what the card proposes. False for a donor whose policy is a goal or protected, which the card does not look at, and
  false for a purchase outside the current ordinary categories that takes more than is unclaimed there, which the card's allocation does not
  look at: three categories and one split purchase show both (`CardWitness.PlanRefused`, `CardWitness.ThreeCards`). True exactly when no
  donor is locked and every purchase is covered (`CardCart.CardMovesAccepted`, `CardAction.CardPlans`). The engine's own verdict on the card's
  budget, which is given here, may refuse the second kind earlier; the allocation itself does not.
- The two timestamp readers agree. False at second 60 (`Timestamps.LeapSecondDiffers`); true exactly below it (`Timestamps.ReadersAgree`).
- Category totals do not depend on the order of claims. False in two ways: two claims of one identity that name their source differently can
  reserve different amounts in different orders (`CategoryLaws.OrderMatters`), and can be accepted in one order and refused in the other
  (`CategoryLaws.OrderRefuses`). An accepted list is accepted with the same reservations in every order exactly when claims of one identity
  mirror an obligation all together, not at all, or are worth nothing, and every claim agrees with the obligation it mirrors
  (`CategoryLaws.ReservationsOrderFree`).
- A confirmed ledger is the planned one with nothing but the plan's effects. False when the plan lists an account's currency as invalidated:
  confirmation then demands that the attested currency has become unknown, so that every performable plan of the kind has confirmed ledgers,
  and none of them is the planned ledger with the action performed on it (`ConfirmedFacts.ConfirmedElsewhere`). True exactly when it lists
  none (`ConfirmedFacts.ConfirmedFromPlanned`, `PlanConfirm.ConfirmedOutright`).
- A settled action removes the item it acted on. False when the cursor moved meanwhile (`ReviewQueue.CursorMoved`);
  true exactly when the cursor still stands on it (`ReviewQueue.ConsumesCursor`).

## Model

| member | source | states |
|---|---|---|
| Rows.AdjustAllIsShift | crates/core-protocol/src/consequential_action.rs:3857-3879 | editing money cells key by key succeeds with a result exactly when every key is held once in the currency and the result is the same rows in the same order, each moved by what the edits carry to its key |
| Restorer.UniqueRowIndex | crates/core-protocol/src/consequential_action.rs:6390-6401 | the one row with a key, telling a missing key from a repeated one |
| Restorer.AdjustRow | crates/core-protocol/src/consequential_action.rs:3857-3879 | one cell changed in place with key, currency and range checked |
| Undo.MoveUndone | crates/core-protocol/src/consequential_action.rs:4603-4672 | a movement is reversed into exactly the ledgers it could have been performed on |
| Undo.PostUndone | crates/core-protocol/src/consequential_action.rs:4673-4736 | the same for a posted transaction: its one row, its account in ledger and facts, its category effects |
| Undo.AmendUndone | crates/core-protocol/src/consequential_action.rs:2101-2203 | the same for an amendment, which changes a row in place and shifts the categories of both versions |
| Undo.OpenUndone | crates/core-protocol/src/consequential_action.rs:4751-4839 | the same for a new wallet: mapping, empty account and account fact |
| Undo.SendUndone | crates/core-protocol/src/consequential_action.rs:4840-4970 | the same for a transfer: mapping, two mirrored rows, both accounts |
| Undo.UndoIsInverse | crates/core-protocol/src/consequential_action.rs:4595-4985 | the undo law, both ways: reversing a sequence of steps gives a ledger exactly when performing the steps on that ledger gives the observed one |
| Restorer.WorkingCopy.Restore | crates/core-protocol/src/consequential_action.rs:5280-5289 | the imperative reversal, atoms backwards over mutable collections: success leaves the one ledger the action was performed on, refusal means there is none |
| Restorer.WorkingCopy.ReverseTransfer | crates/core-protocol/src/consequential_action.rs:4840-4970 | one atom kind of it, edit by edit in the order of the source, against its specification |
| PlanLaws.PlannedSteps | crates/core-protocol/src/consequential_action.rs:2876-3297 | an accepted action is made of reversible steps exactly when its amendments' category amounts have negations |
| PlanLaws.PlanUndone | crates/core-protocol/src/consequential_action.rs:5280-5289 | an accepted action is undone into exactly the ledgers it could have been performed on, or, without those negations, no ledger can be undone at all |
| Performing.StepPerformable | crates/core-protocol/src/consequential_action.rs:4595-4985 | a step can be performed on exactly the ledgers that hold each cell it moves once, in its currency, with room for the amount, and that take its rows |
| PerformedRuns.RunPerformable | crates/core-protocol/src/consequential_action.rs:4595-4985 | a run can be performed exactly when every step finds what it needs, counted from the first ledger and what the earlier steps move |
| PlanPerforming.PlanAmendsOnce | crates/core-protocol/src/consequential_action.rs:2449-2489 | since no economic event is projected twice and an amendment's evidence is about the row it amends, a planned action amends no row twice |
| PlanPerforming.PlanPerformable | crates/core-protocol/src/consequential_action.rs:2876-3297 | on a valid ledger an accepted action whose amended amounts have negations can be performed exactly when the recorded facts take every step of it |
| Witness.PlannedButNeverUndone | crates/core-protocol/src/consequential_action.rs:2021-2099 | an action with an amendment of the least representable amount is accepted, and no observed ledger of it can ever be undone |
| Dispatch.DispatchPreconditions | crates/core-protocol/src/consequential_action.rs:2491-2677 | accepted exactly for dispatchable actions; every entry holds the ledger value plus the deltas of strictly earlier atoms, and each post amount includes its own atom |
| Dispatch.PreconditionsUnique | crates/core-protocol/src/consequential_action.rs:2491-2677 | that description determines the list of preconditions entirely |
| Dispatch.AlwaysRepresentable | crates/core-protocol/src/consequential_action.rs:2535-2670 | along a dispatchable action every running assignment and balance is representable |
| Targets.TargetsChanged | crates/core-protocol/src/consequential_action.rs:5860-5952 | the backwards walk over conditions and movements computes the change predicate |
| Targets.PlanUnwinds | crates/core-protocol/src/consequential_action.rs:5880-5918 | undoing a plan's own cumulative conditions never overflows and ends at the values of the ledger it was made from |
| Targets.TargetsChangedExactly | crates/core-protocol/src/consequential_action.rs:5860-5952 | for a plan's own conditions a change is reported exactly when a slot the plan moves has left the ledger or holds other minor units |
| PlanOutcome.PlanGuardExact | crates/core-protocol/src/consequential_action.rs:5860-5952 | the same for every plan that planning can produce |
| Outflow.ReadyIsBounded | crates/core-protocol/src/consequential_action.rs:2429-2447 | the running transfer-capacity checks pass exactly when each transfer source keeps its whole spending plus sending within capacity and each buyer its charge |
| Outflow.OrderIndependent | crates/core-protocol/src/consequential_action.rs:3169-3187 | reordering the steps never changes whether those checks pass |
| Outflow.EveryPrefixBounded | crates/core-protocol/src/consequential_action.rs:3575-3588 | once they pass the limits hold at every prefix |
| Outflow.SpendTracked | crates/core-protocol/src/consequential_action.rs:3566-3598 | the two running maps of the source decide the check of one purchase and stay the true totals |
| PlanOutcome.PlanOutflowsBounded | crates/core-protocol/src/consequential_action.rs:3169-3187 | both facts for every accepted action |
| Derive.ValidateReallocation | crates/core-protocol/src/consequential_action.rs:3298-3521 | a movement is accepted exactly when it is new, funded above floor and claims and representable, and the running maps then describe the longer prefix |
| Derive.ValidateManual | crates/core-protocol/src/consequential_action.rs:3523-3721 | the same for a purchase: live account, splits that add up, account, cart and category charges, envelopes never negative |
| Derive.ValidateCredit | crates/core-protocol/src/consequential_action.rs:1929-1976 | the same for an evidence-backed credit, its evidence included |
| Derive.ValidateAmendment | crates/core-protocol/src/consequential_action.rs:2021-2099 | the same for an amendment, which may change only categories of one unshared row, the one its evidence is about |
| Derive.CheckEvidence | crates/core-protocol/src/consequential_action.rs:3723-3768 | evidence is accepted exactly when there is some, each piece is named once and resolves, all of it to one subject, and the given verdict on its content holds |
| Derive.ValidateTransfer | crates/core-protocol/src/consequential_action.rs:3117-3240 | the same for a transfer between two live accounts of one currency |
| Derive.CheckSplits | crates/core-protocol/src/consequential_action.rs:3601-3631 | splits are accepted exactly when each is sound and all of them add up, whatever the running sum does |
| Envelopes.MoveEnvelopes | crates/core-protocol/src/consequential_action.rs:3384-3489 | the envelope side of a movement: both ends shifted exactly, the source above its required floor |
| Envelopes.SpendEnvelopes | crates/core-protocol/src/consequential_action.rs:3632-3699 | the category side of a purchase, effect after effect, against charges and envelopes |
| PlanAction.CheckCoverage | crates/core-protocol/src/consequential_action.rs:2679-2748 | accepted exactly when, path by path, the action moves what the card approved |
| PlanAction.MatchIsEquality | crates/core-protocol/src/consequential_action.rs:2421-2427 | equal sizes and every charge met mean equality on every key |
| PlanAction.CheckSubjects | crates/core-protocol/src/consequential_action.rs:2449-2489 | accepted exactly when every piece of evidence resolves and no two atoms project the same economic event |
| PlanAction.DeriveAction | crates/core-protocol/src/consequential_action.rs:2876-3297 | planning succeeds exactly on plannable requests, and every promised assignment and balance is the original value plus everything the whole action moves |
| PlanOutcome.PlanReached | crates/core-protocol/src/consequential_action.rs:5079-5101 | on every ledger a planned action leads to, each promised assignment and balance is found and undoing restores the planned ledger |
| Ledger.ValidateLedger | crates/core-protocol/src/consequential_action.rs:1422-1514 | accepted exactly when accounts, categories, assignments, wallets, rows and transfer mappings are valid and unique; otherwise the code is that of the first section that fails, and for rows and transfers of the first bad one in it |
| Ledger.CheckTransactions | crates/core-protocol/src/consequential_action.rs:1470-1498 | the first bad row decides among missing account, invalid or repeated row and missing transfer account |
| Ledger.CheckTransfers | crates/core-protocol/src/consequential_action.rs:1499-1560 | the first bad mapping decides among repeated identity or end, missing source row, missing destination row and mismatch |
| LedgerLaws.StepKeepsValid | crates/core-protocol/src/consequential_action.rs:1422-1560 | one step on a valid ledger leaves a valid ledger, mirrored transfer rows included |
| LedgerRuns.PerformedKeepsValid | crates/core-protocol/src/consequential_action.rs:1422-1514 | so does every run of steps, since no correlation is ever used twice |
| LedgerRuns.PlanKeepsValid | crates/core-protocol/src/consequential_action.rs:1422-1514 | so does every accepted action, as long as the identities the ledger hands out are not blank |
| Supplemental.ValidateObservations | crates/core-protocol/src/consequential_action.rs:933-1036 | accepted exactly when every observation is bound to attested facts of one account |
| Supplemental.CollectFacts | crates/core-protocol/src/consequential_action.rs:845-931 | the invalidated facts, each with sorted fields, paths and identities, in account order |
| SupplementalLaws.RebuiltValid | crates/core-protocol/src/consequential_action.rs:5821-5833 | observations rebuilt from a plan's own invalidation list are valid again |
| SupplementalLaws.AccountsFixed | crates/core-protocol/src/consequential_action.rs:828-843 | planning from the rebuilt observations names the same accounts |
| SupplementalLaws.FactsFixed | crates/core-protocol/src/consequential_action.rs:845-931 | planning from the rebuilt observations lists the same invalidations |
| PlanVerify.ValidateRequest | crates/core-protocol/src/consequential_action.rs:1244-1302 | accepted exactly for valid requests, with or without expiry |
| PlanVerify.BuildPlan | crates/core-protocol/src/consequential_action.rs:1116-1229 | a plan is built exactly for the requests that can be built, and it is that request's plan |
| PlanVerify.PlanUnique | crates/core-protocol/src/consequential_action.rs:1116-1229 | a request has one plan |
| PlanVerify.VerifyPreconditions | crates/core-protocol/src/consequential_action.rs:4993-5074 | valid exactly when the plan stands and planning again gives the same seal and the same preconditions; otherwise the first failing check is named |
| PlanVerify.PlannedVerifies | crates/core-protocol/src/consequential_action.rs:4993-5074 | every plan verifies against the sources and time it was built from |
| PlanVerify.VerifiedMeans | crates/core-protocol/src/consequential_action.rs:4993-5074 | a verified plan is unexpired, plans on the ledger at hand and carries exactly the preconditions that ledger gives |
| PlanVerify.VerifiedLedger | crates/core-protocol/src/consequential_action.rs:5037-5063 | when the source hash tells ledgers apart, it is the very ledger of planning |
| PlanEffects.WrittenStays | crates/core-protocol/src/consequential_action.rs:5102-5145 | a written row is still the only one of its identity after every later step that does not amend it |
| PlanEffects.SentStays | crates/core-protocol/src/consequential_action.rs:5189-5207 | a recorded transfer is still there, mapping and both rows, after every later step |
| PlanEffects.OpenedStays | crates/core-protocol/src/consequential_action.rs:5146-5170 | a new wallet still maps to its own empty account after every later step |
| Postconditions.PerformedMeets | crates/core-protocol/src/consequential_action.rs:5079-5210 | on every ledger a planned action leads to, all its postconditions are met, those of earlier atoms included |
| PlanConfirm.VerifyPostconditions | crates/core-protocol/src/consequential_action.rs:5232-5438 | valid exactly when the postconditions are met, every atom reverses, the restored sources give back the plan's preconditions and invariants hash and, unless freshness was used up, rebasing them changes no hash and planning again gives the plan itself |
| SealedFacts.BlankedMeans | crates/core-protocol/src/consequential_action.rs:6196-6257 | two ledgers are the same once the listed facts are removed exactly when they differ in nothing but the currency or currency evidence of the first fact of a listed account |
| SealedFacts.SealFixes | crates/core-protocol/src/consequential_action.rs:6196-6257 | the sealed hash fixes the whole ledger exactly when the plan lists no currency and no currency evidence |
| SealedFacts.AllCleared | crates/core-protocol/src/consequential_action.rs:5592-5806 | a ledger that has taken back every listed currency and what was attested of it differs from the planned one in listed facts only |
| PlanConfirm.ConfirmedIsPerformed | crates/core-protocol/src/consequential_action.rs:5280-5372 | when the invariants hash tells blanked ledgers apart, a confirmed action has been performed on a ledger that differs from the planned one in listed facts only, and nothing else has happened to it |
| PlanConfirm.ReplansAlike | crates/core-protocol/src/consequential_action.rs:5373-5431 | sources whose rebased form the hashes and the verdicts cannot tell from planning's lead to a plan that agrees in everything compared |
| PlanConfirm.PerformedConfirms | crates/core-protocol/src/consequential_action.rs:5232-5438 | a planned action performed on such a ledger, with all else as sealed, is confirmed |
| PlanConfirm.ConfirmedExactly | crates/core-protocol/src/consequential_action.rs:5232-5438 | so confirmation is exact: accepted if and only if the whole action, and nothing more, has been performed on the planned ledger up to the listed facts |
| PlanConfirm.ConfirmedOutright | crates/core-protocol/src/consequential_action.rs:5232-5438 | a plan that lists no currency is confirmed if and only if it has been performed on the very ledger it was planned on |
| ConfirmedFacts.PerformedKeepsRest | crates/core-protocol/src/consequential_action.rs:4595-4985 | what is recorded of an account's currency and its evidence is the same before and after an action |
| ConfirmedFacts.ConfirmedFromPlanned | crates/core-protocol/src/consequential_action.rs:5592-5806 | a confirmed ledger is the planned one with the action performed on it exactly when the plan lists no currency and no evidence of one |
| ConfirmedFacts.ConfirmedElsewhere | crates/core-protocol/src/consequential_action.rs:6196-6257 | for every performable plan that lists one there is a ledger that is confirmed, all else being as sealed, and is not the planned one with the action performed on it |
| Cart.NormalizeItem | crates/core-protocol/src/decision_card.rs:708-771 | a cart line is accepted exactly when it is charged whole to its category or split exactly over known ones |
| Cart.CollectAdjustments | crates/core-protocol/src/decision_card.rs:772-814 | adjustments are accepted exactly when each is valid and the three kinds' sums are representable |
| Cart.ChargeCart | crates/core-protocol/src/decision_card.rs:697-850 | charged exactly when every line and adjustment is valid and every category ends positive; category charges sum to subtotal plus tax and fee minus discount |
| Cart.ApplyAdjustments | crates/core-protocol/src/decision_card.rs:815-837 | in whatever order categories are visited, each ends at its lines plus its adjustments |
| Cart.Spread | crates/core-protocol/src/decision_card.rs:838-890 | the greedy spread succeeds exactly when every category's charge is at least its number of lines; then each line is at least one and the lines of a category sum to its charge |
| Cart.ProjectCart | crates/core-protocol/src/decision_card.rs:697-930 | the engine lines distribute the whole cart; the run-time conservation check never fires |
| CategoryPass.CollectFacts | crates/core-protocol/src/decision_card.rs:1274-1324 | accepted exactly for one row a slot and a bucket, one currency a category, each in its period |
| CategoryPass.CollectDues | crates/core-protocol/src/decision_card.rs:1324-1387 | each counted obligation is committed once, and a repetition that disagrees is refused |
| CategoryPass.CollectClaims | crates/core-protocol/src/decision_card.rs:1390-1461 | each claim identity is reserved once, unless its first claim mirrors an obligation |
| CategoryLaws.BuildTotals | crates/core-protocol/src/decision_card.rs:1274-1462 | totals exist exactly for sound sources and say of every category what it has, owes and has reserved |
| CategoryLaws.OwedIsSet | crates/core-protocol/src/decision_card.rs:1324-1387 | what is owed depends on which obligations there are, not on their order or repetition |
| CategoryLaws.ReservationsOrderFree | crates/core-protocol/src/decision_card.rs:1433-1459 | an accepted list of claims is accepted in every order, with the same reservations, exactly when claims of one identity mirror an obligation all together, not at all, or are worth nothing, and every claim agrees with the obligation it mirrors |
| CategoryLaws.OrderMatters | crates/core-protocol/src/decision_card.rs:1433-1459 | two claims of one identity, accepted in both orders, that reserve nothing in one and five in the other |
| CategoryLaws.OrderRefuses | crates/core-protocol/src/decision_card.rs:1433-1449 | two claims that mirror alike, accepted in one order and refused in the other |
| CategoryLaws.TotalsBack | crates/core-protocol/src/decision_card.rs:1274-1462 | totals back the facts row by row and are never negative, which is what the donor allocator needs of them |
| Donors.PolicySurplus | crates/core-protocol/src/decision_card.rs:1489-1502 | what a category may give up above claims and policy floor, and when it is computable |
| Donors.MatchDonors | crates/core-protocol/src/decision_card.rs:1612-1654 | the nested greedy loops compute the greedy matching |
| Donors.MatchComplete | crates/core-protocol/src/decision_card.rs:1612-1654 | the matching succeeds exactly when in each currency the donors' surplus covers the needs |
| Donors.MatchExact | crates/core-protocol/src/decision_card.rs:1612-1654 | each need is then met exactly |
| Funding.NeverBoth | crates/core-protocol/src/decision_card.rs:1581-1611 | no category both lacks money and gives it |
| Funding.FloorsKept | crates/core-protocol/src/decision_card.rs:1581-1654 | no slot is both paid into and drawn from, and a donor keeps its floor after its own purchase |
| Funding.PurchasesCovered | crates/core-protocol/src/decision_card.rs:1571-1654 | after the moves every purchase in a current ordinary category is covered by what is not claimed |
| Funding.ProposePaths | crates/core-protocol/src/decision_card.rs:1571-1654 | paths are proposed exactly when something lacks and the surplus covers it |
| Funding.ApplyPaths | crates/core-protocol/src/decision_card.rs:1655-1690 | the hypothetical facts are the original ones shifted by the paths, unless a receiver would overflow |
| Funding.DonorPaths | crates/core-protocol/src/decision_card.rs:1571-1710 | what is offered is the whole allocation, which the engine has accepted, or nothing |
| CardPlan.StateCategories | crates/core-protocol/src/decision_card.rs:1504-1569 | the card's before and after states of every category in slot order, policy kind included, shown exactly when each of them is representable |
| CardPlan.AllocationPermutes | crates/core-protocol/src/decision_card.rs:1612-1654 | an allocation remains one in any order of its paths |
| CardPlan.PathFunded | crates/core-protocol/src/consequential_action.rs:3415-3449 | at every prefix of the paths the next one passes the planner's safe-to-redirect, floor and envelope checks |
| CardCart.OrderCovers | crates/core-protocol/src/consequential_action.rs:2679-2748 | the card's paths in any order pass path coverage |
| CardCart.CardMovesAccepted | crates/core-protocol/src/consequential_action.rs:3298-3521 | the card's paths in any order are accepted by the planner exactly when none draws on a protected or goal category |
| CardCart.CartAffordable | crates/core-protocol/src/consequential_action.rs:3632-3689 | after those moves every cart purchase passes every running charge and envelope check, when the purchases the card moves nothing for are covered |
| CardCart.FundedIsCovered | crates/core-protocol/src/consequential_action.rs:3632-3689 | conversely, when every purchase passes and together they spend the cart, those purchases were covered |
| CardCart.CardForetells | crates/core-protocol/src/decision_card.rs:1504-1569 | the card's after state is where the planner's envelopes end: always in what is available, and in what is unclaimed exactly when the purchase there is covered |
| CardAction.PolicyMap | crates/core-protocol/src/decision_card.rs:1464-1480 | accepted exactly for named, distinct, nonnegative policies, and the map holds each of them |
| CardAction.CardSound | crates/core-protocol/src/decision_card.rs:3205-3220 | a card read off a charged cart, the category totals and the policies has all the donor allocator takes for granted, and its purchases are lines plus adjustments slot by slot |
| CardAction.AggregateCategories | crates/core-protocol/src/decision_card.rs:963-972 | the category charges of the cart: positive, adding up to its total, never overflowing |
| CardAction.WholeByCategory | crates/core-protocol/src/consequential_action.rs:2401-2427 | purchases that meet the cart slot by slot meet its aggregated charges category by category |
| CardAction.CardPlans | crates/core-protocol/src/consequential_action.rs:2876-3297 | with accounts that can pay, the card's moves in any order followed by its purchases plan exactly when no donor is protected or a goal and every purchase the card moves nothing for is covered |
| CardWitness.GoalRefused | crates/core-protocol/src/decision_card.rs:1571-1654 | for one concrete card the move is what the allocation proposes whatever the donor's kind, and the planner accepts it exactly for kinds other than protected and goal |
| CardWitness.PlanRefused | crates/core-protocol/src/consequential_action.rs:3420-3430 | the whole action of that card is planned exactly for those kinds and when the third category holds what is bought from it |
| CardWitness.ThreeCards | crates/core-protocol/src/consequential_action.rs:3632-3689 | one such card that is planned, one with a goal for a donor that is not, and one with an uncovered purchase that is not |
| Matrix.AccumulateCells | crates/core-protocol/src/evidence_allocation.rs:356-395 | one pass over the cells keeps four exact tallies; it fails only for unsound cells or cells beyond capacity |
| Allocation.CollectChoices | crates/core-protocol/src/evidence_allocation.rs:331-355 | accepted exactly when every selected line has one category and nothing else has |
| Allocation.AccumulateGraph | crates/core-protocol/src/evidence_allocation.rs:396-424 | the confirmed relationships of the selected receipts, tallied by receipt and target |
| FundingEdges.DeriveRelationships | crates/core-protocol/src/evidence_allocation.rs:118-188 | accepted exactly for positive cells of known pairs in one currency each; every pair's old edges give way to one edge of its cells' total |
| FundingEdges.DerivedExactly | crates/core-protocol/src/evidence_allocation.rs:118-188 | an allocation with derived relationships passes the comparison of graph and matrix exactly when no other confirmed funding or transfer leaves one of its receipts |
| AllocationPlan.CheckTenders | crates/core-protocol/src/evidence_allocation.rs:429-458 | a receipt's unnamed tenders cover every shortfall of its named ones, exactly |
| AllocationPlan.ReviewBuffer.NormalizeInPlace | crates/core-protocol/src/evidence_allocation.rs:61-78 | the review in place: the same receipts, targets, choices and cells as before, each list in the order of its keys |
| AllocationPlan.ComputeAllocation | crates/core-protocol/src/evidence_allocation.rs:190-593 | accepted exactly for allocatable reviews, and the plan means what it says |
| AllocationLaws.Conserved | crates/core-protocol/src/evidence_allocation.rs:459-575 | line nets less line remainders and target amounts less target remainders both equal the cell total |
| AllocationLaws.FundedOrRemaining | crates/core-protocol/src/evidence_allocation.rs:500-575 | a target is projected exactly when it is fully funded, and has a remainder otherwise |
| AllocationLaws.ValidateEffect | crates/core-protocol/src/consequential_action.rs:1304-1328 | the ledger-effect validation decides validity |
| AllocationLaws.ProjectionsValid | crates/core-protocol/src/evidence_allocation.rs:542-573 | every projected effect passes that validation |
| AllocationOrder.OrderIrrelevant | crates/core-protocol/src/evidence_allocation.rs:61-78 | acceptance does not depend on the order of receipts, targets, choices or cells |
| AllocationOrder.NormalizeCanonical | crates/core-protocol/src/evidence_allocation.rs:61-78 | orders of one accepted review have one canonical form |
| AllocationOrder.PlanCanonical | crates/core-protocol/src/evidence_allocation.rs:190-593 | hence one plan and one hash |
| AllocationOrder.PlanIdempotent | crates/core-protocol/src/evidence_allocation.rs:576-593 | recomputing from a plan's own review gives that plan back |
| Settlement.Settle | crates/core-protocol/src/evidence_settlement.rs:150-288 | accepted exactly for settleable receipts that share no observation and cover the transaction's event, and the effect is the receipts' lines by category |
| Settlement.CoversWhole | crates/core-protocol/src/evidence_settlement.rs:256-265 | that comparison of sizes and members means that the event is the transaction with its receipts and nothing else |
| SettlementLaws.SettlementIsMatrix | crates/core-protocol/src/evidence_settlement.rs:164-288 | the whole-receipt effect is the projection of the one-target matrix of the positive line nets |
| SettlementLaws.SettledValid | crates/core-protocol/src/consequential_action.rs:1304-1328 | the settled effect passes the ledger-effect validation, whatever the matrix planner says of the same receipts |
| Trees.Leaves | crates/core-protocol/src/native_rules.rs:172-193 | the explicit stack terminates, succeeds exactly on sound forests and returns exactly the leaf nodes |
| Trees.LeavesPermute | crates/core-protocol/src/native_rules.rs:172-193 | top-level order changes neither soundness nor leaves |
| RulePlan.OrderedRules | crates/core-protocol/src/native_rules.rs:195-209 | the rules in rank order, refused exactly for blank or repeated identities |
| RulePlan.SimulatePopulation | crates/core-protocol/src/native_rules.rs:222-271 | the payee's leaves in identity order, what the rule changes in each, how many end in the category, and, if there is any, the rules that may conflict |
| RulePlan.PlanCreateRule | crates/core-protocol/src/native_rules.rs:288-380 | planned exactly for named and reviewed requests on sound sources, with a hash of the request but its deadline, the sorted source, leaves and impact |
| RulePlan.RulePlanCanonical | crates/core-protocol/src/native_rules.rs:327-377 | the plan and its hash are the same for every order of the source's collections and for every deadline |
| Mutation.FindUnique | crates/core-protocol/src/lib.rs:1282-1325 | the stack of iterators answers with the count of the identity over the flattened forest |
| Mutation.VerifyMutation | crates/core-protocol/src/lib.rs:1273-1370 | verified exactly when the one node shows the proposed category and the postconditions hold |
| Mutation.PlannedChangeVerifies | crates/core-protocol/src/lib.rs:1250-1370 | a planned change verifies once the one transaction it names takes an existing, undeleted category |
| Timestamps.ReadersAgree | crates/core-protocol/src/consequential_action.rs:6451-6500 | the instant reader accepts exactly the struct reader's timestamps below second 60, at the same instant |
| Timestamps.LeapSecondDiffers | crates/core-protocol/src/decision_card.rs:429-485 | second 60 is read by one and refused by the other |
| Timestamps.AccumulateNanos | crates/core-protocol/src/decision_card.rs:455-480 | the fraction loop never overflows and pads to nanoseconds |
| Calendar.Epoch | crates/core-protocol/src/consequential_action.rs:6514-6522 | the day count starts at the epoch |
| Calendar.MonthLength | crates/core-protocol/src/consequential_action.rs:6514-6522 | the first days of neighbouring months are as far apart as the month is long, February before March and December before January included |
| Calendar.NextDay | crates/core-protocol/src/consequential_action.rs:6514-6522 | the next calendar date, in this month, the next or the next year, is the next day number |
| Calendar.DaysFollow | crates/core-protocol/src/consequential_action.rs:6502-6522 | day numbers follow the lexicographic order of dates |
| Calendar.InstantsCompare | crates/core-protocol/src/consequential_action.rs:6451-6522 | instants of valid stamps are ordered, and equal, exactly as the stamps |
| Calendar.ReadersOrderAlike | crates/core-protocol/src/decision_card.rs:429-485 | so both readers order any two timestamps alike |
| ReviewQueue.EveryRun | apps/web/composables/useApiReviewController.ts:150-431 | in every interleaving, items, proposal views and acted id are of this lifetime, a listing is the latest asked for, and the current item is the one at the cursor or none |
| ReviewQueue.StaleChangesNothing | apps/web/composables/useApiReviewController.ts:221-251 | a response of an earlier lifetime or a superseded listing changes nothing shown |
| ReviewQueue.NothingCrosses | apps/web/composables/useApiReviewController.ts:150-167 | after an identity change nothing from before is ever shown again |
| ReviewQueue.DisposalIsFinal | apps/web/composables/useApiReviewController.ts:160-174 | a disposed controller shows nothing, whatever settles |
| ReviewQueue.ConsumesCursor | apps/web/composables/useApiReviewController.ts:336-378 | a settled action removes the item under the cursor at that moment; the acted item goes exactly when the cursor still stands on it |
| ReviewQueue.CursorMoved | apps/web/composables/useApiReviewController.ts:336-378 | a run in which another item disappears |
| ReviewQueue.ExchangeShows | apps/web/composables/useApiReviewController.ts:668-706 | a proposal that comes back in the lifetime it was asked for replaces the one shown for its review and no other; one that comes back later shows nothing |
| ReviewController.Controller.FetchSettles | apps/web/composables/useApiReviewController.ts:380-431 | a settling list response makes the specified step |
| ReviewController.Controller.ReplySettles | apps/web/composables/useApiReviewController.ts:268-379 | a settling action, undo or proposal response makes the specified step |
| ReviewController.Controller.SelectIndex | apps/web/composables/useApiReviewController.ts:793-824 | selection makes the specified step |
| ReviewController.BulkProposals | apps/web/composables/useApiReviewController.ts:642-714 | whatever happens during each await, the loop runs to the first exchange that ends in another lifetime, and then shows no proposal it asked for |

## Left out

- The liquidity engine, evidence resolution and blockers, and the evaluation of a decision card from snapshots are given verdicts:
  predicates and functions passed in (`engineAccepts`, `evidenceSound`, `resolve`, `clear`, `judge`, `sound`, `timely`, `cleared`, `bind`).
  Nothing is assumed of them but that they are functions.
- SHA-256 and JSON: hashes are functions passed in. `VerifiedLedger` names the one injectivity it needs and `HashesBlanked` what the
  results about confirmation need; both hold of an injective hash of the material the code hashes.
- Undo.UndoIsInverse: does not cover the mirrored edits of the legacy snapshot, amendment child rows, wallet openings with their
  opening equity, payee bindings and payee coverage, or the removal of generated observations, which the same function reverses
  by field matching beside the collections modelled here.
- Undo.MoveUndone: leaves out the mirrored edits of the legacy snapshot, for the same reason.
- Undo.PostUndone: leaves out legacy snapshot rows and payee bindings.
- Undo.AmendUndone: leaves out child rows and the legacy snapshot row.
- Undo.OpenUndone: leaves out the opening balance and opening equity.
- Undo.SendUndone: leaves out the reversal of the legacy transfer, and payee names.
- Undo.StepUndone: leaves out all of these, atom kind by atom kind.
- Restorer.WorkingCopy.Restore: leaves out what `Undo.UndoIsInverse` leaves out.
- Restorer.WorkingCopy.ReverseTransfer: leaves out the legacy snapshot side of the transfer.
- PlanLaws.PlanUndone: is about the same reversal, without those collections.
- Ledger.ValidateLedger: leaves out wallet opening equities, because an action's wallets are modelled without an opening balance.
- Derive.ValidateCredit: leaves out the duplicate check in the legacy snapshot.
- Derive.ValidateAmendment: leaves out the checks on reconciled rows and on child rows.
- PlanAction.DeriveAction: leaves out the reasons and impacts that are listed with the result.
- PlanVerify.ValidateRequest: takes the resolution and content of evidence, coverage and blockers as given verdicts.
- PlanVerify.BuildPlan: takes the card, evidence and bindings as given functions, and leaves out reasons and impacts.
- PlanVerify.VerifyPreconditions: does not classify replanning errors into reasons by their text (`classify_source_error`);
  a failed replanning is `Refused` with its error.
- Wallet openings as a whole (validation, dispatch, postcondition and reversal of an opening balance): wallets open empty.
- PlanConfirm.VerifyPostconditions: takes the rebasing of capture clocks as a function of the sources, and leaves out the second
  attempt with empty payee coverage and the restoration of empty coverage flags, which concern sources not modelled here.
- ConfirmedFacts.ConfirmedFromPlanned: takes the attested fields and the ledger's account facts as read from one snapshot, as they are in the
  code; here they are two values.
- Of the facts a plan can invalidate, only currencies and their evidence are part of the modelled ledger; the others are given verdicts.
- PlanConfirm.ConfirmedExactly: does not cover sources whose other facts changed within what the sealed hash covers, because the
  code refuses those.
- The capture time of ledger evidence: no hash covers it, and `AccountFactInfo.evidence` stands for the evidence without it.
- CardAction.CardPlans: takes the account side of the purchases (payment routes, account charges, balances) as hypotheses, because
  the card leaves it to the liquidity engine.
- Byte and count limits on publications; identity lengths count characters, not bytes.
- Whole-cart price provenance, warnings, alternatives and the card's evidence predicates.
- Dispatch entries, remainders, projections and category states are maps or sorted lists, not vectors; receipt lines are keyed by
  receipt and line.
- The planner's running maps are passed and returned as values instead of being updated through references.
- CategoryPass.CollectDues: goes over all accounts' obligations as one list in account order.
- Settlement.Settle: takes what makes a receipt current and fully funded by the transaction alone as one verdict a receipt, and leaves out the
  sorted contributions and the hash.
- FundingEdges.DeriveRelationships: leaves out the identity, score and evidence of a derived relationship, and takes the receipt's source
  observation as present, because its absence is part of the given verdict on receipts.
- Applying a stored allocation review to resolved events: it recomputes the plan, which is proved idempotent here, and copies
  projections.
- RulePlan.PlanCreateRule: takes the JSON payload of trigger and action as a function of payee and category, which are bound themselves.
- RulePlan.SimulatePopulation: does not model the overflow of the match counter, which counts more matches than memory holds.
- The controller's loading flag, selected indices, pagination metadata and the bulk reject and skip transitions.
- Command-line, transport, authentication, reporting wrappers, calendars and scenarios: glue or small independent functions.
