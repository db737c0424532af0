# Execution authority control loop: a verified model

The program decides whether an agent may act without a human, and makes that decision good until the moment it
is used. One database holds principals, grants, approvals, committed decisions, tokens, frozen trials and their
labels, lifecycle records, error-budget allocations, charges and a hash-chained ledger. This project models that
database and every transaction on it, the statistical gate that opens autonomy, and the driver that estimates the
gate's error rates, and proves what they promise.

How it is built:

- **The statistical gate** (`Martingale`, `LikelihoodFacts`, `Sequential`, `Anytime`, `Delay`, `AlphaSpending`) in exact
  reals: the mixture martingale, Ville's inequality on finite horizons, the bisected bound, pessimistic counting.
- **The driver** (`Statistics`): the searched threshold table and the incremental queue against a full recount.
- **The database** (`Tables`) is a value; what a transaction does to it is a function to an `Outcome`, the new
  database or an exception, and the store's outermost transaction commits the one and undoes the other. The
  classes (`Principals`, `RiskPolicy`, `ShadowEvidenceLog`, `LifecycleManager`, `PolicyAuthority`,
  `ExecutionGateway`, `EventLedger`) are the program's own, with its loops, flags and worklist, each method proved
  to do what its function says.
- **The induction principle** (`Steps`, `OperationSteps`, `Invariants`): a walk is a sequence of a few kinds of
  single writes; a fact that survives each kind survives every walk, worklist and operation. The invariants of
  `Allocations`, `Lineage`, `Requalify` and `Shadow` are proved by it.
- **What each operation means** (`Readings`, `Admissions`, `Authorizations`, `Revocations`): when a gate is open, a label
  admitted, a token issued or spent, a permission given, and which tokens an event takes, each by an exact
  condition on the tables' own rows, written independently of the functions it characterises.
- **Runs** (`Systems`, `Runs`, `ErrorBudgets`, `Histories`, `Effects`): any sequence of transactions, by any number of
  threads or processes, with crashes, from the empty database. `Validity` joins the gate's reading of the tables to
  the statistical bound, and `Families` the bounds of all partitions, epochs and openings of a run to the one budget.
- **Failing inputs** (`Expiry`, `MoveLog`, `Blockage`, `Scenarios`, `HandOpenings`, `RootGrantors`): exact conditions,
  how long they last, and runs from the empty database that meet them.

Many proofs begin with `hide`, which keeps the named definitions out of the solver's sight where the proof only needs
the lemmas about them.

Where the program does not do what its documentation suggests:

- **Expiring overdue trials outside a label can raise for ever.** `expire_unlabeled` draws up its list before the
  first censoring, whose listener then censors the rest of it. If any trial but the last on the list belongs to a
  live partition, the next insert meets an existing row and the transaction rolls back, and so does every refresh,
  severe failure, churn or change of oracle of a live partition from then on, until a label or a new policy version
  comes. `Expiry.ExpiringIsCensoringAll` gives the exact condition, `Scenarios.OverdueTrialsRaise` a run that meets
  it, `Blockage.BlockedUntilLabelled` how long it lasts.
- On the same path the outer walk holds an out-of-date record and may log a move twice, and revoke twice for one lost
  gate (`Scenarios.MoveLoggedTwice`): exactly when the last trial overdue is the partition's own and its evidence,
  with everything overdue censored, moves it (`MoveLog.MoveRepeatsExactly`). Every logged move is legal and the final
  state and the state returned are right (`Expiry.StaleTailSettles`, `Expiry.ReturnedIsStored`).
- Deactivating a human who is nothing but the root of a grant chain revokes no token under it
  (`RootGrantors.RootDeactivated` is a run; `Principals.DeactivationReachesExactly` says which tokens a deactivation
  reaches); redemption refuses them (`Principals.RootGrantorIsCaughtAtRedemption`), and that and expiry are the only
  ways an unspent token's grant can fail (`Gateway.UnspentTokensGrant`).
- A budget id used twice is charged twice (`Risk.SharedIdsOverdraw`); `Risk.ChargingKeepsExactly` and
  `Runs.OperationBudgetsExactly` say exactly when the budgets hold all the same.
- `within` is stricter than containment for scopes that admit nothing (`Scopes.EmptyScopeIsRejected`), and exact for
  all others (`Scopes.WithinComplete`).
- A churn that names a retired partition as the successor flags it after its own successors were created, so a
  retired record changes and a live partition behind a suspended one can stay free
  (`Scenarios.ChurnOntoRetiredStrands`). `Runs.SuspensionSurvivesRenaming` and `Runs.RetirementIsFinal` hold if and
  only if no churn of the run does so.
- **A reset of counts can be a silent reset of the error budget.** An epoch opened by hand, through `open_epoch` and not
  through a release or a change of oracle, starts the counts over with no new allocation, so that the gate reads fresh
  trials at a level already used (`HandOpenings.LevelAppliedTwice` is a run). The latest level of a registered
  partition belongs to the epoch the gate reads if and only if no epoch of it was opened by hand since
  (`ErrorBudgets.LevelOfEpochExactly`, and `ErrorBudgets.OwnLevelsExactly` for whole runs). Without such openings one
  budget bounds the error of a whole run (`Families.FamilyErrorBounded`); with them every opening is one more try at
  its epoch's level, and that is what it costs (`Families.TriesErrorBounded`, `Families.TriesCost`).

## Model

| member | source | states |
|---|---|---|
| `Martingale.MixtureSplits` | src/exe_auth_ctrl_loop/sequential.py:36-39 | the martingale identity: for every p the mixture at (S, F) is the sum of the mixtures after one more success and one more failure |
| `LikelihoodFacts.LikelihoodMonotone` | src/exe_auth_ctrl_loop/sequential.py:72-73 | the likelihood rises with p up to the empirical rate, so the excluded points below it form an interval |
| `LikelihoodFacts.MixtureAtMostMaximum` | src/exe_auth_ctrl_loop/sequential.py:85-89 | the Jeffreys mixture likelihood never exceeds the maximum likelihood |
| `Sequential.LogMixtureReached` | src/exe_auth_ctrl_loop/sequential.py:42-58 | each input error exactly, and otherwise whether the martingale has reached 1/alpha, excluded p included |
| `Sequential.BetaMixtureLowerBound` | src/exe_auth_ctrl_loop/sequential.py:78-97 | each input error exactly; a positive result is an excluded point below the rate, and one grid step above it is not excluded |
| `Sequential.Crosses` | src/exe_auth_ctrl_loop/sequential.py:113-119 | true exactly when the requirement is at or below the rate and excluded; each input error exactly |
| `Sequential.BisectBrackets` | src/exe_auth_ctrl_loop/sequential.py:90-97 | 64 halvings keep an excluded lower end (or 0) and an upper end that is not excluded |
| `Sequential.BoundImpliesCrossed` | src/exe_auth_ctrl_loop/sequential.py:100-119 | a bound that meets a positive requirement crosses it |
| `Sequential.GuardNeverFires` | src/exe_auth_ctrl_loop/sequential.py:85-89 | the guard before the bisection is dead for every count under the Jeffreys prior |
| `Sequential.CrossedImpliesNearBound` | src/exe_auth_ctrl_loop/sequential.py:100-119 | a crossing puts the requirement below the bound plus rate / 2^64: the shortcut and the bound differ by less than one grid step |
| `Anytime.MaximalInequality` | src/exe_auth_ctrl_loop/sequential.py:37-38 | Ville's inequality on every finite horizon, by induction on the labels to come |
| `Anytime.AnytimeValid` | src/exe_auth_ctrl_loop/sequential.py:75-76 | for p at or below the requirement, the label sequences on which the bound ever meets it up to any horizon weigh at most alpha |
| `Delay.SuccessKeepsCrossing` | docs/v2/statistical-method.md:118-134 | a crossing survives a failure becoming a success at the same n |
| `Delay.SuccessKeepsBound` | docs/v2/statistical-method.md:118-134 | so does the bisected bound itself, whenever n^2 is at most 2^63 times the requirement |
| `Delay.FailuresOnlyDelay` | src/exe_auth_ctrl_loop/shadow.py:578-585 | counting pending trials as failures opens the gate no earlier than leaving them out |
| `Delay.FailuresOnlyDelayBound` | src/exe_auth_ctrl_loop/shadow.py:578-585 | the computed bound, too: where it meets a requirement with pending trials as failures, it is within one grid step of it with them left out |
| `Delay.OpenMeansFullInformationCrosses` | src/exe_auth_ctrl_loop/shadow.py:578-582 | an open gate under delayed, withheld, censored or inconclusive labels means all verdicts cross at the same n |
| `Delay.PessimisticCountingValid` | src/exe_auth_ctrl_loop/shadow.py:578-582 | whatever schedule of looks an adversary who sees every verdict picks, the gate opens with chance at most alpha |
| `Validity.TallyIsLook` | src/exe_auth_ctrl_loop/shadow.py:516-537 | the tally of an epoch counts exactly its frozen trials and their admitted positives |
| `Validity.OpenGateCrosses` | src/exe_auth_ctrl_loop/lifecycle.py:543-562 | an open gate on the stored tables means the true verdicts of the epoch cross the requirement at the same n |
| `Validity.GateErrorBounded` | src/exe_auth_ctrl_loop/lifecycle.py:543-562 | over every state an adversary can bring the tables to, the gate of an unworthy partition opens with chance at most its level |
| `JointTrials.UnionBound` | src/exe_auth_ctrl_loop/authority.py:205-222 | over independent sequences of labels, each at its own rate, the chance that any is hit is at most the sum of their chances |
| `Families.FamilyErrorBounded` | src/exe_auth_ctrl_loop/authority.py:267-281 | over whole runs an adversary chooses knowing every verdict, in which no epoch of a registered partition is opened by hand, with any number of registrations and epochs: the chance that the gate of any partition below its requirement is ever open is at most the one alpha |
| `Families.TriesErrorBounded` | src/exe_auth_ctrl_loop/shadow.py:222-238 | the same over runs with openings by hand, a fresh sequence of verdicts for each: the chance is at most the sum over all epochs of one plus its openings times its level |
| `Families.TriesCost` | src/exe_auth_ctrl_loop/authority.py:267-281 | if no epoch is tried more than so many times, that sum is at most so many times the budget |
| `ErrorBudgets.LevelOfEpochExactly` | src/exe_auth_ctrl_loop/lifecycle.py:460-491 | in every state of every run: the floor on a partition's latest row is the floor the gate counts from if and only if no epoch of it was opened by hand since, and the floors above it number those openings |
| `ErrorBudgets.OwnLevelsExactly` | src/exe_auth_ctrl_loop/shadow.py:222-238 | every level belongs to the epoch it is applied to in every state of a run, if and only if no epoch of a registered partition is opened by hand in it |
| `HandOpenings.OpeningReusesLevel` | src/exe_auth_ctrl_loop/shadow.py:222-238 | an epoch opened by hand leaves the gate nothing to read, and every level and record as it was |
| `HandOpenings.LevelAppliedTwice` | src/exe_auth_ctrl_loop/shadow.py:222-238 | a run from the empty database: the gate reads one trial, the epoch is opened by hand, and the gate reads only another, with no new row of the error budget |
| `Statistics.SuccessThreshold` | experiments/statistics.py:167-183 | each table entry is a least success count by binary search, with its input errors |
| `Statistics.ThresholdExact` | experiments/statistics.py:167-183 | a success count meets the gate exactly when it is at least the entry, for n with n^2 <= 2^63 r |
| `Statistics.ThresholdWithinGrid` | experiments/statistics.py:167-183 | at every n the entry is within one grid step of exact |
| `Statistics.FirstCrossing` | experiments/statistics.py:232-259 | the step returned is the least at which a full recount meets the gate, under both pending rules; with any table it is bracketed within a grid step |
| `Statistics.RunQueue` | experiments/statistics.py:232-259 | the incremental event queue finds the least step at which a full recount meets the table |
| `Statistics.Trials` | experiments/statistics.py:201-230 | exactly the trials the definition asks for, with distinct steps and visible after frozen |
| `Statistics.DriverKeepsLevel` | experiments/statistics.py:187-259 | under pessimistic counting, by trial or one trial a block however a block's verdicts are correlated, the chance that the driver reports a step for an unworthy rate is at most alpha; trial by trial the sequence judged is the trials themselves (`Statistics.EveryStepJudged`) |
| `AlphaSpending.ThreeFifthsSpends` | src/exe_auth_ctrl_loop/authority.py:223 | 3/5 is a spending constant: its shares of any number of claimants stay within the whole |
| `AlphaSpending.AllocationsConserve` | src/exe_auth_ctrl_loop/authority.py:267-281 | everything allocated over every index and epoch adds up to at most alpha |
| `AlphaSpending.AllocatedExactly` | src/exe_auth_ctrl_loop/authority.py:267-281 | what each level is under each of the four combinations of rules |
| `AlphaSpending.UnitFamilyConserves` | experiments/statistics.py:86-94 | the levels of a whole family add up to at most alpha, online for any number, evenly for the declared one |
| `Tables.Store.End` | src/exe_auth_ctrl_loop/store.py:532-565 | only the outermost transaction commits, and it commits everything or, after an exception anywhere inside, nothing |
| `Tables.Store.Revoke` | src/exe_auth_ctrl_loop/revocation.py:57-100 | every issued token in scope is revoked with its cause, and the started ones are listed in the one event |
| `Tables.RevokeInSpec` | src/exe_auth_ctrl_loop/revocation.py:86-94 | nothing in scope is left issued, nothing out of scope changes, and no terms change |
| `Ledger.VerifiedIsChain` | src/exe_auth_ctrl_loop/ledger.py:151-174 | a table verifies exactly when it is what appending its own bodies in order would have written |
| `Ledger.AppendVerifies` | src/exe_auth_ctrl_loop/ledger.py:102-149 | appending keeps a verifying chain verifying |
| `Ledger.PrefixVerifies` | src/exe_auth_ctrl_loop/ledger.py:158-160 | every prefix verifies: why truncation needs an anchor |
| `Ledger.AnchorPinsHistory` | src/exe_auth_ctrl_loop/ledger.py:229-255 | two verifying chains with one hash in common agree on its place and on every event up to it |
| `Ledger.AnchorDetectsRewrites` | src/exe_auth_ctrl_loop/ledger.py:241-255 | an anchored head is accepted exactly when everything up to it is unchanged |
| `Ledger.EventLedger.Verify` | src/exe_auth_ctrl_loop/ledger.py:151-174 | the loop answers whether every row has its place, its link and its hash |
| `Ledger.EventLedger.VerifyAnchor` | src/exe_auth_ctrl_loop/ledger.py:241-255 | verification, and the anchored hash at the anchored place |
| `Closure.ReachLeast` | src/exe_auth_ctrl_loop/revocation.py:31-44 | a recursive scope is the least set closed under its edges |
| `Closure.DownIsUp` | src/exe_auth_ctrl_loop/revocation.py:35-44 | a downward closure holds exactly the nodes whose upward closure holds its root |
| `Scopes.NoBlockersMeansAdmits` | src/exe_auth_ctrl_loop/principals.py:126-142 | no reason against a proposal means the scope admits it, and conversely |
| `Scopes.WithinTransitive` | src/exe_auth_ctrl_loop/principals.py:112-124 | containment composes along a chain; with `Scopes.WithinReflexive` it is a preorder |
| `Scopes.WithinSound` | src/exe_auth_ctrl_loop/principals.py:112-124 | a scope within another admits nothing the other does not |
| `Scopes.WithinComplete` | src/exe_auth_ctrl_loop/principals.py:112-124 | a scope that admits anything and is rejected admits something the parent does not |
| `Scopes.EmptyScopeIsRejected` | src/exe_auth_ctrl_loop/principals.py:112-124 | the exception: a scope that admits nothing may be rejected although its meaning is contained |
| `Principals.SubtreesAreChains` | src/exe_auth_ctrl_loop/revocation.py:35-44 | the grants a revocation reaches are exactly those whose chain holds a root of it |
| `Principals.DelegationAttenuates` | src/exe_auth_ctrl_loop/principals.py:417-439 | chains are acyclic; whatever a grant admits every grant above it admits, and none outlives one above it |
| `Principals.NoBlockersMeansInForce` | src/exe_auth_ctrl_loop/principals.py:293-324 | an empty answer means holder, activity, revocation, expiry and scope all hold up to the root, and conversely |
| `Principals.DeactivateKeeps` | src/exe_auth_ctrl_loop/principals.py:380-404 | deactivation leaves no unspent token standing on the principal as holder or approver |
| `Principals.RevokeGrantKeeps` | src/exe_auth_ctrl_loop/principals.py:441-454 | revoking a grant leaves no unspent token anywhere below it |
| `Principals.DelegateKeeps` | src/exe_auth_ctrl_loop/principals.py:417-439 | delegation keeps attenuation, acyclicity and every standing token |
| `Principals.RootGrantKeeps` | src/exe_auth_ctrl_loop/principals.py:406-415 | so does a signed root grant |
| `Principals.WithdrawApprovalKeeps` | src/exe_auth_ctrl_loop/principals.py:472-491 | a rescission leaves no unspent token on the approval, used before or after |
| `Principals.RootGrantorIsCaughtAtRedemption` | src/exe_auth_ctrl_loop/principals.py:318-321 | what deactivation does not reach: the human at the root, whose tokens only redemption refuses |
| `Principals.DeactivationReachesExactly` | src/exe_auth_ctrl_loop/principals.py:380-404 | an unspent token outlives a deactivation if and only if the principal holds no grant on its chain and gave no approval it rests on |
| `Authorizations.RegistersExactly` | src/exe_auth_ctrl_loop/principals.py:360-378 | who is registered, by whom, and with which key |
| `Authorizations.DeactivatesExactly` | src/exe_auth_ctrl_loop/principals.py:380-404 | who is deactivated and by whom |
| `Authorizations.RootGrantsExactly` | src/exe_auth_ctrl_loop/principals.py:406-415 | a root grant is given if and only if its active human grantor signed all of it |
| `Authorizations.DelegatesExactly` | src/exe_auth_ctrl_loop/principals.py:417-439 | a delegation is made if and only if the chain above it is in force and its scope and lifetime lie within |
| `Authorizations.RevokesGrantExactly` | src/exe_auth_ctrl_loop/principals.py:441-454 | a grant is revoked if and only if an active grantor of it or of one above it asks, while it is unrevoked |
| `Authorizations.RescindsExactly` | src/exe_auth_ctrl_loop/principals.py:472-491 | an approval is rescinded if and only if the human who gave it signs, once |
| `Revocations.GrantTakes` | src/exe_auth_ctrl_loop/principals.py:441-454 | which tokens the revocation of a grant takes: those with the grant on their chain, and no other |
| `Revocations.DeactivationTakes` | src/exe_auth_ctrl_loop/principals.py:380-404 | which tokens a deactivation takes: those with a grant held, or an approval given, by the principal, and no other |
| `Revocations.RescissionTakes` | src/exe_auth_ctrl_loop/principals.py:472-491 | which tokens a rescission takes: those on the approval, and no other |
| `RootGrantors.RootDeactivated` | src/exe_auth_ctrl_loop/principals.py:380-404 | a run from the empty database in which a token outlives its root human's deactivation and every later execution of it is refused |
| `Principals.Principals.Chain` | src/exe_auth_ctrl_loop/principals.py:272-282 | the walk ends at a parentless root and lists exactly the ancestors; unknown grants raise |
| `Principals.Principals.Blockers` | src/exe_auth_ctrl_loop/principals.py:293-324 | the loop collects exactly the reasons the definition names |
| `Principals.Principals.Delegate` | src/exe_auth_ctrl_loop/principals.py:417-439 | the whole transaction, refusals included |
| `Principals.Principals.RevokeGrant` | src/exe_auth_ctrl_loop/principals.py:441-454 | the whole transaction, refusals included |
| `Principals.Principals.Deactivate` | src/exe_auth_ctrl_loop/principals.py:380-404 | the whole transaction, refusals included |
| `Risk.BestIsLowest` | src/exe_auth_ctrl_loop/risk.py:261-268 | classification finds an envelope that admits the arguments with the lowest rank, or none exists |
| `Risk.SortedFirstIsBest` | src/exe_auth_ctrl_loop/risk.py:261-268 | sorting by rank and taking the first that admits is choosing that envelope |
| `Risk.Classify` | src/exe_auth_ctrl_loop/risk.py:261-268 | the loop returns it |
| `Risk.Totals` | src/exe_auth_ctrl_loop/risk.py:359-374 | the loop sums exactly the charges of one budget and scope |
| `Risk.OneChargeEach` | src/exe_auth_ctrl_loop/risk.py:327-353 | an operation charges each budget that covers it once and no other |
| `Risk.ChargingKeepsExactly` | src/exe_auth_ctrl_loop/risk.py:274-353 | an operation that is not refused keeps every budget exactly when the budgets of each id together have room for it, ids shared or not |
| `Risk.ChargingKeepsBudgets` | src/exe_auth_ctrl_loop/risk.py:274-353 | with unique ids an operation not refused in the state it is charged in keeps every budget in every scope |
| `Risk.LaterChargesRespectNewLimits` | src/exe_auth_ctrl_loop/risk.py:194-196 | whatever was charged before, a charged operation leaves the budgets that cover it within their present limits |
| `Risk.SharedIdsOverdraw` | src/exe_auth_ctrl_loop/risk.py:337-347 | two budgets under one id are overdrawn by an operation neither refuses |
| `Risk.ChangedRulesAreEnforced` | src/exe_auth_ctrl_loop/risk.py:210-252 | after a change of rules no governed unspent token is one the new rules refuse |
| `Revocations.RulesTake` | src/exe_auth_ctrl_loop/risk.py:210-252 | which tokens a change of rules takes: those on a governed tool that the new rules refuse, and no other |
| `Risk.RiskPolicy.ProposalBlockers` | src/exe_auth_ctrl_loop/risk.py:274-313 | the program computes exactly the reasons of the definition |
| `Risk.RiskPolicy.Commit` | src/exe_auth_ctrl_loop/risk.py:327-353 | one charge per covering budget, filed under null where the scope cannot be read, and one line of history, in the consuming transaction |
| `Risk.RiskPolicy.Update` | src/exe_auth_ctrl_loop/risk.py:210-252 | the new rules, and the one event that revokes what they refuse |
| `Shadow.EvidenceConserved` | src/exe_auth_ctrl_loop/shadow.py:516-537 | frozen = positive + negative + inconclusive + pending, for every set of provenances |
| `Shadow.PessimisticCountsFrozen` | src/exe_auth_ctrl_loop/shadow.py:578-582 | under pessimistic counting n is the number of frozen trials |
| `Shadow.CountedOnce` | src/exe_auth_ctrl_loop/shadow.py:250-252 | no proposal is counted twice in an epoch |
| `Shadow.FreezeKeeps` | src/exe_auth_ctrl_loop/shadow.py:240-294 | freezing keeps order, single counting and replayability |
| `Shadow.ResolveKeeps` | src/exe_auth_ctrl_loop/shadow.py:712-724 | a trial resolves at most once and the ledger says so |
| `Shadow.EpochKeeps` | src/exe_auth_ctrl_loop/shadow.py:222-238 | a new epoch changes no earlier trial's epoch |
| `Shadow.BindKeeps` | src/exe_auth_ctrl_loop/shadow.py:307-323 | binding an epoch keeps the evidence tables replayable |
| `Shadow.ReviewKeeps` | src/exe_auth_ctrl_loop/shadow.py:441-467 | a human review changes no trial, label, epoch or oracle; it adds a quarantine row exactly if the trial is unknown, and its entry otherwise |
| `Shadow.OverdueMembers` | src/exe_auth_ctrl_loop/shadow.py:477-486 | the list to expire is exactly the unresolved trials frozen before the cutoff |
| `Worklist.LateExactly` | src/exe_auth_ctrl_loop/shadow.py:469-489 | what is overdue: exactly the unresolved trials frozen longer ago than the deadline, in the order they were frozen |
| `Admissions.FreezesExactly` | src/exe_auth_ctrl_loop/shadow.py:240-305 | a trial is added exactly for a committed decision on just that proposal, frozen once and counted once in an epoch, with the provenance its approval or its route gives it; any other decision leaves its reason on the record |
| `Admissions.BindsExactly` | src/exe_auth_ctrl_loop/shadow.py:307-323 | the first oracle bound to an epoch stays bound, and another is refused |
| `Admissions.NoRefusalMeans` | src/exe_auth_ctrl_loop/shadow.py:325-400 | what the program accepts as a label is a known, pending trial with just this partition and proposal, signed by an active oracle that did not review it and is bound to its epoch, in time |
| `Admissions.RefusalMeans` | src/exe_auth_ctrl_loop/shadow.py:325-400 | the reason it gives otherwise is the first of these that fails |
| `Admissions.LabelAdmittedExactly` | src/exe_auth_ctrl_loop/shadow.py:325-400 | a label gives its trial a verdict if and only if it is admissible, and gives no other trial one; any other label leaves its reason on the record, and only a late one resolves its trial, as censored |
| `Admissions.EveryVerdictIsSigned` | src/exe_auth_ctrl_loop/shadow.py:325-400 | in every state of every run each verdict was carried by a label that was admissible when it was received |
| `Readings.ReadingMeans` | src/exe_auth_ctrl_loop/shadow.py:546-611 | a reading is none while no trial counts, and otherwise the numbers of counting trials for and against, pending ones as the rule says, and the latest mark on any of them |
| `ShadowLog.ShadowEvidenceLog.Freeze` | src/exe_auth_ctrl_loop/shadow.py:240-294 | the whole transaction, each refusal quarantined |
| `ShadowLog.ShadowEvidenceLog.RecordHumanReview` | src/exe_auth_ctrl_loop/shadow.py:441-467 | the whole transaction of a review |
| `ShadowLog.ShadowEvidenceLog.Snapshot` | src/exe_auth_ctrl_loop/shadow.py:546-611 | one pass computes the counts and the evidence time |
| `ShadowLog.Replay` | src/exe_auth_ctrl_loop/shadow.py:630-710 | the rebuilt tables are the fold of the verified events; an unverified ledger or a non-empty database raises |
| `ShadowLog.ReplayRoundTrip` | src/exe_auth_ctrl_loop/shadow.py:640-653 | the ledger of every reachable state, replayed into an empty database, rebuilds its evidence tables exactly |
| `Lifecycle.NoReasonMeansOpen` | src/exe_auth_ctrl_loop/lifecycle.py:543-573 | no gate reason means count, age, bound, validity and record all allow, and conversely |
| `Readings.GateOpensExactly` | src/exe_auth_ctrl_loop/lifecycle.py:543-573 | the gate is open if and only if enough trials count, the newest mark on them is fresh, their numbers meet the requirement at the tighter of the latest row's level and the policy's, and nothing suspends, retires or invalidates |
| `Worklist.WalkProgress` | src/exe_auth_ctrl_loop/lifecycle.py:437-458 | a walk censors everything overdue or defers nothing: the measure on which the worklist ends |
| `Settling.LabelWorklist` | src/exe_auth_ctrl_loop/lifecycle.py:437-458 | when a label's worklist is done only overdue trials were resolved, every partition concerned is settled, and one that lost its gate has no evidence-based token unless its evidence is stale |
| `Settling.LabelTransaction` | src/exe_auth_ctrl_loop/shadow.py:325-400 | the same for the whole transaction of a label: admitted or late it resolves its trial once and settles what it concerns; refused otherwise it changes no trial, label, record or token |
| `Admissions.LabelSettlesExactly` | src/exe_auth_ctrl_loop/lifecycle.py:437-458 | an admissible label, or a late one, settles all it concerns; any other changes no reading, no record and no token |
| `Settling.SettledIsFixed` | src/exe_auth_ctrl_loop/lifecycle.py:191-240 | refreshing a settled partition at the same instant writes nothing |
| `Settling.WalkSettles` | src/exe_auth_ctrl_loop/lifecycle.py:191-240 | a walk leaves its partition settled |
| `Steps.HeadKeeps` | src/exe_auth_ctrl_loop/lifecycle.py:191-216 | a fact that survives single writes survives registration and retirement, which leave the version matched |
| `Expiry.ExpiringIsCensoringAll` | src/exe_auth_ctrl_loop/shadow.py:469-489 | expiring outside a label raises exactly when a trial before the last belongs to a live partition, and else censors all and walks the last |
| `Blockage.JamIsCondition` | src/exe_auth_ctrl_loop/shadow.py:477-489 | that condition is two overdue trials, the earlier of a live partition |
| `Blockage.BlockedUntilLabelled` | src/exe_auth_ctrl_loop/shadow.py:469-489 | from then on every refresh, severe failure, churn and change of oracle of a live partition, and every direct expiry, raises, over every run without a label or a new policy version |
| `Scenarios.OverdueTrialsRaise` | src/exe_auth_ctrl_loop/shadow.py:469-489 | a run from the empty database that ends so: a registration, two frozen trials, and no label |
| `Expiry.OverdueTrialBlocksRefresh` | src/exe_auth_ctrl_loop/lifecycle.py:217 | while it holds no live partition can be refreshed outside a label |
| `Expiry.StaleTailSettles` | src/exe_auth_ctrl_loop/lifecycle.py:192-239 | the rest of a walk that holds an out-of-date record of a settled partition leaves it settled |
| `Scenarios.MoveLoggedTwice` | src/exe_auth_ctrl_loop/lifecycle.py:192-239 | a run from the empty database whose last refresh logs the same move twice |
| `MoveLog.RefreshLogs` | src/exe_auth_ctrl_loop/lifecycle.py:192-240 | exactly the moves and revocations a refresh of a live partition logs, in order, read off the tables before it |
| `MoveLog.MoveRepeatsExactly` | src/exe_auth_ctrl_loop/lifecycle.py:192-240 | it logs a move twice if and only if the last trial overdue is the partition's own and its evidence, with everything overdue censored, moves it; then every move and the revocation with it appears twice |
| `Histories.MovesInRun` | src/exe_auth_ctrl_loop/lifecycle.py:192-240 | the same in every state of every run |
| `Expiry.ReturnedIsStored` | src/exe_auth_ctrl_loop/lifecycle.py:182-240 | the state a refresh returns, read off the record it held, is the state it stored |
| `Expiry.RefreshSettles` | src/exe_auth_ctrl_loop/lifecycle.py:182-240 | a refresh that succeeds leaves its partition settled and nothing overdue |
| `Expiry.RefreshTwice` | src/exe_auth_ctrl_loop/lifecycle.py:182-240 | a second refresh at the same instant changes nothing |
| `Expiry.SettledPublishes` | src/exe_auth_ctrl_loop/lifecycle.py:684-731 | the published snapshot equals the tally, or zeros, at the epoch's level |
| `Histories.RefreshInRun` | src/exe_auth_ctrl_loop/lifecycle.py:182-240 | in every state of every run a successful refresh leaves the snapshot equal to the tally, unless suspended, and a second one writes nothing |
| `Histories.SnapshotsOnlyAdvance` | src/exe_auth_ctrl_loop/lifecycle.py:684-731 | over every run a snapshot never disappears, its version never falls, and any change of content comes with a larger version |
| `Histories.ResolutionsAreFinal` | src/exe_auth_ctrl_loop/shadow.py:712-724 | over every run a resolution, once written, never changes |
| `Operations.PassesOnlyOpenGate` | src/exe_auth_ctrl_loop/lifecycle.py:411-435 | what the guard lets through, exactly |
| `Invariants.OperationKeeps` | src/exe_auth_ctrl_loop/lifecycle.py:94-101 | a fact that survives every single write survives every operation |
| `Allocations.RegisteringKeeps` | src/exe_auth_ctrl_loop/lifecycle.py:193-198 | a registration takes the next index at its first epoch |
| `Allocations.ReopeningKeeps` | src/exe_auth_ctrl_loop/lifecycle.py:460-486 | a new epoch takes its partition's next place in the series |
| `Lineage.ChurnOntoRetired` | src/exe_auth_ctrl_loop/lifecycle.py:327-353 | a churn onto a retired partition writes to its record exactly when it passes a suspension on and the partition is not flagged |
| `Lineage.ChurnDescends` | src/exe_auth_ctrl_loop/lifecycle.py:327-353 | exactly when a churn keeps suspension along every edge: unless it flags a retired partition and leaves one of its live successors free |
| `Lineage.OperationDescends` | src/exe_auth_ctrl_loop/lifecycle.py:327-353 | every other operation does, but for the edges a release clears |
| `Scenarios.ChurnOntoRetiredStrands` | src/exe_auth_ctrl_loop/lifecycle.py:327-353 | a run from the empty database in which it does not: a suspended partition is renamed to a retired one that has a live successor |
| `Lineage.PolicyDescends` | src/exe_auth_ctrl_loop/lifecycle.py:379-406 | a change of policy version passes suspensions on |
| `Lineage.SevereReachesOnlyItself` | src/exe_auth_ctrl_loop/revocation.py:31-34 | in every reachable state the lineage scope of a severe failure holds only its own partition |
| `Lineage.ChurnRecords` | src/exe_auth_ctrl_loop/lifecycle.py:327-353 | a churn records its own edge and no other, and retires the partition it replaces |
| `Lineage.PolicyRecords` | src/exe_auth_ctrl_loop/lifecycle.py:379-406 | a change of version retires exactly the partitions of the old version and records an edge from each live one to its key under the new |
| `Revocations.SevereTakes` | src/exe_auth_ctrl_loop/lifecycle.py:251-267 | a severe failure of a live partition takes every issued token of it and its descendants and no other, names them in its event, suspends it for that reason, and publishes the suspension with the numbers kept |
| `Revocations.SevereRecordedOnly` | src/exe_auth_ctrl_loop/lifecycle.py:251-263 | a further one is only recorded |
| `Revocations.SevereLeavesNone` | src/exe_auth_ctrl_loop/lifecycle.py:242-267 | a recorded severe failure leaves a live partition no token to spend |
| `Revocations.RetirementTakes` | src/exe_auth_ctrl_loop/lifecycle.py:575-594 | a retirement by churn takes exactly the issued tokens of the partition |
| `Revocations.RetirementInvalidates` | src/exe_auth_ctrl_loop/lifecycle.py:575-594 | and leaves it no valid snapshot |
| `Revocations.FlagTakes` | src/exe_auth_ctrl_loop/lifecycle.py:533-541 | a lineage flag takes exactly the issued tokens of the partition |
| `Revocations.ChurnLeavesNone` | src/exe_auth_ctrl_loop/lifecycle.py:327-353 | after a churn the partition replaced has no token to spend, nor has a successor it flags |
| `Revocations.InvalidationTakes` | src/exe_auth_ctrl_loop/authority.py:448-469 | an invalidation takes exactly the issued tokens of the partition and marks its snapshot |
| `Revocations.OracleTakes` | src/exe_auth_ctrl_loop/lifecycle.py:355-377 | a change of oracle takes exactly the tokens that rest on the partition's evidence, and leads to the next epoch, qualifying if it was autonomous |
| `Revocations.MoveTakes` | src/exe_auth_ctrl_loop/lifecycle.py:596-622 | what each move takes: severe failure, lost gate and change of oracle as above, and no other move any token |
| `Revocations.PolicyTakes` | src/exe_auth_ctrl_loop/revocation.py:131-161 | a new version takes exactly the issued tokens of the old, a wider prohibition exactly those of the version with an effect it adds, and any other change none |
| `Requalify.SuspensionHolds` | src/exe_auth_ctrl_loop/lifecycle.py:65-82 | only a release of that partition ends a suspension |
| `Requalify.ReleaseIsSigned` | src/exe_auth_ctrl_loop/lifecycle.py:292-325 | a release is signed by an active human for the present epoch and leads to qualifying in the next |
| `Requalify.OpeningBinds` | src/exe_auth_ctrl_loop/lifecycle.py:307-310 | an epoch opened for a release or a change of oracle has its own place as floor, the oracle named bound to it, and one row of the error budget with that floor |
| `Manager.LifecycleManager.Walk` | src/exe_auth_ctrl_loop/lifecycle.py:191-240 | the program does what the definition says, inside a label and outside |
| `Manager.LifecycleManager.Notify` | src/exe_auth_ctrl_loop/lifecycle.py:437-458 | the listener defers during a walk and otherwise drains the worklist, and leaves nothing deferred |
| `Manager.LifecycleManager.Adjudicate` | src/exe_auth_ctrl_loop/shadow.py:325-400 | the whole transaction of one label, in the order the program asks, late labels censoring |
| `Manager.LifecycleManager.Release` | src/exe_auth_ctrl_loop/lifecycle.py:269-325 | the whole transaction of a release |
| `Manager.LifecycleManager.OnChurn` | src/exe_auth_ctrl_loop/lifecycle.py:327-353 | the whole transaction of a churn |
| `Manager.LifecycleManager.ChangeOracle` | src/exe_auth_ctrl_loop/lifecycle.py:355-377 | the whole transaction of a change of oracle |
| `Manager.LifecycleManager.RecordSevere` | src/exe_auth_ctrl_loop/lifecycle.py:242-267 | the whole transaction of a severe failure |
| `Manager.PolicyAuthority.Change` | src/exe_auth_ctrl_loop/revocation.py:131-161 | the event, its retirements and its revocations commit together, and only then is the policy in force |
| `Controller.UnattendedMeansSufficient` | src/exe_auth_ctrl_loop/authority.py:560-652 | an unattended route means exactly that nothing stands against the proposal |
| `Controller.RoutesExactly` | src/exe_auth_ctrl_loop/authority.py:560-652 | which of the six routes a proposal gets, each if and only if |
| `Controller.EvaluationNarrows` | src/exe_auth_ctrl_loop/lifecycle.py:141-180 | the lifecycle changes a route only from an unattended one to a request for a human |
| `Controller.UnattendedMeansGateOpen` | src/exe_auth_ctrl_loop/lifecycle.py:141-180 | after the lifecycle's evaluation it also means the partition is autonomous with its gate open on its own counts |
| `Histories.UnattendedInRun` | src/exe_auth_ctrl_loop/lifecycle.py:141-180 | and so in every state of every run |
| `Gateway.SpentOnlyOnCurrentEvidence` | src/exe_auth_ctrl_loop/authority.py:961-1106 | a token without an approval is spent only in a state where the partition is autonomous, its evidence intact and its gate open at that instant |
| `Gateway.UnspentTokensGrant` | src/exe_auth_ctrl_loop/principals.py:293-324 | in every reachable state the grant of an unspent token fails exactly by its own expiry or by the root human's deactivation |
| `Gateway.MintedKeepsTokens` | src/exe_auth_ctrl_loop/authority.py:747-868 | one decision one token, one approval one token, each on a committed decision with an executable route and admitting scopes |
| `Gateway.MintedKeepsPermissions` | src/exe_auth_ctrl_loop/authority.py:828-849 | a token is issued only on a live chain and approval |
| `Authorizations.ChainMeans` | src/exe_auth_ctrl_loop/principals.py:293-324 | no reason against a grant means an active holder and every grant up to the root unrevoked, unexpired, between active parties and wide enough in each dimension |
| `Authorizations.RiskMeans` | src/exe_auth_ctrl_loop/risk.py:274-313 | no reason against an operation means one envelope applies, of its class and with all its effects, every budget has room, and nothing done in the partition conflicts |
| `Authorizations.IssuesExactly` | src/exe_auth_ctrl_loop/authority.py:747-868 | a token is issued if and only if its decision is committed, on an unattended route or on one that asked for a human and has a signed, unexpired approval, within policy and grant; and it carries exactly these terms, for the policy's lifetime |
| `Authorizations.SpendsExactly` | src/exe_auth_ctrl_loop/authority.py:961-1106 | a token is spent if and only if it is unspent, on time, presented with its own proposal on its own channel, and policy, evidence, grant, approval, gate and risk all allow it at that instant |
| `Authorizations.ExecutesExactly` | src/exe_auth_ctrl_loop/authority.py:870-907 | an operation is executed if and only if its token may be spent on it and its tool is known; the token is consumed and the operation charged |
| `Authorizations.RedeemsExactly` | src/exe_auth_ctrl_loop/authority.py:909-936 | a remote call is redeemed if and only if it is the call the token was issued for and the token may be spent |
| `Authorizations.AcceptsExactly` | src/exe_auth_ctrl_loop/authority.py:938-959 | a call without effects is accepted if and only if it could be redeemed and was not accepted before; only the nonce is written |
| `Authorizations.HandlersAdvanceExactly` | src/exe_auth_ctrl_loop/authority.py:1124-1150 | a handler starts on a consumed token only and ends only once started |
| `Authorizations.DecidesExactly` | src/exe_auth_ctrl_loop/ledger.py:182-206 | a decision is committed once, and its event stands at the place it records |
| `Revocations.RequestTakes` | src/exe_auth_ctrl_loop/authority.py:1108-1122 | a revocation by request takes just the token it names |
| `Authorizations.EveryTokenWasIssued` | src/exe_auth_ctrl_loop/authority.py:747-868 | in every state of every run each token was issued at a step at which all of that held, and its terms are the ones it got then |
| `Authorizations.TokensAreRouted` | src/exe_auth_ctrl_loop/authority.py:58-66 | in every state of every run the decision behind a token is on an unattended route, or asked for a human and has an approval of just that proposal |
| `Authorizations.SpentBeforeExpiry` | src/exe_auth_ctrl_loop/authority.py:1017-1028 | in every run a token that is executed, redeemed or accepted was issued under a policy whose lifetime has not run out |
| `Redemption.PassesIgnoresTokens` | src/exe_auth_ctrl_loop/authority.py:971-984 | consuming before checking changes no answer |
| `Redemption.ExecutionGateway.Execute` | src/exe_auth_ctrl_loop/authority.py:870-907 | the whole transaction: a refusal leaves every table unchanged |
| `Redemption.ExecutionGateway.RedeemRemote` | src/exe_auth_ctrl_loop/authority.py:909-936 | the whole transaction: a refusal leaves every table unchanged |
| `Redemption.ExecutionGateway.Issue` | src/exe_auth_ctrl_loop/authority.py:747-868 | the whole transaction, refusals included |
| `Redemption.ExecutionGateway.AcceptNonce` | src/exe_auth_ctrl_loop/authority.py:938-959 | an effect-free call is accepted once and the token is not spent |
| `Redemption.ExecutionGateway.CommitDecision` | src/exe_auth_ctrl_loop/ledger.py:182-206 | a decision and its event are written together, once |
| `Systems.RunSound` | src/exe_auth_ctrl_loop/store.py:532-565 | in every state of every run tokens stand on live authority, tables replay, nothing counts twice, and only retired partitions have successors |
| `ErrorBudgets.ErrorBudgetConserved` | src/exe_auth_ctrl_loop/lifecycle.py:460-518 | over every run the recorded levels add up to at most the budget, use no place twice, and the gate applies the level a policy of the run allocates to the current registration and epoch, recorded for the very trials it reads exactly if no epoch was opened by hand since |
| `Runs.OperationBudgetsExactly` | src/exe_auth_ctrl_loop/risk.py:274-353 | over every run with fixed rules every budget is kept in every state exactly if every committed charge had room in the budgets of its ids |
| `Runs.OperationBudgetsKept` | src/exe_auth_ctrl_loop/risk.py:274-353 | with unique ids it always is |
| `Runs.SuspensionSurvivesRenaming` | src/exe_auth_ctrl_loop/lifecycle.py:327-353 | over every run every unreleased successor of a suspended partition is lineage-suspended in every state, if and only if no churn strands one; the empty database is such a start (`Runs.EmptyDescends`) |
| `Runs.RetirementIsFinal` | src/exe_auth_ctrl_loop/lifecycle.py:575-594 | over every run a retired partition's record stays the same, if and only if no churn passes a suspension on to it while it is not flagged |
| `Runs.AutonomyAfterSuspension` | src/exe_auth_ctrl_loop/lifecycle.py:269-286 | a suspended partition that is autonomous later was released by a signature and has n_min counting trials frozen after it |
| `Runs.SignatureReleasesOnce` | src/exe_auth_ctrl_loop/principals.py:216-225 | one release signature works at most once |
| `Effects.AtMostOneEffect` | src/exe_auth_ctrl_loop/authority.py:870-936 | over every interleaving and crash: at most one handler entry per token, decision and approval, none for a revoked token, and each after a committed decision on the ledger; the empty world is such a start (`Effects.NothingEntered`) |

## Left out

- Statistics.ThresholdExact: exactness is proved for n with n^2 <= 2^63 r, which covers every table the program builds; for larger n only the bracket of `Statistics.ThresholdWithinGrid`, since the bisection grid can then be coarser than one success.
- Delay.SuccessKeepsBound: proved under the same condition on n; for the exact bound it holds at every n (`Delay.SuccessKeepsCrossing`).
- Sequential.LogMixtureReached: returns whether the martingale has reached 1/alpha, the only use the program makes of its logarithm, in exact reals.
- Delay.FailuresOnlyDelay: stated for the exact crossing; for the computed bound it holds to within one grid step (`Delay.FailuresOnlyDelayBound`).
- Statistics.FirstCrossing: the exact least step for horizons n with n^2 <= 2^63 r, a bracket of one grid step beyond.
- AlphaSpending.ThreeFifthsSpends: 3/5 stands for 6/pi^2, whose exact value is not modelled.
- AlphaSpending.UnitFamilyConserves: for lineage spending; under the per-epoch rule every epoch has the whole level and no sum is bounded.
- Families.FamilyErrorBounded: holds for runs in which no epoch of a registered partition is opened by hand, and takes the verdicts of different epochs as independent sequences, as an adversary cannot choose them; with openings the bound is that of `Families.TriesErrorBounded`.
- Families.TriesErrorBounded: takes one independent sequence for each try at each epoch, and bounds the tries allowed for; a run that opens more of them by hand is bounded by allowing for more.
- ErrorBudgets.ErrorBudgetConserved: takes a spending constant c with c times every partial sum of 1/k^2 at most 1; the program's 6/pi^2 is the largest such constant, and 3/5 is shown to be one.
- Floating point: bounds, levels, amounts and charges are exact reals; logarithms, lgamma, rounding, NaN, infinities and oversized integers are not part of this model.
- SQLite, WAL, connections, threads inside a transaction and migrations: a transaction is an atomic step with rollback; the schema's keys and triggers appear as guards of the writes.
- Clocks: every transaction reads one instant, and instants of different transactions are unrelated, which allows more runs than a nondecreasing clock.
- SHA-256 and HMAC: a proposal stands for its digest, a signature is the pair of key and payload, and the ledger's keyed hash is any injective function.
- Nine of the twelve partition-key fields are one opaque component; JSON forms are structural equality.
- Reason strings: the gateway's refusals are reduced to whether any applies; grants, risk and the gate keep enumerated reasons.
- Snapshot history: only the current version is kept; `collected_from` is not modelled.
- Snapshots written from outside (`EvidenceStore.put`, `ShadowEvidenceLog.publish`) and the earlier adjudication path of the evidence store, and a policy swapped without `PolicyAuthority`.
- The legacy Wilson estimator: the bound is a parameter of the policy, fixed to the mixture bound only where the statistics are used.
- Guards that veto a proposal at decision time enter the controller as one yes-or-no answer.
- The executor's and pipeline's turn loops, model clients, prompts, the tool catalog and schemas, and the MCP wire format: `Effects.AtMostOneEffect` needs none of them, since the gateway itself refuses what was not committed.
- Random audit draws enter as an argument; their quality is not modelled.
- The simulation's truth processes, plots and manifests.
