# Verification of UpgradePilot's core

This project models the parts of UpgradePilot that carry its guarantees and proves them for every input,
every run and every interleaving:

- **The fair job queue** (`RedisStore`, `Jobs`, `Fairness`, `QueueProtocol`, `QueueGuarantees`, `QueueDrain`, `Worker`). Once per
  function call, as a class whose methods are proved against a specification of the whole call, with the
  fairness bounds; and once per Redis command with any number of workers, where conservation, first-in-first-out
  order and the attempt bound hold and the active set can be shown to go out of step.
- **The token bucket** (`RateLimit`, `SharedRateLimit`, `SharedOverspend`). Real arithmetic; atomic calls first, then the
  watch-read-commit steps of concurrent workers with a version counter.
- **The evidence checks** (`Models`, `FlatMaps`, `Evidence`, `Repair`, `Risk`, `RiskPacks`). The validator, the critic's
  contract, the repair step, and the risk scorer against the validator that re-checks it.
- **The analysis graph** (`GraphState`, `Nodes`, `Graph`, `GraphRuns`, `GraphSteps`, `GraphInvariant`,
  `GraphGuarantees`, `GraphGrounding`, `GraphCompleteness`, `GraphReasons`, `GraphWitnesses`). A run is a sequence of super-steps; node outputs are
  arbitrary within each node's contract; one invariant ties every reachable state to the stage the run has reached.
- **The API's copy of the state** (`Replica`, `AnalysisStore`). The copy merges the streamed updates in the order in
  which they arrive, with its own list of appending fields.
- **Archive extraction** (`Archive`). Two passes over the members, with a map from paths to entries as the workspace.

`Outcomes` and `Sums` hold the shared option and result types and the sum over a finite map.

`dafny verify dfyconfig.toml` checks the whole project with Dafny 4.11.

## Reading the model

Identifiers are values compared for equality (user ids also by order). Time, tokens and rates are reals. What comes
from outside (the clock, other clients, downloads, scanners, language models) is an input or is arbitrary within the
contract of the node that calls it. Text matching, schema validation and the parsing of URLs and lines in the validator
are arbitrary functions (`Evidence.Checks`), so the results hold whatever they answer. The graph theorems of
`GraphRuns` to `GraphGuarantees`, of `GraphReasons`, and of `GraphCompleteness` except its two equivalences hold for any
validator, scorer and repair step (`Nodes.Env`); the others use the modelled ones (`Nodes.Standard`).

Where code and documentation disagree, the model follows the code:

- `src/upgradepilot/queue/jobs.py:4-8` says no single user can starve others. An idle user re-enters at score 0, so one can;
  `Fairness.StarvationIff` gives the exact condition in every reachable state and `Fairness.ServedWithin` the bound that does hold.
- `src/upgradepilot/queue/jobs.py:105-107` reads a length and then removes the user in a second command. A job enqueued in between is
  hidden from every claim (`QueueGuarantees.StrandedJob`, `QueueGuarantees.CoverageLostIff`) until its user enqueues again, another
  of the user's jobs is retried, or a worker that popped for the user counts jobs left (`QueueGuarantees.ComesBackIff`).
- `src/upgradepilot/queue/rate_limit.py:40-41` says concurrent workers do not double-spend. The write of a denied call follows `unwatch`
  and is unprotected, so they do, for every limit with a token and a refill, the defaults included
  (`SharedRateLimit.OverspendIff`, `SharedRateLimit.DefaultsCanOverspend`). There are two ways: the write can overwrite a grant
  (`SharedRateLimit.StaleDenialOverspends`), and it can pair an early time with tokens read later
  (`SharedRateLimit.TornReadOverspends`). Without both, the bound holds (`SharedRateLimit.SharedWindowBound`); each such write
  costs at most one bucketful, and can cost that much (`SharedOverspend.OverspendBound`, `SharedOverspend.OverspendReached`).
- The validator's risk check rejects every clipped score (`Risk.ScoreAcceptedIff`), and the shipped pydantic rules can be
  clipped (`RiskPacks.PydanticPackCanClip`). The django rules name their points differently from what the scorer reads
  and never score (`RiskPacks.DjangoPackAlwaysLow`); four of the six could not under any names (`RiskPacks.DjangoFieldNames`).
- A requested migration pack that is assessed and does not apply ends in a terminal report whose reason is "Unknown error",
  although no error was recorded (`GraphReasons.UnfitIsTerminal`, `GraphReasons.TerminalReasonIff`); every other terminal report
  has a recorded error for its reason. Every installed migration pack can be requested so (`GraphReasons.UnexplainedIff`).
- Files are written read-only, so for an unprivileged process two members with the same destination make extraction
  fail (`Archive.PlacedIffNoClash`).

## Model

| member | source | states |
|---|---|---|
| Jobs.EnqueuedWaitsItsTurn | src/upgradepilot/queue/jobs.py:67-78 | A job enqueued waits for exactly the jobs its user had queued: after that many services of the user it is the head of the list. An active user keeps its score, an idle one enters at 0, and no other user's list or score changes. |
| Jobs.Turn | src/upgradepilot/queue/jobs.py:87-93 | The user served is active, has a queued job, and ranks before every other active user with a queued job, by score and then by id. |
| Jobs.TurnIsFirstBacklogged | src/upgradepilot/queue/jobs.py:87-97 | Walking the ranking and stopping at the first non-empty list finds that user, and the users walked past are exactly those ranked before it. |
| Jobs.JobQueue.ClaimNextJob | src/upgradepilot/queue/jobs.py:81-114 | One call serves that user, drops the drained users ranked before it, counts the attempt, and returns None (emptying the active set) exactly when no active user has a job. |
| Jobs.ServedInOrder | src/upgradepilot/queue/jobs.py:93-112 | First in, first out: serving a user again and again takes its list from the head and in order, and leaves every other user's list and score alone. |
| Jobs.ClaimThenComplete | src/upgradepilot/queue/jobs.py:117-120 | A claim and a completion together take the job off the head of its list and change no other list and no other hash; the hash says completed, with one more attempt. |
| Jobs.RetryUndoesClaim | src/upgradepilot/queue/jobs.py:123-142 | A retry undoes a claim: failing with an attempt left restores every list, the job at its head, and only its hash tells; without one the job is off its list and failed. |
| Jobs.ErrorCodeStays | src/upgradepilot/queue/jobs.py:99-142 | The error code of an earlier attempt stays on record when the job is claimed again and completed. |
| Jobs.SettlingCommutes | src/upgradepilot/queue/jobs.py:117-142 | Settling different jobs commutes: whichever of a completion and a failure comes first, the store ends the same. |
| Jobs.SyncedIsKept | src/upgradepilot/queue/jobs.py:67-142 | No stranded job: every call keeps the active set equal to the set of users with a queued job. |
| Jobs.ClaimServesTheMinimum | src/upgradepilot/queue/jobs.py:81-114 | In such a state a claim returns None exactly when nothing is queued anywhere, and otherwise pops the head of the list of the minimum of (score, user). |
| Fairness.ReachableIsSynced | src/upgradepilot/queue/jobs.py:67-142 | Every state of every run of calls has the active set equal to the users with queued jobs. |
| Fairness.WaitStep | src/upgradepilot/queue/jobs.py:87-112 | A user that is not served keeps its score; each service of others strictly lowers its wait, and only an activation of an idle user raises it, by exactly that activation's cost. |
| Fairness.BoundedWaiting | src/upgradepilot/queue/jobs.py:67-142 | In every run, the services that pass a waiting user by plus the wait still ahead never exceed its initial wait plus the cost of the activations. |
| Fairness.DelayIsBounded | src/upgradepilot/queue/jobs.py:76-76 | The activations of a run cost a waiting user at most its score plus one each. |
| Fairness.ServedWithin | src/upgradepilot/queue/jobs.py:81-114 | Hence an active user is served before more than initial wait + (score + 1) x activations services have gone by. |
| Fairness.ScoreStep | src/upgradepilot/queue/jobs.py:104-112 | While a user stays active its score rises by one exactly when it is served. |
| Fairness.RoundRobin | src/upgradepilot/queue/jobs.py:4-8 | For two users that stay backlogged, whatever the others do, scores count services and their gap never exceeds the larger of the initial gap and one. |
| Fairness.EqualShares | src/upgradepilot/queue/jobs.py:4-8 | From equal scores two backlogged users are served equally often, give or take one, at every point of every run. |
| Fairness.StarvationIff | src/upgradepilot/queue/jobs.py:4-8 | The documented promise that no user starves others, exactly: in any reachable state, whoever else is waiting, a user that only enqueues can keep another from being served for ever if and only if what it has queued can be worked off before the other's turn (by score, then id). |
| Fairness.IdleStarvationIff | src/upgradepilot/queue/jobs.py:76-76 | For a user that has nothing queued the condition is that the waiting user has been served before, or that its own id sorts first. |
| QueueProtocol.SubmitKeepsInvariant | src/upgradepilot/queue/jobs.py:67-78 | Enqueueing a fresh job keeps the invariant of the interleaved queue (places, hands, hashes, list shape). |
| QueueProtocol.ClaimKeepsInvariant | src/upgradepilot/queue/jobs.py:93-93 | The pop of a claim keeps the invariant whatever the other workers are doing. |
| QueueProtocol.ReleaseKeepsInvariant | src/upgradepilot/queue/jobs.py:117-142 | The commands that settle a job or put it back keep the invariant. |
| QueueProtocol.WorkKeepsInvariant | src/upgradepilot/queue/jobs.py:81-142 | Every single command of every worker keeps the invariant. |
| QueueGuarantees.InvariantAlways | src/upgradepilot/queue/jobs.py:67-142 | The invariant holds in every state of every interleaving of any number of workers. |
| QueueGuarantees.ExactlyOnePlace | src/upgradepilot/queue/jobs.py:67-142 | Conservation: under every interleaving an enqueued job is in exactly one place: one slot of its owner's list, one worker's hand, completed, or failed; a job never enqueued is in no list and no hand. |
| QueueGuarantees.FirstClaimsInOrder | src/upgradepilot/queue/jobs.py:73-139 | Every list is some retries (claimed once) followed by exactly the user's submissions not yet claimed, in order; so first claims happen in enqueue order whatever retries occur. |
| QueueGuarantees.AttemptsCountClaims | src/upgradepilot/queue/jobs.py:99-142 | The stored attempts equal the number of claims (one behind while a claim is being recorded), no job is claimed more than twice, and a failed job was claimed twice. |
| QueueGuarantees.SettledIsFinal | src/upgradepilot/queue/jobs.py:117-142 | Completed and failed are absorbing: no later step touches the hash or claims the job again. |
| QueueGuarantees.CoverageLostIff | src/upgradepilot/queue/jobs.py:93-107 | Between commands a step hides a queued job from all claims if and only if it removes a user whose list was refilled after it was seen empty. |
| QueueGuarantees.UninterruptedClaim | src/upgradepilot/queue/jobs.py:81-114 | A claim nobody interrupts does, command by command, what the per-call specification says. |
| QueueGuarantees.UninterruptedSettling | src/upgradepilot/queue/jobs.py:117-142 | Settling a job that nobody interrupts does, command by command, what the per-call specification of completing or failing says. |
| QueueGuarantees.SubmitIsEnqueue | src/upgradepilot/queue/jobs.py:67-78 | An enqueue, one pipeline, does what the per-call specification says and moves no worker. |
| QueueGuarantees.StrandedJob | src/upgradepilot/queue/jobs.py:104-107 | A reachable interleaving of `llen`, an enqueue and `zrem` after which a job is queued, every worker is idle and claims find nobody. |
| QueueDrain.TwoClaimsEach | src/upgradepilot/queue/jobs.py:99-139 | In every interleaving all workers together claim at most twice per submission. |
| QueueDrain.AtRestIff | src/upgradepilot/queue/jobs.py:81-142 | In every interleaving, no worker holds a job and a claim would find nobody if and only if every submitted job is completed, failed, or in the list of a user that dropped out of the active set. |
| QueueDrain.DrainedIff | src/upgradepilot/queue/jobs.py:104-107 | If no step has removed a user whose list had been refilled, the workers have nothing to do and find nobody if and only if every submitted job is completed or failed. |
| QueueGuarantees.ComesBackIff | src/upgradepilot/queue/jobs.py:76-138 | A step brings a user no claim can see back into the active set exactly when it is that user's enqueue, the retry of one of its jobs, or the score update of a worker that counted jobs left after its own pop. |
| Worker.ProcessOne | src/upgradepilot/worker.py:101-165 | One poll claims and settles at most one job, and says whether it found one. |
| Worker.PollMeans | src/upgradepilot/worker.py:101-165 | What a poll means for its job: completed and gone after a success; after an exception back in its place with the error noted if it was the first of two attempts, and failed if it was the last. |
| Worker.RunWorker | src/upgradepilot/worker.py:168-183 | The loop reaches the state of that many polls, counts the jobs handled, and stops early only on reaching the job limit. |
| Worker.EnqueueAtRest | src/upgradepilot/queue/jobs.py:67-78 | A fresh job enqueued while nothing runs adds exactly two claims to the budget. |
| Worker.ProcessedAtRest | src/upgradepilot/worker.py:101-165 | A poll that finds a job uses up at least one claim of the budget; a poll that finds none means nothing is queued. |
| Worker.WorkDrains | src/upgradepilot/worker.py:168-183 | Without further enqueues the worker handles at most two jobs per known job, and after that many polls nothing is queued and every job is completed or failed. |
| RateLimit.RateLimiter.Consume | src/upgradepilot/queue/rate_limit.py:45-77 | A call is the atomic call on what its deciding attempt found; only an attempt that would allow can be beaten, and after three beaten attempts it denies and writes nothing. |
| RateLimit.RefillComposes | src/upgradepilot/queue/rate_limit.py:51-55 | Refilling to one moment and then to a later one is refilling to the later one. |
| RateLimit.DenialIsTransparent | src/upgradepilot/queue/rate_limit.py:57-65 | A denied call changes no level that any later call can see; an allowed one lowers it by one token. |
| RateLimit.NeverOverdrawn | src/upgradepilot/queue/rate_limit.py:51-72 | No run of calls overdraws the bucket, and the stored time is that of the last call. |
| RateLimit.WindowBound | src/upgradepilot/queue/rate_limit.py:22-72 | In every run and every interval at most max_tokens + refill_rate x length calls are allowed. |
| RateLimit.SameLevels | src/upgradepilot/queue/rate_limit.py:57-65 | The stored bucket always shows the level of a reference bucket that is written only on allowed calls. |
| RateLimit.DenialsLeaveNoTrace | src/upgradepilot/queue/rate_limit.py:57-65 | Hence the limiter decides every run exactly as that reference does. |
| RateLimit.BurstIsServed | src/upgradepilot/queue/rate_limit.py:51-55 | A missing or expired key serves a burst of up to max_tokens calls. |
| RateLimit.ExpiryUnobservableIff | src/upgradepilot/queue/rate_limit.py:62-71 | No run can tell that keys expire if and only if an empty bucket refills completely within the time to live. |
| RateLimit.DefaultsHideExpiry | src/upgradepilot/queue/rate_limit.py:22-26 | The default limits meet that condition. |
| RateLimit.DefaultsAllow | src/upgradepilot/queue/rate_limit.py:22-24 | The default limits hold ten tokens and refill one every six seconds. |
| RateLimit.TwentyAMinute | src/upgradepilot/queue/rate_limit.py:22-24 | So a user is let through at most twenty times in any minute. |
| SharedRateLimit.CommitIsAtomic | src/upgradepilot/queue/rate_limit.py:45-77 | In every interleaving of workers a transaction that goes through equals one atomic call on the value stored at that moment, and granted times never decrease. |
| SharedRateLimit.LockedAlways | src/upgradepilot/queue/rate_limit.py:45-72 | While the key's version is the one watched, what a worker has read is what is stored. |
| SharedRateLimit.ThreeTries | src/upgradepilot/queue/rate_limit.py:52-77 | A refused transaction changes nothing; the call is tried again until it has been refused three times, and then given up. |
| SharedRateLimit.SharedWindowBound | src/upgradepilot/queue/rate_limit.py:45-77 | The grants of all workers together are a run of the atomic limiter and obey the window bound, in every interleaving where, when a denied call writes, nothing was written between its WATCH and its last read and nothing was granted since its WATCH. |
| SharedRateLimit.CalmIsBothHalves | src/upgradepilot/queue/rate_limit.py:47-65 | That hypothesis is the conjunction of two: no denied call writes over a grant it has not seen, and none has read across a write. |
| SharedRateLimit.CallAlone | src/upgradepilot/queue/rate_limit.py:45-72 | A call nobody interrupts is the atomic call. |
| SharedRateLimit.OverspendIff | src/upgradepilot/queue/rate_limit.py:40-41 | The documented promise that workers do not double-spend, exactly: some interleaving grants more in some interval than the window bound allows if and only if the bucket holds a token and refills. |
| SharedRateLimit.DefaultsCanOverspend | src/upgradepilot/queue/rate_limit.py:22-26 | So it fails for the default limits. |
| SharedRateLimit.StaleDenialOverspends | src/upgradepilot/queue/rate_limit.py:57-65 | For all such limits: a denied call that writes over a grant it has not seen lets max_tokens + 2 calls through within the time of one token, although no read is torn. |
| SharedRateLimit.TornReadOverspends | src/upgradepilot/queue/rate_limit.py:47-65 | For all such limits the bound also fails when no denied call writes over an unseen grant, but one takes its time before and its tokens after another call's write. |
| SharedOverspend.OverspendBound | src/upgradepilot/queue/rate_limit.py:45-77 | In every interleaving and every interval the workers together are granted at most what the window bound allows, plus one bucketful for every write of a denied call that read across a write or writes over a grant it has not seen. |
| SharedOverspend.OverspendReached | src/upgradepilot/queue/rate_limit.py:57-65 | That bound is reached: for all limits with a token and a refill and every number of such writes, some interleaving with so many of them grants exactly that much. |
| Evidence.ValidatePlanEvidence | src/upgradepilot/validators/evidence.py:70-174 | The issue list is the one the checks describe, part by part and in order; an unknown migration pack ends it early. |
| Evidence.ValidateRisk | src/upgradepilot/validators/evidence.py:313-361 | The V-RISK issues: missing assessment, component sum above the total, total above the maximum, wrong version, unknown supporting finding. |
| Evidence.ValidateClaimRefs | src/upgradepilot/validators/evidence.py:364-427 | The reference issues of a claim, one per missing list and per unknown id. |
| Evidence.ValidatePlanFileWorklist | src/upgradepilot/validators/evidence.py:177-192 | One issue per worklist path that is unknown, if any file is known. |
| Evidence.ValidateClaims | src/upgradepilot/validators/evidence.py:138-174 | All claims are checked in order for references, language and coverage. |
| Evidence.UngroundedFindings | src/upgradepilot/validators/evidence.py:492-517 | One repairable issue per cited finding whose symbol and rule the text mentions neither of. |
| Evidence.UnrelatedDocs | src/upgradepilot/validators/evidence.py:518-537 | One repairable issue per cited document related to none of the cited rules. |
| Evidence.ValidateFinding | src/upgradepilot/validators/evidence.py:195-264 | The issues of one finding: wrong migration pack or version, unknown rule, bad line range, missing or long snippet, snippet that does not fit its range, symbol not in the snippet. |
| Evidence.ValidateDocumentation | src/upgradepilot/validators/evidence.py:267-310 | The issues of one document: unknown source, URL other than the canonical one or of a domain not allowed, missing or long excerpt. |
| Evidence.FindingIssuesIff | src/upgradepilot/validators/evidence.py:195-264 | A finding raises no issue exactly when it is of the migration pack, its version and one of its rules, and its snippet is not blank, contains the symbol and has as many lines as its range says, at most eight; no such issue can be repaired. |
| Evidence.DocIssuesIff | src/upgradepilot/validators/evidence.py:267-310 | A document raises no issue exactly when it is from the canonical page of a trusted source in an allowed domain, with an excerpt of at most twenty lines that is not blank; no such issue can be repaired. |
| Evidence.CoverageIff | src/upgradepilot/validators/evidence.py:492-537 | A claim raises no coverage issue exactly when it names, by symbol or rule, every cited finding that has both, and every cited document lists no rules, or the rule of a cited finding, or no cited finding is known. |
| Evidence.LastWins | src/upgradepilot/validators/evidence.py:102-111 | Of records with the same id the checks see the last one. |
| Evidence.FirstAppearancesKeepOrder | src/upgradepilot/validators/evidence.py:102-137 | Records are checked in the order in which their ids first appear, each id once. |
| Evidence.RefIssuesIff | src/upgradepilot/validators/evidence.py:364-427 | A claim raises no reference issue exactly when it cites at least one finding and one document and nothing unknown. |
| Evidence.RiskIssuesIff | src/upgradepilot/validators/evidence.py:313-361 | An assessment raises no issue exactly when it exists, is not clipped, respects the maximum, has the right version and is supported by known findings only. |
| Evidence.WorklistIff | src/upgradepilot/validators/evidence.py:177-192 | The worklist raises no issue exactly when, if any file is known, it lists only known ones. |
| Evidence.LanguageStructural | src/upgradepilot/validators/evidence.py:430-489 | The language checks fail a claim structurally exactly when it claims execution, hours, or an unsupported version. |
| Evidence.NotStructuralIff | src/upgradepilot/validators/evidence.py:70-174 | The plan is passed or sent to repair, rather than failed, exactly when its migration pack is known, its findings, documents, worklist and risk are in order, and every claim is grounded and says nothing forbidden. |
| Evidence.PassIff | src/upgradepilot/validators/evidence.py:70-174 | The plan passes exactly when its schema holds, its migration pack is known, its findings, documents, worklist and risk are in order, and every claim is grounded, says nothing forbidden or overstated, names its findings and cites related documents. |
| Evidence.ReportedIff | src/upgradepilot/validators/evidence.py:70-537 | The validator reports exactly the issues there is cause for: for each validator id the condition under which it appears, whether a repair may answer it, and which claim and which evidence it names. |
| Evidence.IssuesInOrder | src/upgradepilot/validators/evidence.py:75-174 | The issues come in the order of the checks: schema, worklist, findings, documents, risk, claims. |
| Evidence.OutcomeStructural | src/upgradepilot/graph/nodes/evidence.py:130-139 | The outcome is a structural failure exactly when some issue is not repairable, and a pass exactly when there is no issue. |
| Repair.ApplyRepairInstructions | src/upgradepilot/graph/nodes/agents.py:124-159 | The repaired plan and one warning per unusable instruction, as the specification folds them. |
| Repair.RepairOnlyDrops | src/upgradepilot/graph/nodes/agents.py:124-159 | Any instructions keep the claims, their order, ids and repository evidence; each citation list is the original less exactly what the instructions for that claim drop; of claims sharing an id only the last is touched. |
| Repair.RepairedText | src/upgradepilot/graph/nodes/agents.py:133-156 | A claim says what the last instruction for its id says; a claim without one, and all but the last of claims that share an id, say what they said before. |
| Repair.WarnedIff | src/upgradepilot/graph/nodes/agents.py:134-143 | An instruction draws one warning exactly when it fails its schema or names no claim of the plan. |
| Repair.RepairKeepsGroundingIff | src/upgradepilot/graph/nodes/agents.py:124-159 | On a plan with sound references any instructions keep them sound exactly when they leave every touched claim one cited finding and one cited document. |
| Repair.ValidateRepairs | src/upgradepilot/agents/evidence_critic.py:239-253 | The check accepts exactly the repairs that name failed claims and keep only what those cite, and reports the first fault. |
| Repair.FaultIff | src/upgradepilot/agents/evidence_critic.py:239-253 | What each answer of the check means: a repair is in order exactly when it keeps only what the last failed claim with its id cites; an unknown claim is noticed first, then the findings, then the documents. |
| Repair.FailedClaims | src/upgradepilot/agents/evidence_critic.py:142-149 | The failed claims are exactly the plan's claims that a repairable issue names. |
| Repair.NamedIff | src/upgradepilot/agents/evidence_critic.py:142-149 | Which claims the validation hands to the critic: exactly those with an id, under a known migration pack, of which one overstates, recommends without both kinds of citation, leaves a cited finding unnamed or cites an unrelated document. |
| Repair.FailedInOrder | src/upgradepilot/agents/evidence_critic.py:142-149 | They are handed over in the order of the plan, each as often as it is there. |
| Repair.ValidRepairsKeepGrounding | src/upgradepilot/agents/evidence_critic.py:239-253 | Repairs that pass the critic's check and aim at no claim twice keep all references sound. |
| Repair.RepairedTwiceLosesGrounding | src/upgradepilot/graph/nodes/agents.py:140-156 | Two valid repairs of one claim can together drop every finding it cites. |
| Repair.DefaultOutput | src/upgradepilot/agents/evidence_critic.py:205-236 | With distinct claim ids there is exactly one repair for each failed claim whose first finding and first document are known, and none for any other; it keeps what the claim cites and names rule, file and document. |
| Repair.DefaultProposes | src/upgradepilot/agents/evidence_critic.py:205-236 | In particular so for the failed claims of any plan with distinct claim ids, whatever the issues. |
| Repair.DefaultOutputIsLossless | src/upgradepilot/agents/evidence_critic.py:205-236 | With distinct claim ids the default proposal passes the critic's own check and drops no citation. |
| Risk.GroupByRule | src/upgradepilot/migration/risk.py:38-40 | Grouping gives, per rule id, its findings in order. |
| Risk.ScoreRule | src/upgradepilot/migration/risk.py:42-64 | The points and supporting findings of one rule. |
| Risk.CountedPoints | src/upgradepilot/migration/risk.py:46-53 | A rule with rule ids gives its points per match, up to its cap, and only if it is of the counting kind; a finding matches as often as its rule is listed. |
| Risk.BooleanPoints | src/upgradepilot/migration/risk.py:92-99 | A boolean rule reads the signal its source names and no other: `no_test_files` the number of test files, `no_ci_detected` the CI systems; any other source gives nothing. |
| Risk.ComponentsAre | src/upgradepilot/migration/risk.py:66-76 | The components are those of the rules that give points, one each and in order, with the rule's id and description, its points, and the ids of exactly the findings of its rule ids. |
| Risk.FirstStep | src/upgradepilot/migration/risk.py:54-60 | The first threshold the count exceeds gives the points. |
| Risk.Reached | src/upgradepilot/migration/risk.py:79-82 | The level reached has the most points of all levels whose threshold the total meets. |
| Risk.SelectLevel | src/upgradepilot/migration/risk.py:79-82 | The level walk finds that level, LOW when none is reached; the score carries its name in lower case. |
| Risk.ScoredLevel | src/upgradepilot/migration/risk.py:78-88 | The score carries, in lower case, the level of the highest threshold its total reaches, and `low` if it reaches none. |
| Risk.ScoreRisk | src/upgradepilot/migration/risk.py:29-89 | Total, level, components and version are those of the specification. |
| Risk.ScoreAcceptedIff | src/upgradepilot/migration/risk.py:42-89 | Scorer against checker: the validator accepts the scorer's own output if and only if the uncapped component sum is at most the maximum. |
| Risk.AcceptedScoreIsUnclipped | src/upgradepilot/validators/evidence.py:313-361 | An accepted score equals the uncapped sum. |
| Risk.MoreFindingsMoreRisk | src/upgradepilot/migration/risk.py:38-89 | Adding findings, in any order, lowers neither the total nor the level reached, and the total stays between 0 and the maximum, if with one file more the rules that go by the number of files never give less, up to the maximum. |
| Risk.OrderDoesNotMatter | src/upgradepilot/migration/risk.py:38-89 | Permuting the findings changes neither total nor level, for any rules. |
| RiskPacks.CanScoreIff | src/upgradepilot/migration/risk.py:42-64 | A rule can give points on some repository if and only if it is written to: a counting rule with rule ids and positive `per_occurrence` (and positive `cap`, if any), a reachable positive step of a file-count rule, or a boolean rule without rule ids on one of the two known sources with positive `when_true_points`. |
| RiskPacks.AlwaysZeroIff | src/upgradepilot/migration/risk.py:29-89 | A risk model scores every repository 0 if and only if none of its rules is written to score. |
| RiskPacks.CanClipIff | src/upgradepilot/migration/risk.py:78-89 | For any rules, some repository makes the validator reject the scorer's own assessment if and only if a counting rule has no cap or, for some number of affected files, the ceilings of the rules add up to more than the maximum; and then already one of a repository whose findings have ids of their own and rule ids of the model. |
| RiskPacks.MoreFindingsMoreRiskIff | src/upgradepilot/migration/risk.py:52-60 | For any rules, more findings never lower the score of any repository if and only if, with one file more, the rules that go by the number of files never give less, up to the maximum; no other kind of rule can make the score fall. |
| RiskPacks.PydanticNeverFalls | migration_packs/pydantic_v1_to_v2/risk_rules.yaml:94-106 | The shipped pydantic rules meet that condition. |
| RiskPacks.PydanticPackCanClip | migration_packs/pydantic_v1_to_v2/risk_rules.yaml:12-142 | The shipped rules give at most 103 points against a maximum of 100, and a repository without test files or CI, whose findings have ids of their own and only rule ids of the file, gets all 103: its total is 100 and the validator rejects it. |
| RiskPacks.SignalAlone | src/upgradepilot/migration/risk.py:92-99 | With one boolean rule alone the total is its points, up to the maximum, exactly when the signal it names is missing, whatever the other signal. |
| RiskPacks.PydanticSignals | migration_packs/pydantic_v1_to_v2/risk_rules.yaml:108-124 | Without findings a repository scores 8 for having no tests and 5 for having no CI. |
| RiskPacks.DjangoPackAlwaysLow | migration_packs/django_v3_to_v4/risk_rules.yaml:15-80 | Read with the file's own field names and numbers, every repository scores 0 and low, whatever is found in it. |
| RiskPacks.DjangoFieldNames | migration_packs/django_v3_to_v4/risk_rules.yaml:15-80 | With other field names exactly the two counting rules can score, exactly when they name positive points `per_occurrence` (and any cap is positive); the four boolean rules cannot under any names. |
| GraphState.ReadApply | src/upgradepilot/graph/state.py:114-162 | Merging an update appends to the six accumulating fields and overwrites every other field it mentions; all others stay. |
| Nodes.CanProduce | src/upgradepilot/graph/nodes/analysis.py:85-325 | Whatever the state, every node's contract can be met. |
| Nodes.AggregateWarns | src/upgradepilot/graph/nodes/analysis.py:310-325 | The fan-in warns exactly when the branches have brought no finding, no dependency and no document. |
| Graph.RoutesStayInside | src/upgradepilot/graph/routing.py:18-111 | No router names a destination its wiring does not list, and exactly the report nodes end the run. |
| Graph.RoutesAre | src/upgradepilot/graph/routing.py:18-111 | Decision by decision: the fan-out is taken exactly for a pack that may apply, the critic exactly for a repairable plan not yet repaired, a stopped run goes to the terminal report, and every other run to the next node. |
| Graph.BuildGraph | src/upgradepilot/graph/build.py:63-165 | The built graph has the eighteen nodes, the entry point, and exactly the edges of the table the run theorems use. |
| Graph.GraphIsWhole | src/upgradepilot/graph/build.py:63-165 | Each of the eighteen nodes is added once and is given its edge once. |
| GraphSteps.FrontKeeps | src/upgradepilot/graph/nodes/validation.py:25-48 | The first three nodes keep the run invariant: they go on running or stop with an error. |
| GraphSteps.SelectKeeps | src/upgradepilot/graph/nodes/profiling.py:191-367 | Selection keeps it: beyond it the selected migration pack is installed and applicable. |
| GraphSteps.RiskKeeps | src/upgradepilot/graph/nodes/risk.py:39-66 | The scorer keeps it: the assessment, if any, is the score of the state's findings under the selected migration pack. |
| GraphSteps.ValidatorKeeps | src/upgradepilot/graph/nodes/evidence.py:119-145 | The validator keeps it: recorded issues and outcome are those of the current plan, and the next stage follows from them. |
| GraphSteps.CriticKeeps | src/upgradepilot/graph/nodes/agents.py:78-102 | The critic keeps it: instructions are absent or pass the critic's check against the claims that failed. |
| GraphSteps.RepairKeeps | src/upgradepilot/graph/nodes/agents.py:109-121 | The repair keeps it: the plan is the validated one with those instructions applied, and the count rises by one. |
| GraphSteps.ReportKeeps | src/upgradepilot/graph/nodes/report.py:58-157 | The report nodes keep it: the report is made of the state it leaves behind. |
| GraphInvariant.InvariantAlways | src/upgradepilot/graph/build.py:106-160 | In every run the state fits the stage the frontier shows, and every super-step is one of the listed moves. |
| GraphInvariant.BranchesMeet | src/upgradepilot/graph/build.py:128-131 | Branches that finish in one super-step start their common successor once. |
| GraphInvariant.LogIsTheRun | src/upgradepilot/graph/state.py:135-135 | The execution log of the state has one record per executed node, in order. |
| GraphInvariant.BudgetKept | src/upgradepilot/graph/build.py:106-160 | Nodes executed plus the longest way still ahead never exceed seventeen. |
| GraphInvariant.CountsAlways | src/upgradepilot/graph/routing.py:85-103 | At every point of every run, how often each node has run. |
| GraphGuarantees.RunsAreShort | src/upgradepilot/graph/build.py:106-160 | A run executes at most seventeen nodes in at most fifteen super-steps. |
| GraphGuarantees.RunsNeverStick | src/upgradepilot/graph/routing.py:18-111 | A run that is not over always has a next super-step. |
| GraphGuarantees.EveryRunCanFinish | src/upgradepilot/graph/build.py:157-160 | Every reachable run continues, with its updates and its state, to one that ends in a report. |
| GraphGuarantees.NodesRunOnce | src/upgradepilot/graph/routing.py:85-111 | In every run the validator runs at most twice and every other node, so critic and repair, at most once. |
| GraphGuarantees.OneReportLast | src/upgradepilot/graph/build.py:157-160 | A finished run has executed exactly one report node, as its last; before the end none has run. |
| GraphGuarantees.NoTerminalAfterFan | src/upgradepilot/graph/routing.py:39-64 | Once a branch of the fan-out has run, the terminal report is out of reach. |
| GraphGuarantees.ReportOfRun | src/upgradepilot/graph/nodes/report.py:58-157 | A finished run carries the report of its last node, made of its final state and of the log up to that node, with the status that belongs to it. |
| GraphGuarantees.FinalReportSays | src/upgradepilot/graph/nodes/report.py:58-157 | Every finished run, by its report status: which node made the report, the status that goes with it, and each field of the report as that field of the final state; the limitations of a partial report are the error messages that are not empty, in order, and then the number of issues, if any. |
| GraphGuarantees.TerminalReason | src/upgradepilot/graph/nodes/report.py:137-157 | A terminal report gives the first error recorded; when there is none it says "Unknown error", and then the requested migration pack is installed and was assessed as not applicable. |
| GraphReasons.TerminalReasonIff | src/upgradepilot/graph/nodes/report.py:125-157 | A terminal report carries no error, and says "Unknown error", exactly when a requested migration pack was assessed and does not apply; in every other case it carries errors and its reason is the first. |
| GraphReasons.UnfitIsTerminal | src/upgradepilot/graph/routing.py:39-64 | Every finished run whose requested migration pack was assessed and does not apply has ended in a terminal report. |
| GraphReasons.UnfitRequestEnds | src/upgradepilot/graph/nodes/profiling.py:278-293 | For every installed migration pack some run that requests it ends so, within the contracts of the nodes. |
| GraphReasons.UnexplainedIff | src/upgradepilot/graph/routing.py:39-64 | Some run that requests a migration pack ends with "Unknown error" and no error at all if and only if that migration pack is installed. |
| GraphGuarantees.PartialCause | src/upgradepilot/graph/routing.py:85-103 | A run is partial only after a structural failure or one unsuccessful repair, and its issues are those of its plan. |
| GraphGrounding.ValidatedReportIsSound | src/upgradepilot/graph/nodes/report.py:58-83 | The plan in a validated report is the plan on which the recorded validation found nothing: validating the report's own contents raises no issue, and its risk is the score of its own findings. |
| GraphGrounding.ValidatedReportIsGrounded | src/upgradepilot/validators/evidence.py:364-427 | Every claim of a validated report cites at least one finding and one document, all present in that report, and says nothing forbidden; its risk is supported by its findings. |
| GraphGrounding.ValidatedClaimsAreTraceable | src/upgradepilot/validators/evidence.py:195-310 | What a claim of a validated report cites leads back: every finding cited is of the run's migration pack with a snippet that fits its line range, and every document cited is an excerpt from a canonical page of that pack. |
| GraphGrounding.ValidatedScoreIsUnclipped | src/upgradepilot/migration/risk.py:42-89 | A validated report never carries a clipped score. |
| GraphGrounding.SecondValidation | src/upgradepilot/graph/routing.py:95-103 | When the critic aims at no claim twice, the plan of the second validation is grounded, and it fails structurally exactly when a replacement text says something forbidden. |
| GraphGrounding.RepairWarns | src/upgradepilot/graph/nodes/agents.py:133-156 | The repair step warns exactly when it could not use some instruction. |
| GraphCompleteness.EveryPassingPlanIsReported | src/upgradepilot/graph/build.py:106-160 | Whatever an analysis collects and plans, if the validator passes the plan against it, some run without any repair ends with a validated report of exactly that profile, findings, documents, dependencies, repository signals and plan. |
| GraphCompleteness.ReportedIffPassing | src/upgradepilot/graph/routing.py:85-103 | Soundness and completeness together: some run ends with a validated report of this material under this migration pack if and only if the migration pack is installed, documents come with findings, and the validator passes the plan against it. |
| GraphCompleteness.EveryRepairIsMade | src/upgradepilot/graph/routing.py:95-111 | If the plan is repairable, then for any instructions that pass the critic's check some run comes to its second validation, with the issues of the first still recorded and exactly the plan the instructions leave. |
| GraphCompleteness.EveryGoodRepairIsReported | src/upgradepilot/graph/nodes/agents.py:109-121 | And if that plan passes, that very run continues to a validated report of it, repaired once and by these instructions. |
| GraphCompleteness.RepairedReportIff | src/upgradepilot/graph/routing.py:85-111 | Exactly the good repairs are reported: some run repaired by given instructions ends with a validated report of this material if and only if its plan passes and is what they make of a repairable plan, of whose issues they passed the critic's check. |
| GraphWitnesses.SomeRunIsRepaired | src/upgradepilot/graph/routing.py:95-111 | A concrete instance: a finding, a document, a claim that cites both but overstates, and one repair that passes the critic's check; the run comes to its second validation and continues to a validated report of the repaired plan. |
| Replica.BranchesShareLogs | src/upgradepilot/graph/build.py:114-131 | Branches that run side by side write no common field but executions, errors and warnings. |
| Replica.OneWriter | src/upgradepilot/api/analyses.py:564-578 | A field with a single writer ends with the same value in every order of the updates. |
| Replica.ContributionsPermute | src/upgradepilot/graph/state.py:135-137 | What the updates add to a list field does not depend on their order. |
| Replica.InstructionsAgreeIff | src/upgradepilot/api/analyses.py:55-63 | Repair instructions, appended by the API and overwritten by the graph, agree after an update exactly when there were none before it. |
| Replica.CopyAgrees | src/upgradepilot/api/analyses.py:169-180 | In every run and every order of the stream the API's copy has the graph's value of every field, and the same executions, errors and warnings as multisets; the status agrees from the first node on. |
| AnalysisStore.MergeState | src/upgradepilot/api/analyses.py:564-578 | The merge loop gives the merged state in whatever order it visits the fields. |
| AnalysisStore.CreatedIsConsistent | src/upgradepilot/api/analyses.py:147-160 | A new record shows nothing, is not settled, holds the request, and its status and report status are those of its state. |
| AnalysisStore.AnalysisStore.UpdateRecord | src/upgradepilot/api/analyses.py:169-180 | Only that record changes: merged state, and status, report status and report read from it. |
| AnalysisStore.UpdatedIsConsistent | src/upgradepilot/api/analyses.py:169-180 | Every well-formed update keeps status, report status and report those of the state; a report it brings is shown, and none is lost. |
| AnalysisStore.EventsAreNumbered | src/upgradepilot/api/analyses.py:182-203 | An event comes after every earlier one, numbered one higher, with the report status of its moment; earlier events stay. |
| AnalysisStore.ClosingSettles | src/upgradepilot/api/analyses.py:450-457 | However a stream ends, the closed record is settled and consistent and keeps its report and events; it is failed after an exception, and otherwise has the final status that arrived; if none did, it is completed exactly when a report did, and failed without one. |
| AnalysisStore.EveryAnalysisSettles | src/upgradepilot/api/analyses.py:426-482 | Whatever the stream delivers, and whether it ends or breaks off, every analysis ends settled and consistent, with one event per update. |
| AnalysisStore.AnalysisStore.Follow | src/upgradepilot/api/analyses.py:431-448 | Following the stream merges every update and notes one event each, in order. |
| AnalysisStore.AnalysisStore.RunAnalysis | src/upgradepilot/api/analyses.py:426-482 | The record after a stream that ends, or breaks off with an exception. |
| AnalysisStore.FollowedToTheEnd | src/upgradepilot/api/analyses.py:449-457 | After the whole, unbroken stream of a finished run the record shows the graph's own final status and report, not failed, with one consecutively numbered event per executed node. |
| Archive.Parts | src/upgradepilot/tools/safe_archive.py:60-65 | Splitting a member name yields non-empty components without slashes and without `.`. |
| Archive.PathFaultIff | src/upgradepilot/tools/safe_archive.py:49-93 | A name is accepted exactly when it is relative and consists of at least one component, none of them `..`, a drive letter or with a NUL. |
| Archive.PartsOfJoined | src/upgradepilot/tools/safe_archive.py:60-65 | Whatever is written between the slashes of a name, its parts are all but the empty and the `.` ones; a name joined from components has exactly these as its parts. |
| Archive.AcceptedNameIff | src/upgradepilot/tools/safe_archive.py:49-93 | Said of the characters: a name is accepted exactly when it does not begin with a slash, something other than `.` is written in it, and nothing between its slashes is `..`, a letter with a colon, or contains a NUL. |
| Archive.PlainStaysInside | src/upgradepilot/tools/safe_archive.py:79-91 | Such a path resolves strictly below the workspace, so neither containment check can fire after the component checks. |
| Archive.ScreenedIff | src/upgradepilot/tools/safe_archive.py:226-262 | The first pass accepts exactly the archives that respect every limit, said without reference to the order of the checks. |
| Archive.FaultIsExplained | src/upgradepilot/tools/safe_archive.py:226-262 | A fault is reported for a member it describes (a link, a special file, a bad name, too deep, too large, or one more than the totals allow), and every member before that one is in order. |
| Archive.CountsAdd | src/upgradepilot/tools/safe_archive.py:247-262 | Bytes and files add up member by member, and only regular files count. |
| Archive.Workspace.Screen | src/upgradepilot/tools/safe_archive.py:226-262 | The first pass returns the first fault in the order of the checks, or the totals. |
| Archive.Workspace.Write | src/upgradepilot/tools/safe_archive.py:264-300 | The second pass writes the members in order and stops at the first that the file system refuses, with everything before it written; where each lands is LandsBelowTop and LandsAtTop. |
| Archive.Workspace.ExtractSafely | src/upgradepilot/tools/safe_archive.py:202-302 | A limit error is raised exactly when the archive breaks a limit, and then the workspace is untouched; on success what changed lies strictly inside and has grown by at most the returned bytes and files, which are within the limits. |
| Archive.Workspace.ExtractOrRemove | src/upgradepilot/tools/safe_archive.py:327-331 | Extraction succeeds exactly when the archive is acceptable and the file system takes it; otherwise the workspace is removed. |
| Archive.WritesStayInside | src/upgradepilot/tools/safe_archive.py:276-300 | Every path that is new or changed after the second pass consists of plain components below the workspace. |
| Archive.GrowthIsCounted | src/upgradepilot/tools/safe_archive.py:247-262 | Bytes and files in the workspace grow by at most the counts of the first pass, even when stripped members collide. |
| Archive.LastFileWins | src/upgradepilot/tools/safe_archive.py:289-300 | After extraction every path holds the content of the archive's last file for it, or what it held before. |
| Archive.LandsBelowTop | src/upgradepilot/tools/safe_archive.py:276-300 | Where a member lands: a file written `top/p` is stored at `p`, without the top directory of the archive, read-only, with a directory at every path above it and nothing else; a directory likewise. |
| Archive.LandsAtTop | src/upgradepilot/tools/safe_archive.py:276-300 | A file or directory whose name is one component is stored at that component. |
| Archive.PlacedIffNoClash | src/upgradepilot/tools/safe_archive.py:264-300 | Into any workspace, with or without privileges, writing succeeds exactly when no path is needed by one member for a file and by another for a directory or (without privileges) for a file, and none is blocked by what the workspace holds; every path then holds what the members make or put there, or what it held before. |
| Archive.EmptyBlocksNothing | src/upgradepilot/tools/safe_archive.py:264-300 | Into an empty workspace it succeeds exactly when no two members clash: the archive alone decides. |

## Left out

- HTTP endpoints, authentication, GitHub access, SQL persistence, embeddings, tracing, metrics, logging and the user interface: input and output around the core.
- Language-model calls, prompts and the content of agent answers: arbitrary values that may pass or fail the checks.
- Regular expressions, schema validation, `strip`, `splitlines` and `urlparse`: arbitrary functions in `Evidence.Checks`; redaction. A missing text field and an empty one are the same.
- Source scanners, the repository profiler, manifest parsers, applicability signals and the loading of migration packs: arbitrary results within the contracts of `Nodes`, unrelated to one another (the program takes test files and CI systems from the profile, for instance).
- Fixture mode of the nodes: it returns constants.
- Exceptions that escape a node: the stream breaks off and the record is closed as failed (`AnalysisStore.AnalysisStore.Close`); the graph run itself simply ends there.
- Worker crashes, Redis failover, a clock that runs backwards, and checkpoints reused across runs.
- Key expiry under concurrent use of the rate limiter: it is modelled for sequential calls only. Tokens are exact reals, without the rounding of floating point.
- `remaining_tokens` and `consume_or_reject`: read-only or one-line uses of the modelled call.
- The worker's endless loop is cut off after the polls its input describes; storing results between claim and settlement is left out.
- The defensive branches of `_merge_state` for values that are not lists, JSON encoding, and the redaction of exported reports.
- Timestamps, latencies, trace ids and run ids in records, and the identification block of reports.
- Error texts beyond which check failed; the wording of limitations (`Nodes.Limitations` keeps messages and the issue count).
- Symbolic links that exist in the workspace before extraction, directories without write permission, and archives whose data ends early: resolution of paths is lexical.
- Nodes.CanProduce: shows that the contracts can be met, not that the services behind the nodes succeed.
- SharedRateLimit.SharedWindowBound: holds where no denied call reads across a write or writes after an unseen grant, which the code does not enforce; what holds without that is SharedOverspend.OverspendBound.
- Scoring fields that are not whole numbers: `int()` converts or rejects them; the rule ids that the django file repeats inside its scoring blocks are never read.
