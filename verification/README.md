# FairySDK: a verified model

FairySDK is a survey engine for network paths. A policy looks at the recorded observations and
proposes experiments; a runner removes duplicates, caps them to a budget, executes them
concurrently and records the results; inference turns the record into findings; a comparison
tool diffs two sets of reports. This project models the logic around the network calls and
proves what the engine promises about it. The network itself is an oracle: what a probe answers
is unconstrained, so the theorems hold for all outcomes; only the resume theorems compare runs
against a network that answers the same experiment the same way.

## Layout

| files | part |
|---|---|
| `Model`, `Experiments`, `Selectors`, `Dedupe` | the shared vocabulary; usual values and canonical texts; the three ways the code picks "the" observation of a layer; deduplication |
| `Runs`, `RunBatch`, `Runner` | whole runs as values; the bounded concurrent batch; the loop over the mutable state |
| `Fast`, `FastExact`, `FastRuns`, `FastSequence`, `FastCausal`, `FastOrder`, `FastSix` | the Fast policy: its plan and exactly what is planned, resumability, the fixed sequence, causal order, bounds and completion |
| `Adaptive`, `AdaptiveExact`, `AdaptiveRuns`, `AdaptiveChoice`, `AdaptiveFamilies`, `AdaptiveResume`, `AdaptiveSplit`, `AdaptiveFindings`, `Variants` | the Adaptive policy: candidates and exactly which are chosen, termination, tie-breaking, selector agreement, resuming, effect on findings |
| `Factorial` | the Factorial policy's product and runs |
| `Infer`, `FindingsExact`, `InferFacts`, `Health` | inference as code, exactly when each finding is reported, what findings mean together, and what path_healthy does not say |
| `Witnesses` | whole runs that end where a property fails |
| `Addresses`, `FanOut`, `FanOutWinner` | address order, the fan-out protocol, which connection wins |
| `HttpSlices` | the HTTP probe's address loop and its time slices |
| `Canonical`, `Targets`, `TargetSlugs`, `Paths`, `ReportNames`, `Compare`, `CompareSets`, `CompareExact` | codecs, file names and the comparison |
| `Text`, `Sorting`, `Listing` | strings, stable sorting, listing a set by name |

## How it is modelled

- Loops and objects that the code updates step by step are methods and classes with loops and
  fields (`Runner.RunSurvey`, `Model.SurveyState`, `HttpSlices.AddrTracker`, `Fast.BuildPlan`,
  `Infer.InferFindings`, `Compare.DiffViews`, ...). Each is tied to a function or a relation, and
  the theorems are about those.
- Concurrency is a state machine. `RunBatch` and `FanOut` have one action for each step a
  goroutine can take, and the theorems range over every sequence of enabled actions. A worker's
  two deferred steps, giving back its slot and reporting to the wait group, are one action. A
  dial after cancellation may still succeed or fail: its outcome is unconstrained.
- Iteration over Go maps is a choice of any remaining key. Results that do not depend on it are
  proved to be unique.
- The experiment ID (SHA-256 cut to 12 digits) is a parameter `ident` that is never empty. The
  safety of the runner needs nothing more. Where a theorem needs IDs to separate experiments it
  assumes `NoCollision`: among the experiments at hand, equal IDs mean the same layer and family.
  `Canonical.DigestSeparates` derives that from a digest without collisions.
- A record is well-formed when each observation names its experiment's layer and carries its
  derived ID (`WellFormed`).
- An expiring context is a predicate `expired` on the rounds at whose start it is seen. The
  parent's context error is a parameter.
- Times are integers in nanoseconds.

## Where the code and its comments differ

The model follows the code.

- The comment on `connectAll` (probe/common.go:120-123) promises the first successful connection
  in resolver order. The code returns the first to arrive (probe/common.go:183-184).
  `FanOutWinner.WinnerIsResolverFirstIff` says exactly when the promise holds for every
  schedule. For TLS handshakes it always holds (`FanOutWinner.TLSVerdictIgnoresSchedule`).
- The Adaptive policy's port-80 follow-up counts as a default TCP observation
  (infer/infer.go:294-295), so for TCP "first wins" and "default wins" can differ:
  `Witnesses.TcpSelectorsSplit` is a run where they do, and `AdaptiveChoice.AdaptiveTcpAgreement`
  says exactly when.
- `path_healthy` is described as "all probed layers passed" (infer/infer.go:51-52). It is also
  reported when TCP on IPv4 failed and IPv6 worked, when HTTP timed out, and when a layer was
  skipped: `Health.RefusedFamilyIsHealthy` and `Health.TimeoutIsHealthy` are such runs.
  `Health.HealthyFastPassesIff` and `Health.HealthyChosenPassIff` say exactly when the
  description holds.
- Findings are said always to name supporting observations (infer/infer.go:1-5).
  `tcp_unreachable` names none when no TCP observation was made over IPv4 or IPv6:
  `InferFacts.EvidenceExactly`, and `Witnesses.UnreachableWithoutEvidence` for a run.
- A targets file may hold slugs with slashes, and then two targets can share their files:
  `ReportNames.SlashesCollide`; `ReportNames.JobsShareFileIff` says exactly when. A report of a
  slug that leads to another directory is not seen by a scan of the output directory:
  `ReportNames.ReportFoundIff`.
- Resuming is described as continuing a survey (fairy.go:87-89). For Fast an interrupted survey
  ends as an uninterrupted one does (`FastSequence.ResumeEquivalence`). For Adaptive it need not
  when a budget separates two follow-ups: `AdaptiveSplit.CutChainsDisagree` gives two such
  chains, and `AdaptiveResume.RoomyChainsAgree` an allowance under which chains agree.
- With one run per target a report's slug is not always readable from its file name, and a
  report can take a state file's name: `ReportNames.SingleNameDecodesIff`,
  `ReportNames.SingleReportOverwritesIff`.

## Model

| member | source | states |
|---|---|---|
| Model.NormalizeIdempotent | internal/model/experiment.go:61-95 | Filling in the defaults and the ID twice is filling them in once, and the ID is never empty afterwards. |
| Experiments.GivenIsKept | internal/model/experiment.go:61-95 | Normalizing keeps every field that is given, and the ID. |
| Experiments.OmittedIsUsual | internal/model/experiment.go:66-94 | Leaving family, transport, resolver and payload open and giving their usual values is one experiment with one ID. |
| Experiments.HostFromUrl | internal/model/experiment.go:63-65 | A target without a host is probed at its URL's host. |
| Experiments.ConstructorsMake | internal/model/experiment.go:97-141 | The experiment each constructor makes for a target with a host. |
| Experiments.DefaultVariants | infer/infer.go:283-301 | The default variants are those that agree with the ordinary experiment of their layer: in the resolver for DNS, else in the ALPN, which QUIC may also leave open, and always in the server name. |
| Model.SurveyState.AddObservation | internal/model/types.go:318-326 | An observation is refused exactly when its experiment ID is already recorded; a refusal leaves the record as it was, otherwise the observation is appended. |
| Model.SurveyState.Recorded | internal/model/types.go:305-316 | The scan finds exactly the recorded, nonempty IDs. |
| Dedupe.DedupeAndCap | internal/runner.go:156-177 | The deduplication loop with its `seen` map and its cap computes the surviving proposals `Fresh`. |
| Dedupe.FreshIsSound | internal/runner.go:159-177 | What survives is normalized, unrecorded, has pairwise distinct IDs and stays within the budget, for any proposals. |
| Dedupe.FreshLosesNothing | internal/runner.go:165-175 | Nothing is dropped without a reason: below the cap, the ID of every proposal is recorded, was seen, or survived. |
| Dedupe.FreshTwice | policy/policy.go:115-136 | The policy's deduplication followed by the runner's is the policy's alone. |
| Dedupe.FreshNonempty | policy/policy.go:118-136 | Whether anything survives does not depend on the cap: nothing does exactly when every proposal is recorded. |
| Dedupe.FreshKeeps | policy/policy.go:118-136 | Proposals that are normal, new and distinct are only capped, keeping their order. |
| Dedupe.FreshPrefix | policy/policy.go:118-136 | A smaller cap keeps a prefix of what a larger one keeps. |
| Runs.RoundsAreSafe | internal/runner.go:83-110 | For any policy and any probe answers one run keeps the old record as an unchanged prefix; new IDs are new and distinct; the new rounds have consecutive indices and their proposals concatenate to exactly the new experiments; budget and round limit hold. |
| Runs.ResumesAreSafe | fairy.go:87-106 | The same over any chain of runs and resumes; the count never exceeds the larger of the initial count and the largest allowance. |
| Runs.RoundsExhaust | internal/runner.go:83-110 | If everything a policy gets through deduplication lies in a finite universe, a run records at most its unrecorded part and never stops at the round limit. |
| Runs.RoundsProgress | internal/runner.go:83-100 | If an unfinished policy always has something new, a run ends only because the policy is done, the budget is spent, the context is over or the round limit is reached. |
| Runs.BudgetSpentExactly | internal/runner.go:78-110 | A run that stops for its budget has recorded exactly that many observations. |
| Runs.RoundLimitExactly | internal/runner.go:83 | A run that stops at the round limit has used all sixty-four rounds. |
| Runs.DefaultLimits | internal/runner.go:23-48 | With options unset a run takes a state of at most sixteen observations to at most sixteen, and to exactly that many when its budget stops it; the round limit never does. |
| Runs.SettleKeeps | internal/runner.go:143-154 | Recording changes an observation in nothing but its experiment, its layer and an empty status, which becomes unknown. |
| RunBatch.BatchInvariant | internal/runner.go:128-154 | In every interleaving at most `limit` experiments run at once, and exactly the finished ones have a result: their own. |
| RunBatch.BatchNeverStuck | internal/runner.go:128-141 | Until the batch is finished some step is possible. |
| RunBatch.BatchRefinesMap | internal/runner.go:126-154 | Every complete interleaving takes two steps an experiment and yields, at each index, what running that experiment on its own yields. |
| RunBatch.Execute | internal/runner.go:128-141 | The batch over its results array, with the scheduler's choices left open, ends and returns the sequential map. |
| Runner.RecordBatch | internal/runner.go:102-108 | Recording a deduplicated batch never fails and takes the state to the next round's state. |
| Runner.ConcurrencyLimit | internal/runner.go:42-47 | No more experiments run at once than the option says, four when it is unset, and while fewer do another can start. |
| Runner.RunSurvey | internal/runner.go:58-124 | The survey loop over the mutable state: nil state, missing target, default policy, filled options, propose errors and the parent's context error; the final state is the run's, the findings are those of its observations, and recording never fails. |
| Selectors.LatestScan | policy/policy.go:41-56 | The backward scan returns the latest match. |
| Selectors.LatestMeaning | policy/policy.go:41-56 | `Latest` is the match with the greatest index, and is missing exactly when nothing matches. |
| Selectors.PickScan | infer/infer.go:257-281 | The backward scan with its fallback returns the preferred observation. |
| Selectors.PickMeaning | infer/infer.go:257-281 | `Pick` is the latest default-variant match; it falls back to the latest match exactly when there is no default among the matches. |
| Selectors.FirstMeaning | cmd/fairy/compare.go:326-334 | `First` is the match with the least index. |
| Selectors.SelectorsAppend | infer/infer.go:263-281 | What recording one more observation does to the latest, the preferred and the first observation of a layer. |
| Selectors.FirstIsPick | infer/infer.go:257-301 | Where the default variant comes first in each layer and family, "first wins" and "default wins" choose the same observation. |
| Fast.ScanTcp | policy/fast.go:64-75 | The family loop computes the missing TCP experiments and the first passing family. |
| Fast.BuildPlan | policy/fast.go:41-103 | The appending construction computes the plan. |
| Fast.FirstEvidenceMeaning | internal/model/types.go:273-280 | The evidence found is the first of its kind, and none is found exactly when there is none. |
| FastExact.PlannedIff | policy/fast.go:41-103 | An experiment is planned exactly when it is due: DNS when there is none; once it passed, TCP on every family the answer lists without a connect, QUIC on the leading family of an https target, TLS and HTTP over the first family TCP passes on, each after its prerequisite. |
| FastExact.ResolvedPlan | policy/fast.go:58-83 | Once DNS passed, TCP is planned exactly on the announced families without a connect, and QUIC exactly on the leading one of an https target. |
| FastExact.AnswerIsFollowed | policy/policy.go:58-91 | With the IPv4 and IPv6 texts of the first answer given, TCP is planned on IPv4 exactly when the IPv4 list is nonempty, on IPv6 exactly when the other is, and QUIC on the preferred of the two, for either preference. |
| FastExact.NoAnswerMeansIPv4 | policy/policy.go:58-64 | A passing DNS observation without answer evidence announces IPv4 alone. |
| FastExact.PlanInOrder | policy/fast.go:61-101 | The plan lists TCP first, the leading family before the other, then QUIC, then TLS or HTTP. |
| FastRuns.PlanTail | policy/fast.go:41-103 | After the first planned experiment is recorded, with any outcome, the rest of the old plan is a prefix of the new plan. |
| FastRuns.PlanElement | policy/fast.go:41-103 | Every planned experiment is one of at most nine of the target, and its layer and family are not recorded yet. |
| FastRuns.PlanIsNew | policy/fast.go:26-37 | On a well-formed record the whole plan is new, so deduplication only caps it. |
| FastRuns.FastProposal | policy/fast.go:26-28 | What the runner executes is the plan cut to the budget. |
| FastRuns.FastRunKeeps | internal/runner.go:78-110 | Every run, with any budget, stop and outcomes, is the one-experiment-at-a-time run cut off somewhere: each observation is what the tree asks for first on the record before it. |
| FastRuns.FastResumesKeep | fairy.go:87-106 | The same over any chain of resumes. |
| FastSequence.RestStep | policy/fast.go:41-103 | Recording the first planned experiment moves exactly that experiment out of what remains of the fixed sequence. |
| FastSequence.RestIsConserved | policy/fast.go:41-103 | What was measured followed by what remains is what remained at the start. |
| FastSequence.RestBounds | policy/fast.go:9-14 | At most six experiments remain, and none exactly when nothing is planned. |
| FastSequence.FreshIsStartable | fairy.go:78-85 | A fresh survey meets the conditions of the resume theorems when IDs separate the tree's own experiments. |
| FastSequence.ResumedIsPrefix | fairy.go:87-106 | Interrupted and resumed at any points under any budgets, a survey of a network that answers consistently has measured a prefix of one fixed sequence, and all of it exactly when the policy is done. |
| FastSequence.ResumeEquivalence | fairy.go:87-97 | Two chains of runs that both reach the end of the tree leave the same observations. |
| FastOrder.FastRunIsExact | internal/runner.go:78-110 | An uninterrupted run measures exactly as much of the fixed sequence as its budget allows. |
| FastOrder.FastTerminates | policy/policy.go:1-6 | From any state and for any outcomes a Fast run records at most the unrecorded part of nine experiments, in at most as many rounds, and never ends because of the round limit. |
| FastOrder.FastProgress | policy/fast.go:23-37 | On any well-formed record an unfinished Fast policy always gets something new past the runner's deduplication. |
| FastOrder.FastRunEnds | internal/runner.go:83-100 | From any well-formed record a Fast run ends only because the policy is done, the budget is spent or the context is over. |
| FastCausal.RunIsPlanned | internal/runner.go:83-110 | Every run, from any record, with any IDs and outcomes, adds only observations that were planned on an earlier part of the record and repeat no layer and family. |
| FastCausal.FastCausalOrder | policy/fast.go:41-103 | Whatever record a chain of Fast runs starts from, whatever the IDs and outcomes: everything it adds after DNS follows a passing DNS observation, TLS follows a passing TCP on its family, HTTP a passing TLS (https) or TCP (http) on its family, and no layer and family probed before is probed again. |
| FastOrder.FastWithinSix | policy/fast.go:9-14 | A state of a survey started fresh never holds more than six experiments. |
| FastSix.OneAppFamily | policy/fast.go:64-101 | On every record a fresh Fast survey leaves, all TLS and HTTP observations are on one family. |
| FastSix.ResumedWithinSix | policy/fast.go:9-14 | However often a fresh Fast survey is run and resumed, under any budgets, outcomes and IDs, it never records more than six experiments. |
| FastOrder.PlanStageDrops | policy/fast.go:23-25 | Recording a whole plan, with any outcomes, moves to a strictly later stage of at most four. |
| FastOrder.FastFourRounds | policy/fast.go:23-37 | With room for six probes the remaining rounds are at most the stage reached, and only an expired context leaves the tree unfinished. |
| FastOrder.FreshFastSurvey | internal/runner.go:58-110 | A fresh survey with room for six probes takes at most four rounds and six experiments. |
| FastCausal.FastProbesOnce | policy/fast.go:41-103 | On every record planned from the start, DNS was probed once, QUIC at most once and UDP never. |
| FastCausal.FastSelectorsAgree | policy/policy.go:41-56 | On every record planned from the start, the latest, the preferred and the first observation are one, for all layers and families, and for DNS, UDP and QUIC with the family left open. |
| Adaptive.BuildCandidates | policy/adaptive.go:77-189 | The branching construction with its early returns computes the candidate list. |
| Adaptive.ScanTcpVerdicts | policy/adaptive.go:129-142 | The loop over the families with its break and its two flags computes the TCP verdicts. |
| Adaptive.ProposeLoop | policy/adaptive.go:25-46 | The tree first, then at most two of the ranked candidates, deduplicated. |
| AdaptiveExact.CandidateIff | policy/adaptive.go:77-189 | The candidates are exactly the unrecorded experiments that the record's failures ask for: the public resolver, the other family, port 80, no server name, one ALPN, plain UDP, HTTP/1.1, each with its condition. |
| AdaptiveExact.CandidatesApart | policy/adaptive.go:84-91 | No experiment is a candidate twice. |
| AdaptiveExact.ChoiceIsBest | policy/policy.go:102-113 | Once the tree is exhausted, two candidates are proposed, or as many as there are or the budget allows; none left out is cheaper than a chosen one (DNS, TCP, UDP cost 1, TLS and HTTP 2, QUIC 3), or as cheap and earlier in canonical form; they are proposed in that order. |
| AdaptiveExact.OtherPort | policy/policy.go:90-100 | The port-80 target differs in nothing but the port, also in the text of its URL. |
| AdaptiveRuns.CandidateSound | policy/adaptive.go:77-189 | Every candidate is an unrecorded member of the universe; a TLS or HTTP variant is proposed only where its layer and family are recorded, a TLS default only where they are not. |
| AdaptiveRuns.UniverseIsSmall | policy/adaptive.go:48-55 | All that can ever be proposed for a target is at most twenty experiments. |
| AdaptiveRuns.ProposalElement | policy/adaptive.go:25-46 | Every proposal lies in that universe and comes from the tree or from the candidates. |
| AdaptiveRuns.AdaptiveTerminates | policy/policy.go:1-6 | From any state and for any outcomes a run records at most the unrecorded part of the universe, in at most as many rounds, and never ends because of the round limit. |
| AdaptiveRuns.AdaptiveProgress | policy/adaptive.go:23-55 | On well-formed records, an unfinished Adaptive policy always gets something new past the runner's deduplication. |
| AdaptiveRuns.AdaptiveRunEnds | internal/runner.go:83-100 | An Adaptive run ends only because the policy is done, the budget is spent or the context is over. |
| AdaptiveResume.ProposalUncut | policy/adaptive.go:25-46 | A budget for everything still open changes no proposal. |
| AdaptiveResume.RoomyChainsAgree | fairy.go:87-106 | From any state, against a network that answers consistently, chains of Adaptive runs that each may record twenty more than that state holds leave the same state once they are done, wherever they were interrupted. |
| AdaptiveSplit.AlpnSortsFirst | policy/policy.go:145-152 | The ALPN variant precedes the variant without server name in the canonical order. |
| AdaptiveSplit.CutChainsDisagree | policy/adaptive.go:33-45 | Without that room they can disagree: for every https target two chains against one consistent network are both done and leave different records, one uninterrupted, one cut after five probes. |
| AdaptiveRuns.BatchKeepsOrder | policy/adaptive.go:77-189 | A batch of experiments that are each the default and first, or neither, keeps the default variant first in every layer and family but TCP. |
| AdaptiveRuns.AdaptiveResumesKeepOrder | policy/adaptive.go:77-189 | Any chain of runs keeps: all experiments are of the universe, and outside TCP exactly the first observation of a layer and family is the default variant. |
| AdaptiveFamilies.ProposalFamily | policy/adaptive.go:77-189 | DNS is proposed alone until it passes and never after; UDP and QUIC are proposed only on the first family of the passing answer. |
| AdaptiveFamilies.ResumesKeepFiled | policy/adaptive.go:77-189 | Any chain of runs keeps: UDP and QUIC were only probed on the first family of the passing DNS answer. |
| AdaptiveFamilies.AdaptiveSelectorsAgree | infer/infer.go:257-263 | On every state reachable from a fresh one, with any outcomes, comparison's first observation and inference's preferred one are the same outside TCP, also for DNS, UDP and QUIC looked up with the family left open. |
| AdaptiveChoice.AdaptiveTcpAgreement | policy/adaptive.go:143-146 | On every reachable state they agree on TCP of a family exactly if the port-80 connect was not recorded, as a different experiment, beside the connect to the target's port; in general, exactly if there is at most one match. |
| AdaptiveChoice.TcpFollowUpSplits | policy/adaptive.go:129-146 | When the tree is exhausted and every family failed TCP, the port-80 connect is proposed alone and, recorded with any outcome, becomes the preferred observation but not the first. |
| Witnesses.TcpSelectorsSplit | policy/adaptive.go:129-146 | A whole Adaptive run from a fresh survey that ends with different first and preferred TCP observations: DNS passes, the connect to a port other than 80 is refused, then the one to port 80. |
| AdaptiveChoice.FollowUpsAnswerFailures | policy/adaptive.go:9-13 | Each candidate tests one hypothesis, and the layer that hypothesis is about has a family whose latest observation did not pass. |
| AdaptiveChoice.NothingFailedNothingMore | policy/adaptive.go:48-55 | Where the latest observation of every layer and family passed, the policy is done once the tree is exhausted. |
| AdaptiveChoice.CandidatesSeparate | policy/policy.go:138-152 | When the target's host is free of the separator, two candidates of one state with the same canonical form are the same experiment, so the score-then-canonical order is total on candidates. |
| AdaptiveChoice.ChoiceIgnoresListing | policy/adaptive.go:33-45 | When the target's host is free of the separator, the chosen experiments do not depend on the order in which candidates are enumerated. |
| Canonical.CanonicalInjective | internal/model/experiment.go:37-54 | The canonical form determines all its fields when every field but the target text is free of the separator; the target text may contain it. |
| Experiments.CanonicalExamples | internal/model/experiment.go:37-54 | Worked examples of the canonical text for every layer: version, field order, names, URL or bracketed host and port. |
| Canonical.SeparatorMatters | internal/model/experiment.go:40-54 | Two different experiments with a separator in ALPN and SNI share a canonical form, so the condition is needed. |
| Canonical.DigestSeparates | internal/model/experiment.go:28-35 | A digest without collisions on the canonical forms at hand gives the assumption on IDs that the survey theorems use. |
| Infer.InferFindings | infer/infer.go:58-245 | The accumulating pass with its two early returns computes the findings. |
| FindingsExact.FindingIff | infer/infer.go:58-245 | A finding is reported exactly when the record warrants it: for each of the ten kinds the condition, confidence and evidence, in terms of the statuses and evidence of the preferred observations. |
| FindingsExact.FindingsInOrder | infer/infer.go:105-232 | Findings come in a fixed order, one for each failure, each sign of interception on its own. |
| FindingsExact.PartialLinesMeaning | infer/infer.go:201-221 | The evidence of partial_address_failure is, for each observation with differing addresses, the count of those that passed and a line for each that did not. |
| Infer.TcpAllFailedLoop | infer/infer.go:313-328 | True exactly when some TCP connect was attempted and no attempted one passed; skipped and unknown observations are not attempts. |
| Infer.PartialFailures | infer/infer.go:192-232 | The loop over the addresses of all observations with its flags computes the partial-failure finding. |
| Infer.AddressTally | internal/model/types.go:231-241 | The tally counts the passed addresses, and passed and failed together are all. |
| InferFacts.VariantsDoNotInterfere | infer/infer.go:257-263 | A non-default, non-TCP observation whose layer and family have a default and whose addresses agree changes no finding; path_healthy alone may appear or gain it as evidence, and is never lost. |
| InferFacts.LoneFindings | infer/infer.go:77-103 | dns_failure, tcp_unreachable and path_healthy are only ever reported alone. |
| FindingsExact.HealthyExactly | infer/infer.go:234-243 | path_healthy is reported exactly when no failure is held against the path, the preferred DNS observation passed, TCP passed on IPv4 or IPv6 and three observations passed; its evidence is the passing observations in order. |
| InferFacts.PassingLinesMeaning | infer/infer.go:236-242 | The supporting lines stand for exactly the passing observations, in recording order. |
| InferFacts.EvidenceExactly | infer/infer.go:87-103 | A finding without evidence is reported exactly when DNS did not fail, every attempted TCP connect failed, and none was recorded for IPv4 or IPv6. |
| Witnesses.UnreachableWithoutEvidence | infer/infer.go:87-103 | A whole Factorial run over the family "any" that ends with tcp_unreachable and no evidence. |
| InferFacts.HealthySurvivesTimeout | infer/infer.go:174-186 | Adding an HTTP timeout whose addresses agree never removes path_healthy, whatever the record. |
| Health.HealthyChosenPassIff | infer/infer.go:234-243 | On any record with path_healthy, every observation inference consults passed exactly when the consulted TCP and HTTP ones passed, TLS passed where TCP was not probed, and no consulted TLS, UDP or QUIC one was skipped. |
| Health.HealthyFastPassesIff | infer/infer.go:51-52 | On every record of a fresh Fast survey with path_healthy, every recorded observation passed exactly when every TCP and HTTP observation passed and nothing was skipped. |
| Health.RefusedFamilyIsHealthy | infer/infer.go:234-243 | A whole Fast run whose only finding is path_healthy although TCP on IPv4 failed. |
| Health.TimeoutIsHealthy | infer/infer.go:174-186 | A whole Fast run whose only finding is path_healthy although its only HTTP request timed out. |
| AdaptiveFindings.FollowUpsNeverMask | infer/infer.go:257-263 | In every Adaptive survey from a fresh state, recording a non-default, non-TCP observation whose addresses agree changes no finding except that path_healthy may appear or grow. |
| Variants.VariantsChangeNothing | infer/infer.go:257-263 | On any default-first record whose variants' addresses agree, removing all non-TCP variants at once changes no finding but path_healthy, and a healthy path stays healthy with them. |
| Variants.AdaptiveVariantsChangeNothing | infer/infer.go:257-263 | The same for every chain of Adaptive runs from a fresh survey. |
| AdaptiveFindings.ComparedIsInferred | cmd/fairy/compare.go:323-336 | In every such survey, comparison's view of a layer other than TCP on IPv4 or IPv6 is the view of the observation inference judges. |
| AdaptiveFindings.ComparedIsInferredOpen | cmd/fairy/compare.go:323-336 | For DNS, UDP and QUIC comparison has at most one view, and it is of the observation inference judges without naming a family. |
| Addresses.ResolveAll | probe/common.go:42-72 | The loop with its shared `seen` map computes IPv4 then IPv6 texts, first occurrences only; an empty answer is the error. |
| Addresses.ResolvedOrder | probe/common.go:38-42 | No resolved address is lost and none is repeated. |
| Addresses.KeptMeaning | probe/common.go:47-66 | The addresses of a family are kept in resolver order, each at its first occurrence. |
| Addresses.SortedOutcomesAre | probe/common.go:108-118 | Whatever order the outcomes arrive in, sorting them lists them in resolver order. |
| Addresses.AggregateMeaning | probe/common.go:225-252 | An explicit failure outweighs a timeout and a timeout anything else, in every order; the reported kind and text are those of an address with the reported status. |
| Addresses.AggregateTells | probe/common.go:228-252 | Which address explains the verdict: the first timeout; of failures, and of other outcomes, the first with a kind, or the last when none has one. |
| Addresses.AggregateStatus | probe/common.go:228-252 | The loop computes that verdict. |
| FanOut.StepIsGood | probe/common.go:151-204 | Each step of a worker, the closer, the collector or the drainer keeps the invariant: slots, delivery, accounting of connections, the winner. |
| FanOut.ReachedIsGood | probe/common.go:151-204 | The invariant holds in every interleaving, and every step uses up one of 5n + 2. |
| FanOut.FourAtATime | probe/common.go:22-24 | At most four workers hold a slot, so at most four dial, and an idle worker can start exactly while fewer do. |
| FanOut.SendNeverBlocks | probe/common.go:152-166 | A worker holding an answer can always send it. |
| FanOut.NeverStuck | probe/common.go:156-201 | No interleaving gets stuck before all is finished. |
| FanOut.Completed | probe/common.go:174-203 | In every complete interleaving each address was dialed and received; each opened connection is the winner or was closed exactly once; the winner is the first connection to arrive, and exists if any opened. |
| FanOut.ReportIsInResolverOrder | probe/common.go:202-203 | At any moment, in either mode, the sorted outcomes are the recorded addresses' own answers in resolver order. |
| FanOut.WaitAllReportsEveryAddress | probe/common.go:120-135 | Waiting for all, the report lists every address once in resolver order, whatever the schedule. |
| FanOutWinner.AnyoneCanWin | probe/common.go:183-187 | For every address that connects there is a schedule in which it is returned. |
| FanOutWinner.WinnerIsResolverFirstIff | probe/common.go:120-135 | Every schedule returns the resolver-first connection exactly when at most one address connects. |
| FanOutWinner.JudgeTLS | probe/tls.go:141-165 | The winner is the resolver-first handshake, the representative error the resolver-first failure, and every other connection is closed exactly once. |
| FanOutWinner.TLSVerdictIgnoresSchedule | probe/tls.go:136-165 | In every complete interleaving the map of answers, and so the outcome list and the winner, are the same and in resolver order. |
| HttpSlices.AddrTracker.Record | probe/http.go:63-72 | The first record of an address is kept; empty and repeated addresses are ignored. |
| HttpSlices.Run | probe/http.go:132-176 | The address loop pins, tries and records each address until one responds or a prerequisite fails; it reports a pass exactly if the last tried responded. |
| HttpSlices.RecordedIsPrefix | probe/http.go:143-175 | The recorded addresses are the resolver-order prefix up to the first response, without repetition, and all but the last did not pass. |
| HttpSlices.RecordedAnswers | probe/http.go:143-175 | An address is tried exactly when no earlier one responded or failed its prerequisite, and its entry is its own answer: a pass when it responded, else its failure, with the time it took. |
| HttpSlices.AttemptLasts | probe/http.go:145-149 | An attempt lasts as long as its request stalls, but not longer than its slice nor past the deadline. |
| HttpSlices.SlicesShare | probe/http.go:138-141 | The time left at the start, the layer's budget without a deadline, is shared out evenly, unless that gives less than a hundred milliseconds each. |
| HttpSlices.SlicesFitIff | probe/http.go:138-141 | Every address gets its full slice before the deadline, however long earlier ones stall, exactly when at least 100 ms an address remain at the start. |
| Listing.List | cmd/fairy/compare.go:427-438 | Ranging over a map in any order and sorting lists every key once by name. |
| Listing.ListingUniqueIff | cmd/fairy/compare.go:434-438 | The iteration order cannot show exactly when no two keys share a name. |
| Compare.CollectViews | cmd/fairy/compare.go:323-336 | The loop with its exists check computes the views. |
| Compare.ViewsMeaning | cmd/fairy/compare.go:323-336 | A key is viewed exactly when it was observed, and its view is of the first observation of that key. |
| Compare.ViewIsFirst | cmd/fairy/compare.go:326-334 | For IPv4 and IPv6 that is the observation selected by "first wins". |
| Compare.DiffViews | cmd/fairy/compare.go:427-463 | The sorted loop with its four cases computes the changes. |
| Compare.KeyRoundTrip | cmd/fairy/compare.go:239-250 | A key is read back from its text when the layer name contains no slash. |
| Compare.SharedText | cmd/fairy/compare.go:245-250 | Two keys share a text only if a layer name contains a slash. |
| Compare.ChangesArePatch | cmd/fairy/compare.go:440-463 | With slash-free layer names, carrying out the changes on A's views rebuilds B's views exactly. |
| Compare.DiffMirror | cmd/fairy/compare.go:440-463 | Swapping the sides mirrors the changes and, with slash-free layer names, the mirrored changes undo them. |
| Compare.NoChangesIff | cmd/fairy/compare.go:440-463 | Nothing is reported exactly when the views are equal. |
| CompareExact.PointChange | cmd/fairy/compare.go:440-463 | What is reported for a layer on IPv4 or IPv6 is decided by the first observation of either run: a change of status, else of detail, or that only one run has the point. |
| Compare.DiffFindings | cmd/fairy/compare.go:465-481 | Added and removed findings are listed in order; nothing is reported exactly when both sides found the same. |
| Compare.FindingsArePatch | cmd/fairy/compare.go:465-481 | A's findings minus the removed plus the added are B's, and the swapped report is the report of the swapped sides. |
| CompareSets.Instability | cmd/fairy/compare.go:501-534 | The loops over runs, keys and statuses compute the notes. |
| CompareSets.UnstableIff | cmd/fairy/compare.go:501-534 | A point is reported as unstable exactly when two runs both probed it with different statuses; its note lists all statuses seen, in order. |
| CompareSets.NotesRanked | cmd/fairy/compare.go:526-532 | A note lists every status seen once, in the order fail, pass, skipped, timeout, unknown. |
| CompareSets.NotesExactly | cmd/fairy/compare.go:483-484 | The notes of a whole comparison are exactly the unstable points of the slugs in both sets, on either side. |
| CompareSets.CompareSets | cmd/fairy/compare.go:387-499 | The whole comparison joins the parts of all slugs in order: slugs in one set only, changes, finding changes, unstable points. |
| CompareSets.ComparisonUnique | cmd/fairy/compare.go:387-534 | With slash-free layer names the whole comparison, notes included, does not depend on any map's iteration order. |
| CompareSets.ComparisonIsPatch | cmd/fairy/compare.go:385-481 | For each slug in both sets, the finding changes reported for it rebuild B's findings from A's and, with slash-free layer names, the changes rebuild B's views. |
| CompareExact.FindingChangesExactly | cmd/fairy/compare.go:465-481 | For a slug in both sets, nothing is reported exactly when the first runs found the same kinds with the same confidence; else what only B's run found is added and what only A's found is removed, each as kind:confidence and in order. |
| CompareSets.ComparisonMirror | cmd/fairy/compare.go:385-534 | With slash-free layer names, swapping the sets mirrors the differences, and for every slug the notes of one side become those of the other. |
| CompareSets.SelfComparison | cmd/fairy/compare.go:385-534 | A set compared with itself shows no differences; its notes are exactly its own unstable points, once for each side. |
| Targets.ParseTargets | cmd/fairy/report.go:71-114 | The line loop with its two seen maps computes the parse result, with the line and the kind of the first error. |
| Targets.ReadLinesIsClean | cmd/fairy/report.go:71-114 | Accepted slugs and URLs are nonempty words, no slug starts a comment, every URL parses, and slugs and URLs are pairwise distinct. |
| Targets.TargetsRoundTrip | cmd/fairy/report.go:152-161 | Whenever a text is accepted, formatting its targets and parsing again gives the same targets sorted by slug. |
| Targets.FormatIgnoresOrder | cmd/fairy/report.go:153-161 | The printed text does not depend on the order of the targets. |
| Targets.WriteSafe | cmd/fairy/report.go:125-133 | The builder loop replaces every character outside the safe set, in order. |
| Targets.SlugIsSafe | cmd/fairy/report.go:116-150 | A derived slug is never empty and has only lower-case letters, digits, dots and dashes, for every input. |
| TargetSlugs.PathsTellApart | cmd/fairy/report.go:116-149 | Two URLs with paths whose digests differ have different slugs, whatever their hosts. |
| TargetSlugs.SlugExtends | cmd/fairy/report.go:134-149 | A path adds a dash and its digest to the slug of the bare host; slashes alone are no path. |
| TargetSlugs.PathTellsFromHost | cmd/fairy/report.go:116-118 | A URL with a path never has the slug of its bare host. |
| TargetSlugs.HostIsSlug | cmd/fairy/report.go:125-134 | The slug of a bare host is the cleaned host without the dashes around it. |
| TargetSlugs.SafeHostIsSlug | cmd/fairy/report.go:125-134 | A host that is already safe and has no dashes around it is its own slug. |
| TargetSlugs.NamelessIsTarget | cmd/fairy/report.go:120-124 | A URL that does not parse, and a host with no safe character but dashes, have the slug target. |
| TargetSlugs.SafeTextAt | cmd/fairy/report.go:125-133 | Cleaning keeps every safe character in its place and puts a dash for every other. |
| TargetSlugs.ReadExactly | cmd/fairy/report.go:71-114 | A list of lines is accepted exactly when every line that is neither blank nor a comment has one or two fields and a URL that parses, and no two share a slug or a URL; the error names the first line that breaks this. |
| TargetSlugs.FieldsSplit | cmd/fairy/report.go:86 | A line is split at white space into its words, all of them and in order. |
| TargetSlugs.LinesJoin | cmd/fairy/report.go:81 | A text is cut at its line ends, and joining the lines gives it back. |
| TargetSlugs.SpacesAre | cmd/fairy/report.go:78-84 | The characters that separate fields. |
| TargetSlugs.OneHostAccepted | cmd/fairy/report.go:116-149 | A file of different URLs of one host, one a line, with paths of different digests, is accepted with their derived slugs. |
| ReportNames.BuildQueue | cmd/fairy/batch.go:96-105 | The nested loops build the job queue. |
| ReportNames.QueueMeaning | cmd/fairy/batch.go:100-105 | Each run of each target is queued exactly once. |
| ReportNames.RunNameDecodes | cmd/fairy/compare.go:226-237 | With two or more runs, slug and run are read back exactly from the report's cleaned path; of a slug with slashes, its last element is. |
| Paths.CleanBelow | cmd/fairy/batch.go:149-150 | Joining a directory and a file name keeps the name; what precedes it depends on the directory alone. |
| Paths.CleanIsTidy | cmd/fairy/batch.go:149-150 | A cleaned path is never empty, keeps whether it is rooted, has no empty or "." element, and has ".." only at the start of a path that is not rooted. |
| Paths.BaseIs | cmd/fairy/compare.go:227-228 | The last element of a path is never empty, has no slash unless the path is all slashes, and does not depend on slashes at the end. |
| ReportNames.RunSuffixIff | cmd/fairy/compare.go:88 | A name ends in a run suffix exactly when it ends in -run and digits. |
| ReportNames.LargeRunDecodes | cmd/fairy/compare.go:229-236 | A run number beyond the largest integer is read as 1; the slug is still read back. |
| ReportNames.TrimmedSuffix | cmd/fairy/compare.go:228 | The extension is removed where it is there, and nothing else is. |
| ReportNames.SingleNameDecodesIff | cmd/fairy/compare.go:226-237 | With one run a slash-free slug is read back from the cleaned path exactly when it does not itself end in a run suffix. |
| ReportNames.RunSuffixMatters | cmd/fairy/compare.go:226-237 | A concrete slug ending in a run suffix is read back as another slug and run. |
| ReportNames.JobsShareFileIff | cmd/fairy/batch.go:145-150 | Two jobs write the same report path, and the same state path, exactly when their slugs lead to one folder and end in the same element and their runs are the same. |
| ReportNames.JobsHaveOwnFiles | cmd/fairy/batch.go:145-150 | No two jobs with slash-free slugs write the same report path or the same state path. |
| ReportNames.SlashesCollide | cmd/fairy/batch.go:149-150 | The slugs b and a/../b write the same files in every directory. |
| ReportNames.CollidingTargets | cmd/fairy/report.go:92-108 | A targets file with both of these slugs is accepted. |
| ReportNames.ReportsAreNotStates | cmd/fairy/batch.go:145-150 | With two or more runs no report has the path of a state file or is named like one, for any slugs. |
| ReportNames.Scan | cmd/fairy/compare.go:103-122 | The loop over a directory's entries keeps the JSON files that are neither states nor metadata, in order; none is an error. |
| ReportNames.ScanMeaning | cmd/fairy/compare.go:103-122 | A scan finds a path exactly when an entry it keeps has it. |
| ReportNames.ReportFoundIff | cmd/fairy/compare.go:109-117 | A report can be found by scanning the output directory exactly when its slug leads to that directory itself and, with one run, ends in neither .state nor .meta. |
| ReportNames.SingleReportOverwritesIff | cmd/fairy/batch.go:145-150 | With one run a report has a state file's path exactly when both lead to one folder and its slug ends the way that file's name does. |
| Factorial.BuildProduct | policy/factorial.go:78-108 | The three loops with `continue` and the early return at the cap compute the capped product: the k-th experiment decodes k with the target varying fastest. |
| Factorial.IndexDigits | policy/factorial.go:86-106 | Reading an index back into family, transport and target inverts forming it. |
| Factorial.EveryCombination | policy/factorial.go:78-108 | A combination appears exactly when its family and transport are factors, the transport is TCP, UDP or QUIC, and its target is the survey's or the control's, which needs a host. |
| Factorial.ProductProbes | policy/factorial.go:88-100 | Each experiment of the product probes its combination: over that transport, on the layer of the same name, on that family and at that target. |
| Factorial.NoCombinationTwice | policy/factorial.go:78-108 | With factors free of repetition none appears twice. |
| Factorial.CombinationsAreExperiments | policy/factorial.go:89-100 | With explicit families and hosts, different combinations are different experiments. |
| Factorial.DefaultsMakeEight | policy/factorial.go:37-57 | The defaults with a control target give these eight experiments, in this order: TCP then QUIC, target then control, on IPv4 and then on IPv6. |
| Factorial.DefaultCap | policy/factorial.go:37-57 | Without a positive cap the product is cut at sixty-four; given families, transports and control are kept. |
| Factorial.NothingWithoutTarget | policy/factorial.go:61-74 | Without a target the policy is done, and refuses to propose. |
| Factorial.FactorialProgress | policy/factorial.go:59-76 | Unless done, the policy has something new for the runner, for every budget. |
| Factorial.FactorialOneRound | policy/factorial.go:59-76 | A run takes at most one round and ends done, with its budget spent or with the context over; done means every candidate is recorded. |

## Left out

- Network calls: sockets, DNS queries, TLS and QUIC handshakes and HTTP requests are oracles; `probe/quic.go`'s fan-out is a simpler copy of the one modelled.
- Error classification: `classifyDialError`, `classifyTLSError`, `classifyHTTPError`, `combineFamilyErrors`, alert names and certificate classes are finite tables over library error types.
- FanOut.Completed: in TLS mode a raw connection whose handshake fails is closed by its own worker within the dialing step, so it does not appear as an opened connection.
- HttpSlices.SlicesFitIff: the loop's own overhead between two attempts counts as zero time, because it has no bound in the code.
- Runner.RunSurvey: survey IDs, start times and durations, and the whole-survey timeout as a clock, are not modelled; the timeout appears as an arbitrary `expired`.
- Compare.CollectViews: the detail text of a view is a parameter, because `viewOf` only formats evidence values.
- Targets.ParseTargets: URL parsing and SHA-1 are parameters; a host arrives lower-cased.
- ReportNames.RunNameDecodes: paths use the slash as separator; Windows separators and volume names are not modelled.
- InferFacts.PassingLinesMeaning: an evidence line is kept as the observation or address it is rendered from, not as text.
- Evidence values are a typed datatype; JSON encoding, `SaveState`, `LoadState`, `AsInt` and `AsStrings` are not modelled.
- The Taguchi policy: a fixed nine-row table.
- Loading report files and the metadata envelope, the set headers of a comparison, text rendering, flags, signals, and the counters and output streams of `batch`.
- The private copy `Resume` makes of its state: a resumed run here starts from the same state value.
