# SEISMOGRAPH, modelled and proved

Probes run a suite of canary prompts against a model, average the answers' features over a batch,
and post the batch to a gateway; a local spool keeps what could not be posted. The gateway
stores each batch once, feeds its metrics to per-stream CUSUM detectors, and lets a drift become a
public alert only when enough organisations agree. This project models the parts of that
pipeline that carry state or arithmetic and proves what they promise. Floats are `real`; clocks,
network fates, provider replies and random draws are inputs, so a theorem about a run holds for
every clock, every network and every provider.

Files, from the bottom up:

- `Common`, `Combinatorics`: options, sums, binomial coefficients.
- `Detector`, `DetectorStreams`: the two-sided CUSUM of one stream, and the detector object that
  owns the streams.
- `Bayes`, `BayesDetector`, `BayesHistories`: the conjugate update, the change-point
  recursion with its pruning and resets, and its meaning as a sum over change-point histories.
- `AgreementScorer`, `RedisScorer`, `ScorerRefinement`: the quorum gate in memory and in
  Redis, and why they give the same answers.
- `Gateway`, `GatewayAlerts`, `GatewayScorer`, `Bootstrap`: ingestion of public and private batches,
  what it answers and raises, the quorum scorer inside it, and replay after a restart.
- `SpoolNames`, `Spool`, `Delivery`: file order, the spool directory, and the client, network
  and gateway together as one step system.
- `CanaryResults`, `PrivacyBudget`, `Aggregation`, `ProbeSdk`: a prompt's result, the accountant,
  the staging queue and its sensitivities, and the flush that ties them together.
- `FlushDelivery`: the flush and the delivery protocol as one system.
- `Canary`: the plain and the all-or-nothing suite runner.
- `Permutation`, `QuorumBound`: the permutation statistics and the quorum search.

Where the source updates an object or loops, the model is a class or a method proved equal to
a specification function, and the theorems are lemmas about that function. So a change in a
method's body breaks its own contract, and a change made in both body and specification breaks the lemmas.

Some statements one would like are false of the code. Each is stated with the exact condition
under which it holds:

- Rescaling data preserves alerts exactly when the sigma clamp acts on neither baseline
  (`Detector.RescalingExact`); negating it swaps directions exactly when the two sides are not both
  over (`Detector.NegationExact`), which a first alert guarantees and a later one does not
  (`Detector.LaterAlertsNeedNotFlip`).
- A late write parts the Redis scorer from the memory scorer exactly when it turns its org's own time
  back by a millisecond (`ScorerRefinement.LateWriteExactly`); under a quorum of one their answers then
  differ exactly when just one of the two times is in the window
  (`ScorerRefinement.LateCandidateExactly`). Two streams share a key exactly when model and suite join
  to one text (`RedisScorer.KeyCollision`).
- One lane's traffic affects another's exactly when it takes the id of a batch with metrics first
  (`Gateway.LanesInterfereExactly`).
- A restart reads a model's last 50 rows, which do not say their lane. If these have moved past no
  value of the stream since the last restart, it is invisible to that stream exactly when no private
  row since then stores a value for it; if no such row came in, exactly when they have moved past none
  (`Bootstrap.RestartInvisibleExactly`). Earlier restarts do not matter.
- A drain reports, and empties the spool over a working network, exactly when every file can be loaded
  (`Spool.DrainReportsExactly`, `Spool.AnsweredDrainEmpties`). A file of JSON that is no object cannot:
  it raises what nothing catches, and no flush gets past it (`FlushDelivery.BlockedForever`).
- The budget can be spent twice within 24 hours (`PrivacyBudget.TwiceIsReached`); pacing works
  exactly when the budget covers one flush (`PrivacyBudget.PacingExact`), and then a paced probe is
  refused exactly when the window holds a full budget's flushes, which takes a restart in it
  (`ProbeSdk.PacedProbeRefusedExactly`).
- A granted flush sends everything exactly when no staged entry mixes suites and no post fails for
  good (`ProbeSdk.SendsAllExactly`); once a mixed entry is the oldest, nothing leaves the probe any
  more until the budget gate or a restart discards the queue (`ProbeSdk.MixedHeadStarves`).

Where comments and code disagree the model follows the code: the quorum floor is 3, not 2
(engine/correlation.py:111), and a baseline sigma below 1e-9 is replaced by 1.0, not by 1e-9
(engine/detector.py:171-172).

## Model

| member | source | states |
|---|---|---|
| Detector.BaselineFrozen | engine/detector.py:162-206 | the first baseline_samples observations (at least one) freeze mean and clamped deviation, silently, with both accumulators at zero |
| Detector.BaselineFromSums | engine/detector.py:162-174 | the frozen mean times n is the observations' sum, and n(n-1) sigma^2 is n times their sum of squares less the square of their sum; sigma is 1 exactly for one observation or where the root of that variance is below 1e-9 |
| Detector.LindleyIsMaxSuffix | engine/detector.py:216-221 | the clamped recursion is an upper bound of every suffix total, and is itself one |
| Detector.OverIffSuffix | engine/detector.py:216-228 | a side is over h exactly when some suffix of its increments totals more than h |
| Detector.RunIsLindley | engine/detector.py:208-228 | after the freeze both accumulators are that recursion on the z-scores less k, the baseline never moving again |
| Detector.AlertIffSuffixOver | engine/detector.py:199-242 | an observation alerts exactly when some suffix on some side totals more than h; it reads positive exactly when the upward side has one; the window count is the observations seen |
| Detector.AlertInRawUnits | engine/detector.py:208-242 | an observation alerts exactly when some latest m observations together lie beyond the mean by more than sigma (h + m k) on a side; the alert reads positive exactly when on the upper one, carries h and the count, and its score is the greatest such threshold |
| Detector.QuietNeverAlerts | engine/detector.py:208-242 | z-scores within the slack leave the accumulators at zero and never alert |
| Detector.ShiftDetectedInTime | engine/detector.py:208-242 | from any state, floor(h / (delta - k)) + 1 observations shifted by at least delta > k to one side raise an alert, read positive for an upward shift |
| Detector.SidesShareThePeak | engine/detector.py:212-228 | the two accumulators together never exceed the largest value either has reached |
| Detector.FirstAlertIsOneSided | engine/detector.py:212-240 | up to and including the first alert, at most one side is over h |
| Detector.ClampScales | engine/detector.py:171-172 | the clamped deviation scales with the data exactly when the scale is one or the clamp is idle before and after |
| Detector.RescalingExact | engine/detector.py:162-240 | for every h and k, positive affine rescaling leaves every later alert unchanged (direction, score, count) if and only if the clamp is idle or the scale is one |
| Detector.ClampShows | engine/detector.py:162-240 | otherwise one constructed observation alerts on the one stream and, on the other, not at all or with another score |
| Detector.NegationExact | engine/detector.py:216-240 | negating the data flips an alert's direction and nothing else if and only if the two sides are not both over |
| Detector.NegationFlipsFirstAlert | engine/detector.py:216-240 | so the first alert of a stream always flips |
| Detector.LaterAlertsNeedNotFlip | engine/detector.py:223-240 | with the shipped h and k, a later alert and its negation are both positive |
| DetectorStreams.MetricState.FinalizeBaseline | engine/detector.py:162-174 | sets mean and deviation to those of Detector.BaselineFromSums: the buffer's mean, and the root of its unbiased variance or 1 |
| DetectorStreams.MetricState.Update | engine/detector.py:176-242 | the object's fields follow the specification step and its alert is the specified one |
| DetectorStreams.CusumDetector.Update | engine/detector.py:315-366 | feeds exactly the addressed stream, creating it when new; all other stream objects keep their values |
| DetectorStreams.CusumDetector.Reset | engine/detector.py:368-403 | drops exactly the streams of the model that match the given metric and suite, None matching all |
| DetectorStreams.StreamsAreIndependent | engine/detector.py:332-366 | under any interleaving a stream ends where its own samples alone would take it, and no other stream comes into being |
| DetectorStreams.ResetIsLocal | engine/detector.py:368-403 | after a reset the selected streams run on as fresh ones and the others as if nothing had happened |
| Bayes.PosteriorIsClosedForm | engine/correlation.py:425-446 | any sequence of conjugate updates gives the closed form in count, sum and sum of squares |
| Bayes.PosteriorIgnoresOrder | engine/correlation.py:425-446 | so the posterior depends on the multiset of observations only |
| BayesDetector.NewDetector | engine/correlation.py:329-385 | fails exactly when a hyperparameter is not positive or the hazard is outside (0, 1); otherwise starts with one hypothesis of mass one on the prior, all five lists of one length |
| BayesDetector.BayesianOnlineDetector.Update | engine/correlation.py:448-538 | the five lists stay of one length and hold the specified next hypotheses; the result is the specified mass, which for a new detector is the hazard rate whatever the value |
| BayesDetector.BayesianOnlineDetector.Extend | engine/correlation.py:497-523 | each new entry pairs its normalised mass with the update of its own predecessor |
| BayesDetector.BayesianOnlineDetector.Discard | engine/correlation.py:525-535 | pruning keeps exactly the entries at or above the threshold, or the first when there is none |
| BayesDetector.HypothesesAreSuffixes | engine/correlation.py:473-538 | through every pruning and reset each hypothesis is the posterior of one suffix of the observations since the last reset, lengths growing along the array except that two may both be the whole |
| BayesDetector.GrownIsDistribution | engine/correlation.py:473-503 | before pruning the masses are probabilities that sum to one |
| BayesDetector.AfterIsSubDistribution | engine/correlation.py:473-535 | after pruning the masses, not renormalised, are non-negative and total at most one, after every run |
| BayesDetector.AnswerIsProbability | engine/correlation.py:462-538 | the reported probability lies in [0, 1] whatever the stream |
| BayesDetector.FirstAnswerIsHazard | engine/correlation.py:478-505 | the first value, whatever it is, is reported to be a change with exactly the hazard rate's probability |
| BayesDetector.UpdateKeeps | engine/correlation.py:493-536 | an update keeps exactly the hypotheses of weight 1e-10 or more, or the newest alone when there is none; without any mass it restarts from the prior and reports 0 |
| BayesDetector.NeverResets | engine/correlation.py:493-501 | with positive predictives and a hazard strictly between zero and one the underflow reset is never taken |
| BayesDetector.PruningKeepsMass | engine/correlation.py:525-536 | below ten billion observations the keep-one fallback is never needed, and of each update's unit of mass pruning drops at most the threshold for each hypothesis weighed |
| BayesHistories.HistoriesAreAll | engine/correlation.py:473-503 | the reference sum ranges over every change-point history |
| BayesHistories.HistoriesAreDistinct | engine/correlation.py:473-503 | and counts each history once |
| BayesHistories.HistoriesHaveLength | engine/correlation.py:473-503 | there are 2^t of them after t observations |
| BayesHistories.GroupsPartition | engine/correlation.py:473-503 | grouping histories by their last change loses and duplicates no weight |
| BayesHistories.GroupRecurrence | engine/correlation.py:473-493 | a step sends all weight to group 0 by the change mass, and group r to group r + 1 by its own segment's predictive |
| BayesHistories.ArrayIsPosterior | engine/correlation.py:473-523 | while nothing is pruned, entry j is the share of all 2^t histories' weight that last changed j steps ago (entry t: never), with the posterior of their common segment |
| BayesHistories.AnswerIsPosterior | engine/correlation.py:473-538 | so the result is the exact posterior probability of a change at this observation, under the model in which each step changes with the hazard rate and predicts by the Student-t density with 2 alpha, mu and beta (kappa + 1) / (alpha kappa) |
| AgreementScorer.QuorumIsLeast | engine/correlation.py:127-154 | q(M) is the least integer at or above the floor with den * q >= num * M |
| AgreementScorer.QuorumGrowsSlowly | engine/correlation.py:127-154 | one more observer raises q by zero or one, for num <= den |
| AgreementScorer.QuorumMonotone | engine/correlation.py:127-154 | n more observers raise q by between zero and n |
| AgreementScorer.ShippedQuorum | engine/correlation.py:111-127 | with the shipped constants q is 3 exactly up to nine observers, and never less |
| AgreementScorer.Scorer.Observe | engine/correlation.py:651-687 | records the later of the old and new time for that org on that stream, and touches no other entry |
| AgreementScorer.Scorer.Ingest | engine/correlation.py:689-722 | every contributing org becomes an observer and, when a change was detected, an agreeing one; a later time is never overwritten by an earlier one |
| AgreementScorer.Scorer.PromoteToPublicAlert | engine/correlation.py:733-787 | returns the count of live agreeing orgs and empties the stream exactly when the quorum is met |
| AgreementScorer.Scorer.Clear | engine/correlation.py:789-812 | empties the agreeing side of one stream and keeps the observers |
| AgreementScorer.PromotionsAreCovered | engine/correlation.py:689-812 | over any run, what a stream promoted plus what is pending is at most the candidates ingested on it |
| AgreementScorer.EntriesAreBacked | engine/correlation.py:689-812 | each pending entry stems from a candidate of that org on exactly that stream which no promotion or clear has used up |
| AgreementScorer.CandidatesArePending | engine/correlation.py:689-722 | conversely an unused candidate is pending, at its own time or a later one |
| AgreementScorer.SightingsAreObserved | engine/correlation.py:651-722 | every sighting of an org, candidates included, is among the observers at its own time or a later one, whatever is promoted or cleared |
| AgreementScorer.ObserversWereSeen | engine/correlation.py:651-722 | and every observer's time is that of a sighting of exactly that org and stream |
| AgreementScorer.PromotionIsAgreement | engine/correlation.py:733-787 | a promotion's count is that many distinct orgs with unused candidates in the window, at least the floor and at least num/den of the live population |
| AgreementScorer.PromotesExactly | engine/correlation.py:733-787 | a check succeeds, with their number, if and only if some org agrees within the closed window and those that do reach the floor and num/den of the larger of their own and the observers' number |
| AgreementScorer.TooFewOrgsNeverPromote | engine/correlation.py:651-787 | with fewer org ids than the floor in the whole run no stream ever promotes |
| AgreementScorer.AlwaysWatched | engine/correlation.py:689-722 | over any run an agreeing org is observing, with a time no earlier |
| AgreementScorer.AgreeingAreObserving | engine/correlation.py:724-770 | with no event ahead of the clock, live agreeing orgs are live observers |
| AgreementScorer.ObservingNeverHelps | engine/correlation.py:651-787 | an added observation never creates a met quorum |
| AgreementScorer.AgreeingNeverHurts | engine/correlation.py:689-787 | an added agreeing candidate never destroys one |
| RedisScorer.RedisAgreementScorer.constructor | engine/scorer_redis.py:223-250 | the default floor is 3 |
| RedisScorer.RedisAgreementScorer.Observe | engine/scorer_redis.py:274-296 | writes the floored millisecond (the last write wins) and renews the key's expiry |
| RedisScorer.RedisAgreementScorer.Ingest | engine/scorer_redis.py:298-340 | writes each contributing org to the observer set and, when a change was detected, to the agreeing set; expiries are renewed; an empty list does nothing |
| RedisScorer.RedisAgreementScorer.PromoteToPublicAlert | engine/scorer_redis.py:342-387 | runs the script on the stream's two keys with floored times and turns 0 into None |
| RedisScorer.RedisAgreementScorer.Clear | engine/scorer_redis.py:389-407 | deletes the agreeing key only |
| RedisScorer.ObserveWrites | engine/scorer_redis.py:274-296 | afterwards the org stands at its millisecond and the set is due one backstop later, nothing else changed |
| RedisScorer.IngestWrites | engine/scorer_redis.py:298-340 | so stands every listed org among the observers and, exactly when a change was detected, among the candidates; all other members and keys keep their scores |
| RedisScorer.KeyCollision | engine/scorer_redis.py:163-195 | with colon-free metrics two streams share a key exactly when metrics agree and model:suite join to one text |
| RedisScorer.KeysInjective | engine/scorer_redis.py:163-195 | with colon-free models too, keys are equal exactly for equal streams |
| RedisScorer.ColonsCollide | engine/scorer_redis.py:163-180 | two different streams with one key, when a model holds a colon |
| RedisScorer.KindsApart | engine/scorer_redis.py:163-195 | an agreeing key is never an observer key |
| ScorerRefinement.BackstopOutlasts | engine/scorer_redis.py:246-250 | the idle-key eviction comes after the window it guards has closed, with room for clocks that differ by up to half the window less 500 ms |
| ScorerRefinement.BackstopIsTwice | engine/scorer_redis.py:246-250 | the eviction time is twice the window in whole seconds, at least one |
| ScorerRefinement.LiveSandwich | engine/scorer_redis.py:132-160 | memory's live set is within Redis's count, which is within memory's with the window widened by less than a millisecond; on whole milliseconds they are equal |
| ScorerRefinement.RunSandwich | engine/scorer_redis.py:132-160 | the same over whole runs with arbitrary nanosecond times, any server clock within the skew, and any evictions: for observers always, for candidates while both sides promoted that stream alike |
| ScorerRefinement.Simulation | engine/scorer_redis.py:274-407 | pruning, flooring, last-write and eviction by a skewed clock keep the sorted sets linked to the tables over every run |
| ScorerRefinement.RedisRefinesMemory | engine/scorer_redis.py:132-407 | on non-decreasing whole-millisecond times and colon-free keys, with the server's clock anywhere within the skew, every operation of every run returns the same on both scorers |
| ScorerRefinement.LateWriteExactly | engine/scorer_redis.py:293-296 | a write at or before the latest time keeps a table and its sorted set linked if and only if it does not turn that org's own time back by a millisecond |
| ScorerRefinement.LateCandidateExactly | engine/scorer_redis.py:327-387 | for every evaluation time: after a candidate and a late older one of one org, memory promotes if and only if the newer time is in the window, Redis if and only if the older one's millisecond is, under a quorum of one |
| Gateway.App.IngestSignals | gateway/main.py:763-1060 | one request: 401, 422 and 409 change nothing; otherwise the batch is stored and its lane fed, and the status is 202 |
| Gateway.App.IngestPrivate | gateway/main.py:868-952 | a private metric feeds its fleet's detector and may add a local alert of that fleet, nothing else |
| Gateway.App.IngestPublic | gateway/main.py:954-1050 | a public metric observes, feeds the global detector, and on an alert saves it, ingests it, promotes and clears, in that order |
| Gateway.StoreHoldsSent | gateway/main.py:846-863 | after any trace the store holds exactly the ids of its sound arrivals |
| Gateway.StoredOnce | gateway/main.py:846-863 | no batch id is ever stored twice |
| Gateway.ExactlyOnce | gateway/main.py:846-863 | store, detectors, scorer and alerts end as if each batch had arrived once, at its first arrival, however often it was re-sent |
| GatewayAlerts.AnswersExactly | gateway/main.py:796-863 | after any trace a request is answered 401 exactly when unsigned, 422 exactly when signed and invalid, 409 exactly when sound with an id a sound request had before, 202 exactly otherwise |
| GatewayAlerts.RowsOfFirsts | gateway/main.py:846-866 | the store holds in order a row for the first sound request of each id, with its model, suite, fleet and two of its metrics, the last of a repeated name |
| Gateway.LaneIsFedStored | gateway/main.py:863-1039 | a lane's detector has been fed the metrics of the batches stored on that lane, each once, in store order |
| Gateway.MetricIsLocal | gateway/main.py:868-1039 | a metric acts on its own lane's view, by that view only |
| GatewayAlerts.LocalAlertsAre | gateway/main.py:868-1010 | the local alerts of the public lane or of a fleet are exactly those of its own samples, each stored batch once and in order: a sample raises its own stream's alert, under the batch's client |
| Gateway.LanesInterfereExactly | gateway/main.py:846-1039 | deleting all other lanes' batches from any trace leaves a lane's detector, alerts and, for the public lane, scorer and public alerts unchanged if and only if no batch of the lane with metrics had its id soundly sent on another lane before the lane first sent it |
| Gateway.LossesCount | gateway/main.py:846-1039 | each stream then lacks exactly the values of the batches whose ids were taken, those it would have been fed alone |
| GatewayScorer.ScorerFollowsTrace | gateway/main.py:961-1039 | after any trace the scorer is where the operations of its accepted public batches take it, the public alerts are their successful promotions, and a stream's candidates are its local alerts |
| GatewayScorer.PublicAlertsAreCovered | gateway/main.py:987-1032 | what a stream's public alerts counted plus what is pending is at most its local alerts: each alerting metric is charged to at most one public alert |
| GatewayScorer.PublicAlertIsAgreement | gateway/main.py:1017-1027 | every public alert counts that many distinct clients with an unused alert on one stream in the window, at least the floor and the share of its live observers |
| GatewayScorer.QuorumNeverWaits | gateway/main.py:961-1039 | and none is held back: a local alert votes and is followed by a public alert if and only if the quorum is then met, which leaves no met quorum behind; a quiet metric only observes |
| Bootstrap.BootstrapDetector | gateway/main.py:251-285 | the nested replay feeds exactly the listed models' recent rows and counts every observation |
| Bootstrap.BootstrapStream | gateway/main.py:254-270 | a stream is then a fresh one fed its model's last 50 rows, oldest first, of its own suite; other metrics start cold |
| Bootstrap.RecentAreLastFifty | gateway/main.py:251-262 | a replay looks at exactly the last 50 rows of a model, or all of fewer |
| Bootstrap.BatchValues | gateway/main.py:961-986 | a batch gives each stream at most its one value |
| Bootstrap.StreamIsFed | gateway/main.py:251-285 | over any run of requests and restarts, a replayed stream is a fresh one fed the values among the model's last 50 rows at the last restart, whatever lane stored them, and the public ones since |
| Bootstrap.RestartInvisibleExactly | gateway/main.py:251-285 | over any run: unless the last 50 rows have moved past a value of the stream since the last restart, a restart leaves the stream as it is if and only if no private row since then stores a value for it; without such a row, if and only if they have not; while the baseline builds, if and only if replay feeds the same values in the same order |
| Bootstrap.SecondRestartInvisible | gateway/main.py:251-285 | a second restart in a row changes nothing, however much the first cut off |
| Bootstrap.NeverStoppedExactly | gateway/main.py:251-285 | whenever and however often the gateway restarted: unless the last restart cut off a public value, the stream is that of a process that never stopped if and only if that restart replayed no private one; and if it replayed none, if and only if it cut off no public one |
| Bootstrap.FewRowsNeverCut | engine/repository.py:766-773 | at most 50 rows of the model are enough for nothing to be cut off |
| Bootstrap.StoredOnceAcrossRestarts | gateway/main.py:846-863 | however often batches are re-sent and the gateway restarts, no batch is stored twice and the store is that of the first acceptances |
| SpoolNames.NamesAreFifo | probe/spool.py:244-244 | names sort by creation millisecond, and within one by batch id |
| SpoolNames.NameTellsId | probe/spool.py:244-244 | equal names are made for equal batch ids |
| SpoolNames.ListingUnique | probe/spool.py:276-283 | a directory has one sorted listing |
| SpoolNames.Sorted | probe/spool.py:276-283 | selection of the least name yields that listing |
| Spool.Spool.Put | probe/spool.py:221-259 | an unsound batch writes nothing; otherwise its file is written, over a namesake if any, and the cap applied |
| Spool.Spool.EnforceCap | probe/spool.py:261-270 | removes the least names beyond the cap |
| Spool.NewSpool | probe/spool.py:200-215 | no object if and only if the age or the cap is not positive |
| Spool.Spool.Scan | probe/spool.py:327-348 | removes expired files, moves damaged ones to quarantine, lists the rest in order, and raises on the first file whose load raises anything but ValueError |
| Spool.Spool.Drain | probe/spool.py:354-392 | directory, quarantine and every report list are as specified for any sequence of answers, among them the outcomes by status of Spool.DrainByStatus; or the scan's exception is passed on before anything is sent, exactly when some file cannot be loaded |
| Spool.DrainReportsExactly | probe/spool.py:291-348 | a drain returns a report if and only if every file can be loaded; a file of JSON that is no object cannot |
| Spool.BlockedDrainKeeps | probe/spool.py:291-348 | otherwise it sends nothing and keeps the first such file, every file after it and every deliverable one before, so the next drain raises too |
| Spool.CapKeepsGreatest | probe/spool.py:261-270 | at most max_files survive, unchanged, and each is greater than every file dropped |
| Spool.PutSurvives | probe/spool.py:221-270 | the batch just put survives exactly when fewer than max_files waiting names are greater |
| Spool.PutIsSent | probe/spool.py:221-348 | a file that survives holds the batch put and its time, and any later drain sends it if and only if it is no older than the maximum age |
| Spool.DrainPartitions | probe/spool.py:354-392 | when it reports, delivered, duplicate, quarantined, expired and remaining add up to the files present |
| Spool.DrainKeepsSuffix | probe/spool.py:371-392 | sends go in name order and what stays is the suffix of the sound files from the first transient failure on, byte for byte |
| Spool.DrainByStatus | probe/spool.py:371-392 | a drain goes on exactly through 202, 409 and the other statuses of the 400s and keeps the file of the first other answer or exception with all behind it; delivered are exactly the files answered 202, duplicate exactly those answered 409, and quarantined exactly the damaged ones and those answered otherwise in the 400s |
| Spool.DrainByAge | probe/spool.py:327-348 | it sends exactly the sound files no older than the maximum age and deletes exactly the sound older ones |
| Spool.DrainQuarantines | probe/spool.py:327-386 | quarantine gains exactly the damaged and the rejected files and loses none |
| Spool.AnsweredDrainEmpties | probe/spool.py:371-392 | with no transient failure a drain leaves no file if and only if every file can be loaded |
| Delivery.ServerIsItsLog | gateway/main.py:846-863 | over any run of lost requests, lost replies, probe crashes, gateway restarts and replays the gateway's state is that of its own log of requests and restarts |
| Delivery.DeliveredOnce | gateway/main.py:846-863 | so each batch is stored at most once, at its first acceptance, across every restart |
| Delivery.FedOnce | gateway/main.py:846-863 | within one lifetime of the gateway each batch is also fed to its lane's detector exactly once, in the order of first acceptance |
| Gateway.InterruptedFeedsPrefix | gateway/main.py:863-1050 | an ingestion cut short after the save has stored the row and fed a prefix of the metrics, and whatever arrives later that prefix is fed once and never completed |
| Gateway.HeldIsIgnored | gateway/main.py:847-863 | a trace runs as if no arrival carried an id that is already held |
| Delivery.AcknowledgedIsStored | gateway/main.py:846-863 | a 202 or 409 that comes from the gateway means the batch is in the store |
| Delivery.AlwaysSafe | probe/spool.py:354-392 | over any run, a batch removed on 202 or 409 is stored, and a spooled batch is waiting, stored, expired, evicted or quarantined |
| Delivery.SpoolingIsSafe | probe/sdk.py:675-715 | spooling after a transport error or 5xx keeps that |
| Delivery.DrainIsSafe | probe/spool.py:354-392 | and so does a drain under any pattern of lost and genuine replies |
| Delivery.HealthyDrainDelivers | probe/sdk.py:562-574 | one drain over a working network empties the spool if and only if every file can be loaded, and then the whole deliverable backlog is stored |
| FlushDelivery.BlockedFlush | probe/sdk.py:562-577 | a flush fails at its backlog if and only if some file cannot be loaded; then nothing is sent, nothing staged or spent changes, and the file is still there |
| FlushDelivery.BlockedForever | probe/sdk.py:562-577 | however often such a probe stages, flushes and restarts, the file stays, no batch leaves and the gateway hears nothing |
| FlushDelivery.FlushLogged | probe/sdk.py:629-732 | every release of a flush: on 202 or 409 its batch's id is acknowledged, on a transport error or 5xx spooled, and it has failed for good exactly on another exception or status |
| FlushDelivery.EveryResultAccounted | probe/sdk.py:505-740 | over any run with lost replies, rotting files and restarts on both sides, every result ever staged is staged, discarded by a refusal or probe restart, or in exactly one batch, and each batch that did not fail for good is stored, waiting, expired, evicted or quarantined |
| PrivacyBudget.NewAccountant | probe/privacy.py:244-325 | no object if and only if the budget is not positive; otherwise the saved spend if it can be read, in the saved window, or one from now if only the date cannot be read |
| PrivacyBudget.LoadedExactly | probe/privacy.py:305-325 | a saved budget survives a restart exactly; with a bad date the spend is kept and counts against the next 24 hours |
| PrivacyBudget.DPAccountant.Persist | probe/privacy.py:282-303 | the file afterwards equals the state, unless the write failed |
| PrivacyBudget.DPAccountant.SpendEpsilon | probe/privacy.py:333-363 | all or nothing: refused without change beyond the budget, and saved when spent |
| PrivacyBudget.DPAccountant.ResetIfNeeded | probe/privacy.py:365-385 | a new window from now, exactly when 24 hours have passed |
| PrivacyBudget.SpendNeverExceeds | probe/privacy.py:333-385 | over any run on a monotone clock a window's spend stays within the daily budget |
| PrivacyBudget.AnyDaySpendsAtMostTwice | probe/privacy.py:333-385 | attempts spanning at most 24 hours spend at most twice the budget |
| PrivacyBudget.AnyDayOfAnyRun | probe/privacy.py:333-385 | the same for any 24 hours in the middle of any run |
| PrivacyBudget.TwiceIsReached | probe/privacy.py:333-385 | for every budget, n spends it covers at the end of one window and n at the start of the next are all granted within a second: exactly twice the budget when it is a multiple of epsilon |
| PrivacyBudget.PacedNeverRefused | probe/privacy.py:393-437 | spends at the recommended interval are all granted, over unbounded time |
| PrivacyBudget.TooSmallNeverGrants | probe/privacy.py:333-363 | a budget below one epsilon grants nothing, ever |
| PrivacyBudget.PacingExact | probe/privacy.py:393-437 | pacing is never refused if and only if the daily budget covers one epsilon |
| PrivacyBudget.IntervalIsShare | probe/privacy.py:432-437 | the recommended interval fits 24 hours n times for the n flushes the budget just covers: n + 1 are more than it covers |
| PrivacyBudget.ShorterIsRefused | probe/privacy.py:333-437 | so no shorter interval works: at any, a run of evenly spaced flushes is not all granted |
| Aggregation.SubstitutionWithinSensitivity | probe/privacy.py:142-173 | replacing one record moves every metric present in both batches by at most base/n, lengths clamped and missing counters zero |
| Aggregation.SensitivityIsReached | probe/privacy.py:142-173 | and for every metric and n some substitution moves it exactly that far |
| Aggregation.SensitivityInFigures | probe/privacy.py:122-173 | that bound is 320/n for the length, 8192/n for a token counter and 1/n for a rate; an empty batch has none |
| Aggregation.JsonRateCounts | probe/privacy.py:679-679 | the JSON rate is the number of records with valid JSON over n |
| Aggregation.ToolRateCounts | probe/privacy.py:722-738 | the tool rate is given exactly when some record was asked for a tool call, and is the number of valid calls over all n |
| Aggregation.AveragesAdd | probe/privacy.py:673-771 | n times each average is the sum of its own counter over the records, cut to [0, 320] or [0, 8192], missing ones zero; token averages exist exactly when some record carries that counter |
| Aggregation.Aggregator.AddResult | probe/privacy.py:577-588 | appends to the model's own list, new models at the end |
| Aggregation.Aggregator.ClearAll | probe/privacy.py:590-603 | stages nothing any more |
| Aggregation.Aggregator.Flush | probe/privacy.py:605-791 | gives the model's results and removes just that model, or raises and leaves the queue as it was |
| Aggregation.AddedStages | probe/privacy.py:577-588 | the staged multiset gains exactly the result |
| Aggregation.RemovedStages | probe/privacy.py:605-791 | and loses exactly the flushed model's results |
| Aggregation.AddedJoinsItsModel | probe/privacy.py:577-588 | a result is appended to its own model's results and no other's; models stay in the order of their first result |
| Aggregation.RemovedTakesItsModel | probe/privacy.py:605-791 | a flushed model's results all go and every other model keeps its own |
| ProbeSdk.ProbeSDK.Flush | probe/sdk.py:577-740 | queue, budget, flush time, status and released batches are as specified, gate by gate, and each release's outcome is the one its own answer calls for |
| ProbeSdk.FlushConserves | probe/sdk.py:577-740 | each staged result is still staged or in exactly one released batch, unless the budget gate cleared the queue |
| ProbeSdk.FlushGates | probe/sdk.py:577-628 | a flush is a noop exactly with nothing staged, throttled exactly within the minimum interval of this process's last paid flush, and refused exactly when the running 24 hours' spend leaves no 2 epsilon; otherwise it pays exactly 2 |
| ProbeSdk.OutcomesByAnswer | probe/sdk.py:675-725 | accepted exactly on 202, duplicate on 409, spooled, with a spool, on a transport error or 5xx, and failed for good on everything else |
| ProbeSdk.FlushReleases | probe/sdk.py:629-740 | a flush past its gates releases, whole and in order, the entries before the first that mixes suites or whose post fails for good, and stops there: a failed post takes its entry along, a mixed entry stays with all behind it |
| ProbeSdk.SendsAllExactly | probe/sdk.py:629-740 | it sends everything if and only if every entry is of one suite and no post fails for good |
| ProbeSdk.AlwaysStaged | probe/sdk.py:577-740 | no run leaves an empty entry staged |
| ProbeSdk.MixedHeadStarves | probe/sdk.py:584-634 | once the oldest model's results mix two suites, no flush of any run of adds and flushes releases anything for any model, and each that is not throttled pays, until a budget refusal or a restart discards the queue |
| ProbeSdk.RunFollowsAccountant | probe/sdk.py:590-624 | over any run of adds and flushes the budget is the accountant's on the attempts that reach it, and releases are covered by grants |
| ProbeSdk.DayOfReleases | probe/sdk.py:590-624 | within 24 hours at most daily_budget flushes release anything |
| ProbeSdk.PacedProbeRefusedExactly | probe/sdk.py:584-624 | with a minimum interval at or above the recommended one, over any run with restarts and drifting clocks, a flush that reaches the budget is refused if and only if the window already holds all the flushes the budget covers, and that takes a restart in the same window |
| ProbeSdk.PacedProbeNeverSleeps | probe/sdk.py:584-624 | so a paced probe that is not restarted is never refused |
| Canary.ExecuteCanary | probe/canary.py:1264-1411 | returns one result per prompt, prompt i answered by call i, or raises the first failure having called no further |
| Canary.ResultSaysWhatWasSaid | probe/canary.py:1330-1411 | each field of a result by the completion: hash and length of the tool calls or text, JSON and tool validity only where the prompt asks for them, latency and both token counters |
| Canary.TryPrompt | probe/canary.py:1688-1725 | the retry loop ends against any provider, in the specified state |
| Canary.ExecuteCanaryStrict | probe/canary.py:1566-1729 | misconfiguration is reported before any call or sleep; otherwise results, calls and every sleep are as specified, and results are returned only if none is missing |
| Canary.SleepIsAccounted | probe/canary.py:1539-1563 | total sleep is exactly the pacing part plus the backoff spent, which stays within its ceiling |
| Canary.SleepWithinBudget | probe/canary.py:1539-1563 | no provider makes a run sleep longer than pacing_budget_ms |
| Canary.CallsAreBounded | probe/canary.py:1678-1725 | every prompt is tried, and calls are at most n * (max_retries + 1) |
| Canary.RetriesExactly | probe/canary.py:1502-1725 | a prompt is tried again exactly after a provider error of status 429 or 503 with retries and backoff left, having waited for the doubled base or what the ceiling leaves |
| Canary.BackoffDoubles | probe/canary.py:1523-1536 | the waits asked for start at the base and double |
| Canary.PromptsPartition | probe/canary.py:1675-1728 | completed and failed ids partition the suite, each in suite order |
| Canary.CompleteIsWholeSuite | probe/canary.py:1727-1729 | a complete run has one result per prompt in order, each from an attempt at that prompt; results are missing exactly when a prompt failed |
| Canary.CleanRunIsPlainRun | probe/canary.py:1566-1729 | with no failure the strict run gives the plain run's results and calls, no backoff, and n - 1 pacing sleeps |
| Canary.DelayOnlySleeps | probe/canary.py:1678-1729 | pacing changes sleeps and nothing else, for every provider |
| Canary.OutageSpends | probe/canary.py:1688-1725 | against an endless rate limit the backoff spent is exactly the lesser of the ceiling and n * base * (2^retries - 1), and every prompt fails |
| Canary.PacingBudgetIsReached | probe/canary.py:1539-1563 | so the pacing budget is tight: a long enough suite under such an outage sleeps for exactly it |
| Canary.ShortOutagesAreSurvived | probe/canary.py:1688-1725 | transient outages no longer than max_retries calls never fail a prompt, given backoff room for all |
| Combinatorics.Absorption | probe/compare.py:502-511 | k C(n,k) = (n-k+1) C(n,k-1), the identity behind the equal weights |
| Permutation.CrossAt | probe/compare.py:498-499 | the cross distances list the distance of every element of one side to every one of the other |
| Permutation.StatIsEnergy | probe/compare.py:493-511 | for a symmetric distance with zero diagonal the statistic is the energy distance: the mean distance across less half the mean over ordered pairs of different elements on each side |
| Permutation.TotalIsWeighted | probe/compare.py:514-529 | double counting: over all splits, cross and within distances total their binomial weights times the pool's |
| Permutation.TableSumsToZero | probe/compare.py:502-529 | with two repeats a side and a symmetric distance the statistic sums to exactly zero over all splits |
| Permutation.TableStartsWithObserved | probe/compare.py:522-528 | the first entry is the observed statistic |
| Permutation.SplitsByIndex | probe/compare.py:522-524 | index combinations with the complement on the right stand for the splits of the values |
| Permutation.SplitStats | probe/compare.py:514-529 | the loop over index combinations yields that table, or [0.0] for a pool at distance zero |
| Permutation.ShortcutAgrees | probe/compare.py:519-520 | in that case full enumeration holds nothing but 0.0 |
| Permutation.NullIsCentred | probe/compare.py:547-557 | drawing from tables that sum to zero, the total over all joint draws is zero |
| Permutation.PermutationNullIsCentred | probe/compare.py:532-557 | so the null distribution the p-value is read from is centred |
| Permutation.PermutationP | probe/compare.py:532-558 | for all choices the generator makes: one plus the number of rounds whose drawn entries' mean reaches the observed one to within 1e-12, over one plus the rounds; 1 without items |
| Permutation.PermutationPIs | probe/compare.py:546-558 | the specified p-value is that share, tables of a single entry included |
| Permutation.RoundAddsPicked | probe/compare.py:551-555 | a round adds up exactly the entries at the places the generator gives, one per table, and needs none for a single entry |
| Permutation.RoundsDrawFromNull | probe/compare.py:547-557 | the choices of one place per table correspond one to one to the places of the joint null, each holding the total of exactly the entries chosen |
| Permutation.PValueRange | probe/compare.py:546-558 | the p-value lies between 1/(1 + rounds) and 1 and is 1 exactly when the tables are degenerate or every round reaches the observed mean |
| Permutation.HitsFall | probe/compare.py:551-558 | against the same draws a larger observed mean has no more hits and no larger p-value |
| Permutation.PValueIsRank | probe/compare.py:551-558 | the p-value is the observed mean's rank, within the tolerance, among itself and the drawn means |
| Permutation.FewRankLow | probe/compare.py:551-558 | of any 1 + rounds values at most k have such a p-value of at most k/(1 + rounds) |
| Permutation.ObservedAlwaysHits | probe/compare.py:551-558 | draws that keep the observed labels give p = 1 |
| QuorumBound.BinomSfGe | scripts/experiment_quorum_bound.py:57-66 | the loop computes the upper binomial tail |
| QuorumBound.WholeTail | scripts/experiment_quorum_bound.py:57-66 | the tail from zero is one |
| QuorumBound.TailFalls | scripts/experiment_quorum_bound.py:57-66 | the tail is a probability and falls with the quorum |
| QuorumBound.TailRecurrence | scripts/experiment_quorum_bound.py:57-66 | one more observer mixes the two neighbouring tails by p |
| QuorumBound.TailRisesWithProbability | scripts/experiment_quorum_bound.py:57-66 | it rises with the probability |
| QuorumBound.TailRisesWithPopulation | scripts/experiment_quorum_bound.py:57-66 | and with the population |
| QuorumBound.QMinFp | scripts/experiment_quorum_bound.py:69-74 | the first hit: a quorum meets the false-alarm bound exactly from it on |
| QuorumBound.QMaxPower | scripts/experiment_quorum_bound.py:77-83 | the last hit: a quorum has the power exactly up to it |
| QuorumBound.FeasibleBand | scripts/experiment_quorum_bound.py:69-83 | both constraints hold exactly on the interval between the two, and somewhere exactly when it is not empty |

## Left out

- HTTP, signatures, hashes, base64, JSON, SQL and the Redis transport: stores are sequences, sets and maps, the script is one atomic step, and verification results are inputs.
- Randomness: Laplace noise is not added, and permutation draws are an arbitrary function of round, item and table size.
- IEEE-754 rounding and `lgamma`/`exp`/`log`: arithmetic is over `real`, the square root is a function assumed only to be one, and the predictive density is any non-negative (where said, positive) function.
- Alert timestamps and labels, log lines, telemetry spans, webhooks, audit export, dashboard, command lines, prompt corpora and mock texts.
- Multi-worker gateways and concurrent spool writers: the source states single-process and single-writer assumptions.
- `Side.ask`, `run_calls`, `evaluate_metric` (probe/compare.py), `_compute_model_weather` and `_scorable_json_rate` (gateway/main.py), `shipped_q` (whose default denominator 2 differs from the engine's 3).
- The CUSUM stub in engine/correlation.py:242-273, which only raises.
- Gateway.App.IngestSignals: an exception after the batch is saved is in `Gateway.InterruptedFeedsPrefix`, at metric boundaries only; fleets' detectors are held as values in a map rather than as objects, so aliasing between fleets is not captured.
- Bootstrap.RestartInvisibleExactly: past the baseline, when private values came in and as many values were newly cut off, the condition is left to the values: two different histories may happen to reach one state.
- ScorerRefinement.LateCandidateExactly: is about two candidates of one org under a quorum of one; which late writes change an answer under other quorums depends on the other orgs.
- ProbeSdk.ProbeSDK.Flush: the drain it begins with, which may raise, is in `FlushDelivery.Flush`.
- ProbeSdk.PacedProbeRefusedExactly: restarts find the spend they left; a probe without a storage path starts each process with a full budget.
- Spool.DrainPartitions: a drain whose scan raises makes no report; that case is `Spool.BlockedDrainKeeps`, and likewise for the other lemmas about a report.
- Delivery.AlwaysSafe: only the gateway answers 202 or 409; a proxy that invented one would lose a batch.
- Canary.ExecuteCanary: results carry no timestamp.
