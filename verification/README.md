# A verified model of the air-traffic conflict advisory pipeline

This project models, in Dafny, the decision-making parts of a pipeline that turns noisy surveillance
reports into tracks, tracks into predicted conflicts, and conflicts into advisory alerts, and proves what
those parts promise. Everything is over the mathematical reals; the square root, the matrix inverse, the
map projection and the probability laws are supplied by the platform and enter as parameters, with the
facts relied on written out as preconditions or in the parameter's type.

The files follow the program:

- **Conflict detection** (`separation.py`, `probability.py`). `Windows` solves the two breach intervals,
  `Separation` is the test of one pair, `Resolution` the rates at which it is exact, `Geometry` what its report
  means, `Scan` the grid search over the whole picture. A conflict is *both standards breached at the same
  moment*; the interval arithmetic, the vertical pre-rejection and the grid are each proved to decide exactly
  that. `Probability` is the series behind the probabilistic mode and its two tests, `Truncation` what cutting
  the series off can do, `Weighing` what that mode decides: when the cheap rejection may stand before it, and
  when it agrees with the deterministic test; `Passing` is the motion that makes the difference.
- **Tracking** (`kalman.py`). `Matrix`, `Blocks`, `Kalman`, `KalmanUpdate`, `KalmanFilter` and `TrackFilters`
  take the filter as the program writes it, with six-by-six matrices filled by index, a
  measurement vector built from the fields present, an inverse and a Joseph update, and prove that it computes
  on three independent (position, rate) blocks. `Propagation` says what running it forward does in the units of
  its states, `Information` what a correction does with no gains in the statement, `Readings` what of a report
  goes where. `FilterRuns` is what follows for every run: the covariance stays positive definite with
  non-negative cross terms, which is why coasting makes every uncertainty grow.
- **The tracker service** (`estimator.py`, `track/runner.py`, `stores.py`, ADR 0011). `Estimator` is the track
  lifecycle and `TrackRuns` what it amounts to over any run of reports and sweeps, `TrackLabels` what it
  carries, announces and when it is there, `Tracker` the runner and its critical sections, `Ownership` one
  replica with a fair lock and a queue of waiting sections, `Replicas` any number of them under a broker that
  hands a partition over only after its old owner's release section. `PrunedNote` is a complete run showing what
  goes wrong when a sweep prunes the partition note of an aircraft whose first report is still waiting.
  `TrackStores` is the history table and the live picture, `LivePicture` and `LiveRuns` what sections, and runs
  of many replicas, leave in the latter.
- **Alerts** (`alerts.py`, `conformance/runner.py`, `monitor.py`, `stores.py`). `Alerts` is the lifecycle
  manager, `AlertHistory` says what it amounts to over a history of scans with no machine in the statement,
  `AlertIdentity` which alerts share an identifier and exactly what is published when, `AlertStore` that the
  folded stream is the manager's state, `AlertExpiry` exactly when none of it expires. `Monitor` is the queue of
  predictions awaiting comparison, `Conformance` the service that ties them together, `Presented` in which order
  that service shows the monitor a track's updates. `Rules` are the single-aircraft rules, `Advisories` what one
  scan detects under which key, `AlertMeaning` what an active alert says of the aircraft it names. `Handover`
  compares the uncertainty a track is announced with and what the detector makes of it.
- **Transport and simulation** (`messaging.py`, `engine.py`, `geodesy.py`). `Messaging` is the
  commit-after-handle loop through crashes, `Simulator` the firing of plan commands and the rate-limited chases,
  `Flight` where an aircraft is after any run of steps.

Track identifiers and alert keys are strings in the program. The detector orders them, and there they are
strings here too; elsewhere only their equality matters and they are an abstract type. A track identifier is
its aircraft's address with a fixed prefix, so the address stands for both.

Where code and documentation part, the code is followed: a condition is cleared by the first missed scan both
when one and when zero missed scans are configured; a prediction is compared from three seconds *before* it
falls due; a plan command at time zero never fires.

Where a promise does not hold of the code, the input is given and the exact condition proved:

- Rates below 1e-12 are read as zero by the detector. It is exact for all pairs with given relative rates, wherever
  they are, if and only if the squared speed and the vertical rate are each zero or at least that
  (`Resolution.ExactExactlyWhenResolved`); otherwise a breach is lost or one is invented.
- The cheap rejection is said to be exact because the probability is zero beyond nine standard deviations. The
  cutoff is the horizontal test's only; the vertical test keeps the normal tail, so the rejection is exact
  precisely when the threshold is no lower than that tail (`Weighing.RejectionNeverOverrules`).
- Tracks without uncertainty are said to be judged as the deterministic test judges them. They are, but for a
  pair that crosses both vertical levels within the lookahead, inside the horizontal standard in between
  (`Weighing.CertainPairsMatchDeterministic`).
- An announced estimate is for the time it is announced for if and only if that time is no older than the track's
  latest report and no silence of that life was announced before (`TrackRuns.AnnouncedEstimateIsForItsTime`).
  Coasting moves a filter forward without moving the time of its last report, so every announced silence is counted
  again by whatever comes next, the announcement of the termination included; and a report overtaken by a later one
  is announced for its own time with the later estimate.
- The scan clock may lead the wall clock, and heartbeats run on the one while entries expire on the other, so an
  active alert can lapse from the store (`AlertExpiry.NothingLapsesExactlyWhenCovered`). One such run is a replay
  that stops: the scan clock stands at the newest data time, nothing is stale by it, and no alert is republished
  until the wall clock catches up.
- A track that is terminated and comes back before the next scan can show the monitor an older update
  (`Presented.PresentedInOrder`).
- Listing the plan out of time order, an older batch of history, and a report of an unknown aircraft overtaken by
  a sweep are shown to break what they break by concrete runs.

## Model

| member | source | states |
|---|---|---|
| Windows.QuadraticBelowExact | src/acp/services/conformance/separation.py:101-120 | A time is in the returned interval exactly when the polynomial (its tiny coefficients read as zero) is negative then |
| Windows.LinearWithinExact | src/acp/services/conformance/separation.py:123-132 | A time is in the returned interval exactly when the line is within the limit then, and the interval is well formed |
| Windows.OverlapExact | src/acp/services/conformance/separation.py:135-143 | An overlap is reported exactly when the two open windows and the closed lookahead share a moment; every time between its ends belongs to all three and none outside them does |
| Separation.WindowExact | src/acp/services/conformance/separation.py:462-468 | The pair has a conflict window exactly when some moment of the lookahead is inside both standards; but for its ends the window is exactly those moments |
| Separation.RejectedStaysClear | src/acp/services/conformance/separation.py:421-429 | A pair the cheap rejection drops stays outside the vertical standard, by the slack, at every moment of the lookahead |
| Separation.RejectionIsExact | src/acp/services/conformance/separation.py:406-429 | With and without the cheap rejection the pair test returns the same answer, for pairs judged by probability whenever the threshold is no lower than the normal tail beyond the cutoff |
| Separation.SigmaGrows | src/acp/services/conformance/probability.py:172-184 | Relative uncertainty does not shrink with the time over which it is projected |
| Separation.DecidesSnappedBreach | src/acp/services/conformance/separation.py:406-494 | The deterministic test reports a pair exactly when one moment is inside both standards, rates under the tolerance read as zero |
| Separation.DetectsExactlySimultaneousBreach | src/acp/services/conformance/separation.py:451-493 | For rates that are zero or at least the tolerance: reported exactly when some moment of the lookahead is strictly inside both standards |
| Separation.WeighedPairsAreJudgedByProbability | src/acp/services/conformance/separation.py:490-495 | With both tracks' uncertainties known and such a threshold, a pair is reported exactly when the program's own conflict probability reaches the threshold |
| Weighing.RejectionNeverOverrules | src/acp/services/conformance/separation.py:421-429 | The rejection drops no pair the probabilistic test would report exactly when the threshold is at least the normal tail beyond nine standard deviations |
| Weighing.OverruledPair | src/acp/services/conformance/separation.py:421-429 | Under any lower threshold there is a pair the probabilistic test reports and the rejection drops |
| Weighing.CertainPairsMatchDeterministic | src/acp/services/conformance/separation.py:470-495 | Tracks known without uncertainty are reported by the probabilistic test exactly when the deterministic one reports them and they do not pass through the whole vertical band inside the horizontal standard (rates zero or at least the tolerance) |
| Passing.CrossingIsPassing | src/acp/services/conformance/separation.py:462-488 | For such rates the altitude difference is at or beyond the standard at both ends of the conflict window exactly when the pair crosses both levels within the lookahead, no further apart than the horizontal standard at either crossing and nearer half way between |
| Weighing.CrossingPairIsMissed | src/acp/services/conformance/separation.py:482-495 | Two such tracks pass through each other's level, the deterministic test reports them and the probabilistic one does not |
| Resolution.ExactExactlyWhenResolved | src/acp/services/conformance/separation.py:406-494 | At given relative rates the deterministic test reports exactly the pairs that breach, wherever they are, if and only if squared speed and vertical rate are each zero or at least the tolerance |
| Resolution.UnresolvedIsMisjudged | src/acp/services/conformance/separation.py:101-132 | For any other rates there is a position from which reading them as zero loses a breach or invents one |
| Separation.UnresolvedRateIsMissed | src/acp/services/conformance/separation.py:108-112 | A pair with a closing rate under the tolerance breaches both standards within the lookahead and is not reported |
| Geometry.ClosestIsMinimal | src/acp/services/conformance/separation.py:441-449 | For rates that are zero or at least the tolerance, the clamped time of closest approach gives the least horizontal distance over any window |
| Geometry.EndsAreMinimalExactlyWhenSideKept | src/acp/services/conformance/separation.py:482-488 | The smaller end of a window is its vertical minimum exactly when the altitude difference keeps its side |
| Geometry.ReportedGeometry | src/acp/services/conformance/separation.py:470-497 | For such rates and a report with a window, as every deterministic one is: the time lies in the window, the distance is the window minimum and below the standard, and the vertical value is the minimum exactly when the side is kept |
| Geometry.ReportedNearMiss | src/acp/services/conformance/separation.py:476-481 | A report without a window gives the time of closest approach in the lookahead and both distances then |
| Geometry.ReportedNow | src/acp/services/conformance/separation.py:497-513 | Every report names the two, says how far apart they are now and by which standards it was judged |
| Geometry.PairOrderIsIrrelevant | src/acp/services/conformance/separation.py:406-497 | Testing the pair in the other order reports the same conflict with the names exchanged |
| Geometry.BeyondRadiusIsNeverReported | src/acp/services/conformance/separation.py:295-303 | A pair further apart along an axis than the interaction radius, closing at no more than 1200 kt, is never reported |
| Scan.PairKeyIsUnordered | src/acp/services/conformance/separation.py:331-336 | Two pairs share a key exactly when they are the same unordered pair |
| Scan.PairKeyIsSorted | src/acp/services/conformance/separation.py:331-336 | A pair's key lists its two identifiers in dictionary order |
| Scan.NonAdjacentIsFar | src/acp/services/conformance/separation.py:314-327 | Tracks in cells that do not touch are further apart than the interaction radius |
| Scan.FillBuckets | src/acp/services/conformance/separation.py:314-317 | Every state is filed under its own cell, and each cell holds only states of its own |
| Scan.CandidatePairs | src/acp/services/conformance/separation.py:305-339 | The pairs are drawn from the states, repeat no key, and are exactly those in touching cells |
| Scan.GridFindsNearPairs | src/acp/services/conformance/separation.py:233-253 | Whatever the order of the list, and in either mode, the grid search finds the conflicts between touching cells |
| Scan.GridIsExact | src/acp/services/conformance/separation.py:233-253 | When every pair of eligible tracks is judged deterministically and closes at no more than 1200 kt, those are all the conflicts |
| Scan.SortIsStable | src/acp/services/conformance/separation.py:251-253 | Sorting keeps conflicts of equal time in the order they were found |
| Scan.ScanPicture | src/acp/services/conformance/separation.py:233-253 | One scan reports real conflicts only, soonest first, no pair twice; with distinct identifiers all those between touching cells, and on a scannable picture exactly those an all-pairs search reports |
| Scan.OrderOfPictureIsIrrelevant | src/acp/services/conformance/separation.py:233-253 | For distinct identifiers, the scans of a list and of any reordering report the same keys, times and minima, and the same time in every place of the list, pairs judged by probability and fast pairs included |
| Scan.ScanReportsExactlyTheBreaches | src/acp/services/conformance/separation.py:233-253 | On a scannable picture, a pair seen often enough is on the list a scan returns exactly when it will be inside both standards at one moment (rates zero or at least the tolerance) |
| Probability.SurvivalIsTail | src/acp/services/conformance/probability.py:153-155 | The reversed cumulative sum, shifted, holds at each index the sum of everything above it |
| Probability.RaceIsDoubleSum | src/acp/services/conformance/probability.py:152-158 | The dot product is the double sum over outcomes in which the second count exceeds the first |
| Probability.RaceIsProbability | src/acp/services/conformance/probability.py:157-158 | For laws cut off anywhere the sum already lies in [0, 1], so clipping changes nothing |
| Probability.LargerFirstCountLowersRace | src/acp/services/conformance/probability.py:152-158 | A stochastically larger first law cannot raise the result |
| Probability.LargerSecondCountRaisesRace | src/acp/services/conformance/probability.py:152-158 | A stochastically larger second law of the same mass cannot lower it |
| Truncation.WiderMissGainsDroppedAtMost | src/acp/services/conformance/probability.py:118-158 | For any two misses, the wider seems likelier to be a loss of separation, if at all, by no more than what the second counting law weighs among the terms summed for the wider miss only |
| Truncation.WiderMissIsNoLikelier | src/acp/services/conformance/probability.py:118-158 | It is never likelier inside the radius, past the cutoff, and between them wherever no more terms are summed for it |
| Truncation.MoreTerms | src/acp/services/conformance/probability.py:144-158 | Summing more terms cannot lower the race, and raises it by no more than the weight the second law had left out |
| Probability.ConflictIsProbability | src/acp/services/conformance/probability.py:187-206 | The combined value is the product of the two tests', and a probability no larger than either |
| Truncation.DiscIsRace | src/acp/services/conformance/probability.py:118-158 | The horizontal test is none or all beyond nine standard deviations and otherwise the race of two counts whose means are half the squares of miss and radius in standard deviations |
| Truncation.BandIsBetween | src/acp/services/conformance/probability.py:161-169 | The vertical test is the normal law between the two ends of the band in standard deviations |
| Probability.OffsetSignIsIrrelevant | src/acp/services/conformance/probability.py:196-201 | The sign of the altitude difference does not change the answer |
| Probability.ConflictBeyondCutoff | src/acp/services/conformance/probability.py:161-206 | Nine standard deviations outside the band a conflict is less likely than the normal tail there, and not impossible |
| Matrix.InverseIsUnique | src/acp/services/track/kalman.py:290-291 | A matrix with a left inverse has no other right inverse, so any inverse the platform returns is the same one |
| Blocks.PredictionGrows | src/acp/services/track/kalman.py:217-230 | Predicting a block keeps it positive definite with a non-negative cross term and strictly raises both variances |
| Blocks.GainsSolve | src/acp/services/track/kalman.py:290-291 | The gains solve the normal equations for whichever of the block's two states were measured |
| Blocks.JosephIsCorrected | src/acp/services/track/kalman.py:294-300 | Entry by entry, the Joseph form of a block is what `(I - KH)P` leaves of it |
| Blocks.CorrectionLowersVariance | src/acp/services/track/kalman.py:279-300 | A correction raises neither variance of the block and strictly lowers those measured |
| Blocks.MeasuredBelowSensor | src/acp/services/track/kalman.py:279-300 | A measured position variance ends strictly below the measurement variance |
| Blocks.CorrectionKeepsGood | src/acp/services/track/kalman.py:279-300 | Correcting with any subset of measurements keeps the block positive definite with a non-negative cross term |
| Kalman.Transition | src/acp/services/track/kalman.py:179-185 | The matrix filled by index couples each position with its own rate alone: a 3600th of the interval for the two velocities, a 60th for the vertical rate |
| Kalman.ProcessNoise | src/acp/services/track/kalman.py:187-215 | The matrix filled by index is three independent noise blocks, each that of an unknown constant acceleration in the units of its pair |
| Kalman.PredictionDecouples | src/acp/services/track/kalman.py:228-230 | Predicting the six-by-six covariance is predicting its three blocks |
| Kalman.NegativeCrossTermCanShrink | src/acp/services/track/kalman.py:217-230 | With altitude and vertical rate negatively correlated, one second of coasting at the default tuning lowers the altitude variance |
| KalmanUpdate.InnovationIsInvertible | src/acp/services/track/kalman.py:289-291 | The innovation covariance has a two-sided inverse for any subset of measured states |
| KalmanUpdate.PlatformInverseIsBlockInverse | src/acp/services/track/kalman.py:290-291 | Whatever inverse the platform computes is the block inverse |
| KalmanUpdate.GainEntries | src/acp/services/track/kalman.py:290-291 | Each entry of the matrix gain is the gain of its own block |
| KalmanUpdate.CorrectionDecouples | src/acp/services/track/kalman.py:294-300 | The Joseph update of the matrix is the correction of its three blocks |
| KalmanUpdate.JosephIsTextbook | src/acp/services/track/kalman.py:294-300 | For the gain actually used, the Joseph form and `(I - KH)P` are the same matrix |
| KalmanFilter.MeasurementRows | src/acp/services/track/kalman.py:253-278 | The rows appended list every state the report measures exactly once, with its value and variance, position first |
| KalmanFilter.CorrectionOfMean | src/acp/services/track/kalman.py:285-292 | Gain times innovation moves each state by its own pair's surprises only |
| TrackFilters.TrackFilter.constructor | src/acp/services/track/kalman.py:128-175 | A new filter holds the initial state and a diagonal covariance of the squares of the six initial standard deviations |
| TrackFilters.TrackFilter.Predict | src/acp/services/track/kalman.py:217-230 | Knots carry the position in nautical miles, feet per minute the altitude in feet, no rate changes, and variances and cross terms grow by rate and noise in those units; a non-positive interval changes nothing |
| TrackFilters.CoastingPropagates | src/acp/services/track/kalman.py:217-230 | The same of the belief the object amounts to |
| FilterRuns.CoastingIsDeadReckoning | src/acp/services/track/kalman.py:217-230 | However coasting is cut into intervals, it carries position and altitude on at their own rates over all the time spent, and changes no rate |
| TrackFilters.TrackFilter.Update | src/acp/services/track/kalman.py:232-300 | The object's state becomes the coasted belief with the report folded in, innovation distance included |
| TrackFilters.FoldingKeepsGood | src/acp/services/track/kalman.py:279-300 | No variance of the filter rises in a correction and every measured one falls strictly |
| TrackFilters.FoldingBeatsTheSensor | src/acp/services/track/kalman.py:279-300 | After a correction each horizontal position variance is below the measurement variance |
| Information.FoldingAddsInformation | src/acp/services/track/kalman.py:253-300 | A correction adds to the inverse covariance of each pair one over the variance of each reading present, moves the two states by the corrected covariance times that times how far each reading was off, and records the distance of the reported position from the predicted one |
| Information.InformationSettles | src/acp/services/track/kalman.py:279-300 | No other covariance satisfies that |
| Information.UpdatePropagatesAndAdds | src/acp/services/track/kalman.py:232-300 | A whole update is dead reckoning to the report's time and then that |
| Readings.MeasurementReads | src/acp/services/track/estimator.py:189-199 | Position is read in the track's own plane, velocity as speed times the direction of the track when both are reported, altitude and vertical rate as they are |
| Readings.FirstEstimateIsReport | src/acp/services/track/estimator.py:142-180 | A track's first estimate agrees with its first report in every state the report measures, holds zero where it has nothing, and is as uncertain as the tuning says |
| Readings.NoSurpriseNoMove | src/acp/services/track/kalman.py:279-292 | A report of what the filter already holds moves no state |
| FilterRuns.ObjectCovariance | src/acp/services/track/kalman.py:179-300 | The matrix of any valid filter object is symmetric, block diagonal, positive definite, with non-negative position and rate cross terms |
| FilterRuns.StepsStayReachable | src/acp/services/track/kalman.py:217-300 | A prediction or correction of a reachable state is reachable |
| FilterRuns.CoastingRaisesUncertainty | src/acp/services/track/kalman.py:217-230 | From every reachable state coasting strictly raises every variance and all four reported uncertainties |
| FilterRuns.CorrectionBoundsUncertainty | src/acp/services/track/kalman.py:232-332 | After a correction from any reachable state the reported position uncertainty is below the sensor's over both axes |
| FilterRuns.DefaultBound | src/acp/services/track/kalman.py:68-87 | With the default tuning that bound is the square root of two times 30 m |
| Handover.DetectorReadsTheFilter | src/acp/services/conformance/separation.py:340-364 | What the detector reads off an announced track squares to the filter's own variances, the horizontal ones averaged over the two axes |
| Handover.HorizontalVarianceOfPair | src/acp/services/conformance/probability.py:172-184 | The horizontal variance it projects for a pair is the sum of both position variances and of both velocity variances in nautical miles over the time |
| Handover.VerticalVarianceOfPair | src/acp/services/conformance/probability.py:172-184 | The vertical one is the same in feet |
| Handover.DetectorIsOptimistic | src/acp/services/conformance/probability.py:172-184 | Both are below what coasting the two filters to that time would give, the vertical one by exactly the cross terms and the process noise left out |
| Estimator.TrackEstimator.OnReport | src/acp/services/track/estimator.py:108-117 | A report initiates or updates its own track and changes no other; the update announces the result |
| Estimator.TrackEstimator.Sweep | src/acp/services/track/estimator.py:119-140 | Every track is aged by the clock; exactly those whose state changed are announced, once each |
| Estimator.TrackEstimator.PruneTerminated | src/acp/services/track/estimator.py:272-282 | Exactly the tracks terminated before the cutoff are dropped |
| Estimator.TrackEstimator.Release | src/acp/services/track/estimator.py:293-313 | Exactly the named aircraft are dropped |
| Estimator.OldReportChangesNothing | src/acp/services/track/estimator.py:184-188 | A report no newer than the last leaves a live track's record exactly as it was |
| Estimator.RedeliveryIsIdempotent | src/acp/services/track/estimator.py:108-117 | Handling the same report twice in a row is handling it once |
| Estimator.AnnouncedSilence | src/acp/services/track/estimator.py:126-140 | With positive timeouts in order, a track a sweep announces has been silent for the stated time and is less certain than before |
| TrackRuns.OperationsActOnEachTrack | src/acp/services/track/estimator.py:108-140 | Reports, sweeps and prunings act on each track as the run model says, a report on its own track only |
| TrackRuns.TrackLives | src/acp/services/track/estimator.py:108-228 | Over any run of reports, sweeps and prunings a track counts the fresh reports since it was last started, stands at the latest, is terminated or coasting exactly when a sweep since then found it silent so long, and is otherwise confirmed when enough have come |
| TrackRuns.FilterIsRunOfOps | src/acp/services/track/estimator.py:142-245 | The filter is the one its life began with, put through the corrections of its fresh reports and the coastings of its announcements |
| TrackRuns.SpanOfFilter | src/acp/services/track/estimator.py:181-245 | It has been run forward over the time from the first to the latest report, and besides over every silence a sweep announced |
| TrackRuns.AnnouncedEstimateIsForItsTime | src/acp/services/track/estimator.py:230-245 | An announced estimate has been run forward from the first report to the later of the announced time and the latest report, and besides over every silence of that life announced before; so to exactly the announced time if and only if that is no older than the latest report and no such silence was announced |
| TrackRuns.OvertakenReportIsAnnouncedTooEarly | src/acp/services/track/estimator.py:108-117 | A report and then an older one: the second is dropped by the filter and announced for its own time with the first one's estimate |
| TrackLabels.TrackCarriesLatest | src/acp/services/track/estimator.py:142-228 | Over any run a track carries the squawk and the callsign of the latest fresh report of its present life to carry one, and the address, scenario and plane of the report that began it |
| TrackLabels.AnnouncementTells | src/acp/services/track/estimator.py:230-270 | Whatever is announced of a track says in every field what the inputs of its present life call for |
| TrackLabels.GoneExactlyWhenDropped | src/acp/services/track/estimator.py:272-282 | There is no track exactly when none was reported, or a pruning found it terminated and old enough and none has been reported since |
| TrackRuns.SilenceIsCountedTwice | src/acp/services/track/estimator.py:126-140 | Coasting announced, then a termination or another report: in both runs the first silence is counted twice |
| Tracker.TrackRunner.Consume | src/acp/services/track/runner.py:128-130 | The note is written, then the report is handled |
| Tracker.TrackRunner.HandleReport | src/acp/services/track/runner.py:229-253 | A report on a revoked partition is discarded; any other is folded in, announced, buffered and flushed when due |
| Tracker.TrackRunner.SweepNow | src/acp/services/track/runner.py:307-346 | Changed tracks are announced, recorded, displayed or deleted, in that order, and old notes dropped |
| Tracker.TrackRunner.ReleasePartitions | src/acp/services/track/runner.py:148-213 | The buffer goes to history, nothing of the released aircraft to the live picture, and their tracks and notes are dropped unannounced |
| Tracker.TrackRunner.ClaimPartitions | src/acp/services/track/runner.py:215-227 | Exactly the claimed partitions stop being revoked |
| Tracker.HandleConserves | src/acp/services/track/runner.py:229-289 | Handling keeps: everything announced is what history holds followed by the buffer, in order |
| Tracker.SweepConserves | src/acp/services/track/runner.py:307-346 | Sweeping keeps the same books |
| Tracker.ReleaseConserves | src/acp/services/track/runner.py:184-207 | Releasing partitions keeps the same books |
| Tracker.HandlingWritesExactlyWhenDue | src/acp/services/track/runner.py:229-289 | A report handled writes the buffer exactly when it completes a batch or the interval has passed, and then all of it, to history and to the live picture |
| Tracker.SectionsKeepBufferShort | src/acp/services/track/runner.py:229-346 | No section leaves a whole batch waiting; a sweep that announces anything and a release leave nothing |
| LivePicture.FlushShows | src/acp/services/track/runner.py:262-289 | A flush shows the last buffered update of every aircraft it does not exclude, for the time to live, and touches no other entry |
| LivePicture.HandlingShows | src/acp/services/track/runner.py:229-253 | Handling leaves of every aircraft the last update it records, for the time to live, or nothing if that says terminated, and any other entry as it was |
| LivePicture.SweepingShows | src/acp/services/track/runner.py:307-346 | Sweeping leaves the same, deleting a terminated track in the section that gives its last update to history |
| LivePicture.ReleasingShows | src/acp/services/track/runner.py:184-207 | Releasing leaves the same for every other aircraft and a released aircraft's entry as it was |
| LiveRuns.EntryIsLastRecorded | src/acp/services/track/runner.py:184-346 | Over any run of any number of replicas an aircraft's entry is its last recorded update, held for the time to live from that recording, or nothing if that says terminated, unless a release section recorded it, which leaves the entry as it was |
| LiveRuns.NothingRecordedNothingShown | src/acp/services/track/runner.py:184-346 | Nothing is shown of an aircraft nothing was recorded about |
| Ownership.MovesAreSound | src/acp/services/track/runner.py:123-253 | Every ordering of arrivals, timers, rebalances and sections in which no sweep prunes the note of an aircraft whose handler is waiting keeps: tracks are noted under their unrevoked home partition, the buffer concerns live tracks, a waiting handler's note stands |
| Ownership.EffectsAreEntitled | src/acp/services/track/runner.py:229-346 | Every announcement, live write and live delete concerns an aircraft the replica tracks or is handling, on a partition revoked neither before nor after the section |
| Ownership.ReleaseIsSound | src/acp/services/track/runner.py:184-213 | Giving up partitions drops exactly the tracks and the notes of their aircraft |
| Ownership.SweepForgetsExactlyTheLongGone | src/acp/services/track/runner.py:348-360 | A sweep forgets exactly the tracks terminated by then whose latest report is over ten minutes old, and exactly the notes of aircraft without a track |
| Replicas.RevokedAfter | src/acp/services/track/runner.py:184-227 | A partition is revoked after a move exactly if its release section just ran, or it was revoked and its claim section did not run |
| Replicas.SilentFromReleaseToClaim | src/acp/services/track/runner.py:184-227 | From a release section to the matching claim, whatever arrives in whatever order, nothing about the partition's aircraft is announced, written live, deleted, tracked or buffered, as long as no sweep prunes the note of an aircraft whose handler is waiting |
| Replicas.NoteSurvivesExactlyForKnownAircraft | src/acp/services/track/runner.py:348-360 | A waiting report's note survives a sweep, and the replica stays sound, exactly when the estimator knew the aircraft |
| Replicas.EventsKeepProper | src/acp/services/track/runner.py:148-253 | Every event the broker's rules allow keeps, on the same condition: a replica owns all it holds unrevoked and all it is about to release or claim |
| Replicas.OneFilterPerAircraft | src/acp/services/track/runner.py:148-253 | In every run of any number of replicas, on the same condition, at most one holds a filter for an aircraft, and it owns the partition |
| Replicas.OnlyTheOwnerActs | src/acp/services/track/runner.py:148-253 | On the same condition every announcement, live write and live delete is made by the partition's current owner, late reports included |
| PrunedNote.TwoFiltersAndAFalseDelete | src/acp/services/track/runner.py:348-360 | A run obeying every broker rule in which a pruned note leaves two replicas with a filter and the old owner deletes the new owner's live entry |
| TrackStores.TrackHistoryStore.Record | src/acp/storage/stores.py:57-136 | Each row and each point becomes what the batch's newest update and first sighting, and the first recorded point, make it |
| TrackStores.LatestIsNewest | src/acp/storage/stores.py:69-77 | The collapsed update is the newest of the track in the batch, the last of equally new ones |
| TrackStores.FirstSeenIsEarliest | src/acp/storage/stores.py:75-77 | The first sighting of a track in a batch is the earliest of its report times |
| TrackStores.RowShowsNewestUpdate | src/acp/storage/stores.py:79-106 | After a batch the row shows the newest update; when and in which scenario the track was first seen is settled by the batch that created the row, as the earliest report time in it |
| TrackStores.PointsAreLastOfBatch | src/acp/storage/stores.py:108-136 | A batch adds a point for every new pair of track and time in it, that of its last update to bear them, and no other |
| TrackStores.RecordingTwiceIsOnce | src/acp/storage/stores.py:57-58 | Recording a batch again at once changes neither table |
| TrackStores.RecordedPointsNeverChange | src/acp/storage/stores.py:130-136 | Over any run of batches a recorded point and a first-seen time never change |
| TrackStores.RedeliveryAddsNoPoint | src/acp/storage/stores.py:130-136 | A batch redelivered at any later time adds and changes no point |
| TrackStores.RowGoesBackExactlyForOlderBatch | src/acp/storage/stores.py:95-106 | A track's row goes back in time exactly when the batch's newest update is older than the row |
| TrackStores.OlderBatchTakesRowBack | src/acp/storage/stores.py:95-106 | Two batches of one update each, delivered in the wrong order, leave the row at the older time |
| TrackStores.CuttingABatch | src/acp/storage/stores.py:108-136 | Two batches in turn leave the points one batch would exactly when no new key repeats across the cut with a different point |
| TrackStores.LiveTrackStore.Publish | src/acp/storage/stores.py:183-192 | Each track's entry is its last update in the batch, until the time to live has passed by the wall clock; other entries are untouched |
| TrackStores.LiveTrackStore.Forget | src/acp/storage/stores.py:194-202 | Exactly the named entries disappear |
| Alerts.AlertManager.Reconcile | src/acp/services/conformance/alerts.py:99-137 | Every key is raised, refreshed, republished, kept or cleared as one scan requires, nothing else is published, and what is published as new bears the identifier supplied for its key |
| Alerts.AlertManager.Forget | src/acp/services/conformance/alerts.py:164-179 | Exactly the alerts naming a vanished track are cleared and published as such |
| AlertHistory.ActiveExactlyWhenRecentlyDetected | src/acp/services/conformance/alerts.py:99-179 | A key is active exactly when it was detected in one of the last scans the policy looks back over, with no loss of a track it named since |
| AlertHistory.StreamIsLifecycle | src/acp/services/conformance/alerts.py:99-179 | Each key's stream is a prefix of (New Sustained* Cleared)*, one identifier and raise time per cycle, open exactly while active |
| AlertHistory.PublishedDescribesLatestDetection | src/acp/services/conformance/alerts.py:139-162 | Whatever is published, a clearing included, describes the key's latest detection and carries the time of the event |
| AlertHistory.SilenceIsBounded | src/acp/services/conformance/alerts.py:121-135 | With scans at most d apart, an active alert's age since publication is below the sustain interval plus d per scan missed |
| AlertHistory.NeverSilentForLong | src/acp/services/conformance/alerts.py:121-135 | Up to the next scan it is below the sustain interval plus d per scan the policy allows to be missed |
| AlertIdentity.PublishedExactlyWhen | src/acp/services/conformance/alerts.py:99-179 | An event publishes a new alert exactly when it detects a condition nothing supported, a sustained one exactly when it detects one supported and unpublished for the interval, a clearing exactly when it ends the support |
| AlertIdentity.NewAlertBearsSuppliedId | src/acp/services/conformance/alerts.py:109-118 | Over any run an alert published as new bears the identifier and time of its own scan |
| AlertIdentity.SharedIdExactlyInOneCycle | src/acp/services/conformance/alerts.py:99-162 | If no identifier is supplied twice, two published alerts share theirs exactly when they are of the same key and nothing was cleared between them |
| AlertIdentity.EntryBearsItsScan | src/acp/storage/stores.py:261-277 | Every entry of the store bears the identifier and time of a scan that published its key as new and since which nothing cleared it |
| AlertIdentity.EntriesShareIdExactlyInOneCycle | src/acp/storage/stores.py:261-277 | If no identifier is supplied twice, two entries, at one time or at two, share theirs exactly when they are of the same key and nothing was cleared between them |
| AlertStore.LiveAlertStore.Apply | src/acp/storage/stores.py:261-277 | Each key's entry is the fold of that key's alerts in the batch, expiring by the wall clock, and the index follows |
| AlertStore.RunOfKey | src/acp/storage/stores.py:261-277 | Over any run of calls each key follows its own history; the store holds the last alert published for it exactly while it is active, until the time to live has passed by the wall clock since that publication |
| AlertStore.StoreMirrorsManager | src/acp/storage/stores.py:261-277 | After every call the store holds exactly the active keys, with the identifiers and times of the active alerts, each expiring the time to live after the wall time of its last publication |
| AlertExpiry.WallSilenceIsBounded | src/acp/services/conformance/alerts.py:121-135 | With scans at most d apart by the wall clock, an active alert has been silent on that clock for less than the sustain interval, the scan clock's lead when it was last published, and d per scan missed |
| AlertExpiry.NoActiveAlertExpires | src/acp/storage/stores.py:272-276 | If the time to live covers the sustain interval, the missed scans and that lead, the entry of an active key does not expire before the next scan is due |
| AlertExpiry.NothingLapsesExactlyWhenCovered | src/acp/services/conformance/runner.py:115-135 | With scans at most d apart and data at most a given lead ahead of the wall clock, no entry of an active key ever lapses if and only if the time to live covers the sustain interval, the missed scans and the lead |
| AlertExpiry.UncoveredLapses | src/acp/services/conformance/runner.py:115-135 | Otherwise there is a complete run, clocks included, in which an active key's entry lapses before the next scan is due |
| AlertExpiry.DefaultsCoverLeadsUpTo287 | src/acp/services/conformance/runner.py:44-53 | With the default settings entries are safe exactly up to a lead of 287 s, while the scan clock accepts one of a day |
| Monitor.ConformanceMonitor.Observe | src/acp/services/conformance/monitor.py:235-246 | The window slides, due predictions are consumed, and one new prediction is queued, for this track only |
| Monitor.ConformanceMonitor.CheckMatured | src/acp/services/conformance/monitor.py:268-310 | The loop pops exactly the due head of the queue and returns the fold of what it popped |
| Monitor.ConformanceMonitor.Forget | src/acp/services/conformance/monitor.py:248-252 | Exactly the named tracks' windows and queues are dropped |
| Monitor.ObservingExtends | src/acp/services/conformance/monitor.py:235-246 | Observing one more update takes window, queue and finding to those of the longer sequence |
| Monitor.QueueIsWaiting | src/acp/services/conformance/monitor.py:282-330 | For updates in order the queue holds exactly the predictions no update has reached and the next 256 have not pushed out |
| Monitor.TakenAtMostOnce | src/acp/services/conformance/monitor.py:282-310 | For updates in any order, what an update takes off the queue are predictions made before it, and no prediction is ever taken twice |
| Monitor.FindingIsWorstMatch | src/acp/services/conformance/monitor.py:268-310 | For updates in order, the finding on an update is of the prediction matched with it that missed by most, the earliest of equals, among those beyond the minimum and, if calibrated, beyond the factor times the typical error of their own kind; it states that error, that of dead reckoning and the larger bound, and exists exactly when there is one |
| Monitor.ThresholdIsLargerBound | src/acp/services/conformance/monitor.py:254-266 | An error is beyond the threshold exactly when it is beyond both bounds of its kind, and the threshold is the larger |
| Monitor.DeviatesExactlyWhen | src/acp/services/conformance/monitor.py:282-310 | In any queue and any order a prediction counts as missed exactly when it is no more than three seconds late and its error is beyond both bounds |
| Monitor.PredictionIsForecast | src/acp/services/conformance/monitor.py:312-330 | A prediction is made from the latest twenty updates, for the horizon ahead, beside dead reckoning over the horizon |
| Presented.MonitorHoldsThePresented | src/acp/services/conformance/runner.py:155-272 | Over any run of updates and scans the monitor holds of each track the window and queue of the updates it was presented with since it last forgot the track |
| Presented.PresentedInOrder | src/acp/services/conformance/runner.py:158-197 | Those updates are in time order throughout a run if and only if the track never comes back, terminated and before the next scan, with an older update |
| Presented.RevivedTrackIsOutOfOrder | src/acp/services/conformance/runner.py:158-175 | An update, a termination and an older update before the next scan: the monitor is presented with the two out of order |
| Presented.ShownIsNewestSurviving | src/acp/services/conformance/runner.py:155-175 | Over any run the picture shows of each track the newest of its updates that no termination has followed and no scan has found too old |
| Presented.ClockIsNewestPlausible | src/acp/services/conformance/runner.py:176-188 | Over any run the data time the scan clock goes by is the newest of the updates accepted no more than a day ahead of the time of day |
| Conformance.ConformanceRunner.Absorb | src/acp/services/conformance/runner.py:155-197 | Termination, an outdated update and a fresh one each change exactly what they should, the monitor's window and queue and the data clock included |
| Conformance.ConformanceRunner.ScanNow | src/acp/services/conformance/runner.py:199-302 | A scan takes every key through reconciling and forgetting as of the scan time, folds the result into the store by the wall clock, and leaves nothing held about a track outside the picture |
| Conformance.ConformanceRunner.ScanOnTimer | src/acp/services/conformance/runner.py:341-349 | The timer scans as of the later of the wall clock and the newest data time |
| Conformance.ClockStaysWithinADay | src/acp/services/conformance/runner.py:115-188 | Whatever is absorbed, the scan clock is never behind the wall clock, leads it by at most a day, and does not run backwards |
| Conformance.SurvivorsAreInPicture | src/acp/services/conformance/runner.py:222-272 | An alert that survives a scan names only tracks in the picture, revived and expired tracks included |
| Conformance.ScanSettles | src/acp/services/conformance/runner.py:222-313 | After every scan the traces are the picture's, windows and queues lie within it, and the store holds exactly the active keys |
| Advisories.DetectorsNameOnlyThePicture | src/acp/services/conformance/runner.py:234-254 | What the service assumes of its detectors holds of the grid search and the rules: every detection names only tracks of the picture scanned |
| Advisories.ConflictKeyTellsPair | src/acp/services/conformance/separation.py:168-172 | For identifiers without a colon, two conflicts share an alert key exactly when they are between the same two tracks |
| Advisories.DetectedExactlyWhenBreaching | src/acp/services/conformance/runner.py:234-254 | On a scannable picture a scan detects a pair under its key exactly when both are seen often enough and will be inside both standards at one moment of the lookahead (their rates zero or at least the tolerance), and what it detects names the two |
| Advisories.TrackKeyTellsKindAndTrack | src/acp/services/conformance/rules.py:44-47 | Conditions of one track share a key exactly when they are of one kind and one track |
| Advisories.RuleDetectedExactlyWhenFiring | src/acp/services/conformance/runner.py:235-247 | A scan detects an emergency code or an excessive descent under the track's key exactly when the track is in the picture and the condition holds of it |
| Advisories.UrgencyIsTimeLeft | src/acp/services/conformance/runner.py:352-363 | A conflict is a warning exactly in the last minute and a caution exactly in the two before, and its codes say whether it is on already, imminent, and inside the horizontal standard now |
| Rules.CheckFindsExactly | src/acp/services/conformance/rules.py:50-103 | The rules find each condition once, exactly when the code is one of the three or the descent is beyond a limit, with the urgency and the codes that go with it |
| AlertMeaning.ActiveExactlyWhenBreachSeen | src/acp/services/conformance/runner.py:222-272 | Over any run of scans and losses, a conflict alert for two tracks is active exactly when one of the last scans the policy looks back over saw their breach coming and neither has been lost since, and it names the two |
| AlertMeaning.ActiveExactlyWhenRuleFires | src/acp/services/conformance/runner.py:222-272 | The same of a rule's alert and its condition |
| AlertMeaning.ActiveExactlyWhenDeviating | src/acp/services/conformance/runner.py:222-272 | The same of a deviation alert and the findings pending at the scans |
| AlertMeaning.DeviationSays | src/acp/services/conformance/runner.py:249-266 | It is an advisory at most, and its codes say whether the model predicted and whether the error is over twice the threshold |
| AlertMeaning.ScanIsTwoMoments | src/acp/services/conformance/runner.py:222-272 | A scan of the service is, for every key, a scan of what is left of the picture and then the loss of what is not |
| Messaging.MessageSubscriber.Next | src/acp/common/messaging.py:240-301 | Asking for the next message commits the one in hand, commits past malformed records and yields the next well-formed one |
| Messaging.MessageSubscriber.Restart | src/acp/common/messaging.py:190-205 | A restarted process resumes from the committed offset |
| Messaging.AtLeastOnceInOrder | src/acp/common/messaging.py:240-301 | Through any crashes every offset below the committed one was handled or discarded, records come in order, and each crash adds at most one redelivery |
| Messaging.CrashRedelivers | src/acp/common/messaging.py:240-301 | A record handled but not committed is exactly what comes next after a crash |
| Simulator.ApplyCommands | src/acp/sim/engine.py:181-212 | The loop obeys, in plan order, exactly the commands in the half-open interval of the step |
| Simulator.CuttingAStep | src/acp/sim/engine.py:184-191 | For a time-sorted plan cutting a step in two changes no target |
| Simulator.TargetsDependOnlyOnTime | src/acp/sim/engine.py:166-191 | For a time-sorted plan the targets after a run are those one long step would set |
| Simulator.UnsortedPlanDependsOnSteps | src/acp/sim/engine.py:189-191 | A plan listed out of time order ends with different targets in one step and in two |
| Simulator.CutMattersExactlyWhenOvertaken | src/acp/sim/engine.py:184-212 | For any plan, cutting a step leaves the same targets exactly when, on every axis, the last listed command due after the cut says what the last listed of the whole step says |
| Simulator.EachCommandFiresOnce | src/acp/sim/engine.py:184-191 | A command fires in exactly one step if its time is positive and reached, and otherwise in none |
| Simulator.ReachedWhenTheGapIsCovered | src/acp/sim/engine.py:232-243 | A chased value equals its target after n steps exactly when they cover the gap, and what is left is the rest of it |
| Simulator.DifferenceLeads | src/acp/common/geodesy.py:75-82 | The difference leads from the first bearing to the second |
| Simulator.DifferenceIsUnique | src/acp/common/geodesy.py:75-82 | It is the only turn in (-180, 180] that does |
| Simulator.WrapIsUnique | src/acp/common/geodesy.py:62-72 | A normalised bearing is the one angle in [0, 360) a whole number of turns away |
| Simulator.TurnClosesIn | src/acp/sim/engine.py:226-230 | A turn shrinks what is left by its limit, on the same side, never past the target |
| Simulator.TurnsCompose | src/acp/sim/engine.py:226-230 | Two turns in succession are one turn over both intervals |
| Simulator.TurnIsCompleted | src/acp/sim/engine.py:226-230 | After n turns what is left is the first difference less n limits, and nothing once they cover half a circle |
| Simulator.HeadingIsReached | src/acp/sim/engine.py:226-230 | Once the turns cover the first difference the heading is the target's |
| Simulator.AxesDependOnlyOnTime | src/acp/sim/engine.py:215-264 | Between commands, flying two intervals in turn brings speed, altitude and heading where flying both at once does |
| Simulator.VerticalRateIsAchieved | src/acp/sim/engine.py:239-246 | The reported vertical rate is the climb achieved over the step, and zero exactly at the target or without a rate |
| Simulator.Simulation.Advance | src/acp/sim/engine.py:166-178 | A positive step moves every aircraft by its own plan and state, so that each is always where the steps taken bring it; any other is refused and changes nothing |
| Flight.WhatIsLeft | src/acp/sim/engine.py:215-264 | After any steps between commands what is left of each gap is the rest after its own rate in its own units times the time, on its own side |
| Flight.ReachedExactlyWhenCovered | src/acp/sim/engine.py:215-264 | Each target is reached exactly when its own rate times the time covers its own gap |
| Flight.MovesAlongTheMiddle | src/acp/sim/engine.py:248-254 | A step moves the aircraft at the mean of its speeds along the heading half way through its turn |
| Flight.AirborneFromEntry | src/acp/sim/engine.py:166-178 | An aircraft is airborne exactly from the first step that ends at its entry time or later, and stays as it started until then, though it takes its commands |
| Flight.TargetsAreLastDue | src/acp/sim/engine.py:181-212 | For a sorted plan each axis has been told what the last due command of its kind says, and what it was first told if none is due |
| Flight.JourneyIsFlight | src/acp/sim/engine.py:166-264 | Once airborne, while no command falls due, a run of the simulation is a flight between commands |

## Left out

- Separation.RejectionIsExact: for pairs judged by probability it needs a threshold no lower than the normal tail beyond the cutoff; that this is exactly what is needed is proved in `Weighing`.
- Scan.ScanPicture: the all-pairs clause is for pictures whose eligible tracks have distinct identifiers, none of their pairs judged by probability and closing speeds of at most 1200 kt, because the grid radius is neither widened for uncertainty nor for faster closure.
- Truncation.WiderMissIsNoLikelier: is silent, between the radius and the cutoff, about a wider miss that sums more terms; by how much it may then seem likelier is bounded beside it. That the bound is below 1e-15 is a fact about the Poisson law, whose weights are a parameter here.
- AlertMeaning.ActiveExactlyWhenBreachSeen: is for pictures the grid search is exact on, as Scan.ScanPicture says; a fast or uncertain pair may be missed by the grid.
- Replicas.OneFilterPerAircraft: holds for runs in which no sweep prunes the note of an aircraft whose handler is waiting; the exact condition and a run without it are proved beside it.
- Simulator.CuttingAStep: needs the plan in time order, which the program does not check; for any plan the exact condition is proved beside it.
- Monitor.FindingIsWorstMatch: needs updates in time order; exactly when the service presents them so is proved in `Presented`.
- LiveRuns.EntryIsLastRecorded: an update recorded by a release section is not shown; the entry waits for the new owner, as the code intends.
- Floating-point rounding, and with it the reason the program prefers the Joseph form and accumulates the survival function from the top.
- Great-circle trigonometry, the tangent-plane projection and its error: positions and velocities are given in a common plane, or come from functions supplied by the platform.
- The turn rate and the fields derived from a filter's estimate by projection (latitude, longitude, speed, track): an update carries the estimate itself.
- Exponentials, logarithms and the error function: the counting laws and the normal law are parameters with stated order and mass; in floating point the tail beyond nine standard deviations rounds to zero.
- Model training and prediction: the predictor is an arbitrary function of the window.
- Kafka, Redis and Postgres machinery: topics are logs, stores are maps with expiry times, the lock is a fair queue of atomic sections, the broker an adversary with the stated rules.
- Exceptions in the middle of a scan or a flush, and the shutdown flush that runs outside the lock.
- The order in which different keys or tracks are visited inside one scan, sweep or reconciliation: any order is allowed; the order within one key or track is kept.
- The alert evidence records and the wording of summaries: a detection carries its codes and a text supplied by a function.
- Flight.WhatIsLeft: is for targets no scenario forbids, with rates and altitudes that are not negative.
- Listing active alerts and live tracks for display, and pruning their indexes of expired entries.
- Filters as shared objects inside the tracker: a track record holds the value its filter object is proved to compute.
- Counters, metrics, tracing, logging, configuration and command-line entry points.
- Sensor noise, scenario generation and the evaluation reports.
