# Verified model of ghpulse

This project models the parts of ghpulse that have to be right for the dashboard to
tell the truth, and proves that they are, for every input, every run and every
interleaving. It is written in Dafny 4.11. To verify: `dafny verify dfyconfig.toml`.

| file | what it models |
|---|---|
| `Wrappers.dfy`, `Records.dfy`, `Numbers.dfy` | shared results, keyed records, arithmetic |
| `Snapshots.dfy`, `SnapshotFormat.dfy` | the validator between acquisition and persistence; the format, and that exactly it is accepted |
| `Reconcile.dfy` | the three tables with their constraints, every SQL statement of a commit, the upsert loops |
| `IngestRuns.dfy` | one run from lock to release with a failure possible at every step, and any sequence of runs |
| `Verdicts.dfy` | when a run commits, what it reports otherwise, what its audit row says |
| `Buckets.dfy`, `Aggregate.dfy`, `Dashboard.dfy` | bucket widths, dense bins, the grouped query and its fold, range windows; the series as counts of stored rows |
| `Charts.dfy`, `MergeScan.dfy`, `StackedChart.dfy` | chart intervals, the dense validator, the merge scan, cumulative lines, the assembled chart |
| `ClientCover.dfy` | server buckets seen through the browser's clock, up to the chart |
| `Geometry.dfy`, `LabelWrap.dfy`, `Legend.dfy` | pixels, bars, stacked segments, label wrapping, the legend packer |
| `Coordinator.dfy` | the dashboard request coordinator |
| `Cache.dfy`, `Refresh.dfy` | the response cache as an object, and stale-while-refresh as a concurrent protocol |
| `Freshness.dfy` | the steps of a run that produced what the cache serves, and how fresh that makes it |
| `Requests.dfy` | every way a request can end, and why a refresh is started |
| `Broadcast.dfy`, `Service.dfy` | event queues; ingest threads, cache, events and teardown interleaved |
| `Announcements.dfy`, `Components.dfy` | every outcome of a run is posted; the process as its components in step |
| `Login.dfy` | the login rate limiter |

How things are modelled. Tables are maps keyed by node id, an SQL statement is a method on
them, and a failing statement is a position in a set of faults. Instants on the server are
whole microseconds since 1970, in the chart whole milliseconds, in the rate limiter exact
reals; counts are integers and pixels exact reals. Threads are steps: a locked section is one step, and a run
is any sequence of steps of any number of threads. A cached value remembers in which generation its
computation began and which commit it read; these memories, the set of keys computed inline
and the owner of each refresh exist for the proofs only. RFC 3339 parsing and case folding are
parameters of the validator, the clock and the outcome of the network are parameters of a run.

Where the code departs from its documentation the model follows the code:

- `dense_bucket_bounds` says it clips only the right edge; it clips both (backend/api_common.py:191, 207-208).
- `epoch_seconds` truncates toward zero while the query uses FLOOR. Before 1970 the two differ by one
  bucket in the last second before a boundary. `Buckets.PartitionIff`, `Aggregate.ColumnsEqualTotalsIff`,
  `ClientCover.CoverIff` and `ClientCover.NeverThrowsIff` state exactly what this costs.
- The plan speaks of invalidating after a data-changing commit; the code invalidates after every commit
  (backend/ingest.py:654-657).
- An inline miss stamps the generation when it stores (backend/cache.py:64-67, 249-250), so freshness holds
  for entries of the refresh path, and for inline ones exactly when no invalidation overtook their computation
  (`Freshness.InlineHitIsCurrentIff`); `Freshness.InlineWitness` is a run in which one did.
- An invalidation that raises is logged and the commit is announced all the same (backend/ingest.py:654-662);
  `Service.HookDecides` and `Service.LostHookIff` say exactly when that shows.
- An AbortError raised by the transport for the latest request is swallowed (src/app.jsx:240-242);
  `Coordinator.SettledIsClosed` says that nothing else leaves the view on its opening notice.
- A zero-width row is stripped by the browser together with the events it counts, so a chart total can be
  smaller than the summary count; `ClientCover.ChartTotalIff` says exactly when, `ClientCover.HiddenEventWitness` is a case.

## Model

| member | source | states |
|---|---|---|
| Snapshots.Collect | backend/ingest.py:178-207 | one collection is read entirely, in order, and with ids new to the run, or refused; the id set grows by exactly the ids read |
| Snapshots.ValidateSnapshot | backend/ingest.py:145-313 | a raw snapshot is accepted if and only if its header, every record and every reference are well formed and no node id occurs twice in or across collections; the result is the normalised snapshot |
| Snapshots.SpacesByCode | backend/ingest.py:261-261 | what counts as blank in a state reason, by code point |
| Snapshots.ReadIssueMeetsSchema | backend/schema.sql:16-37 | an issue the validator lets through meets every CHECK of its table and refers to a repository of the snapshot |
| Snapshots.ReadPullMeetsSchema | backend/schema.sql:44-60 | a pull request the validator lets through meets every CHECK of its table and refers to a repository of the snapshot |
| Snapshots.AcceptedIsConsistent | backend/ingest.py:256-313 | the schema never refuses a row of an accepted snapshot: ids unique, references resolved, checks met |
| SnapshotFormat.RepoRoundTrip | backend/ingest.py:182-207 | a publishable repository written in the snapshot format is read back unchanged |
| SnapshotFormat.IssueRoundTrip | backend/ingest.py:209-283 | a storable issue whose own instants the producer writes readably is read back unchanged |
| SnapshotFormat.PullRoundTrip | backend/ingest.py:285-306 | a storable pull request whose own instants the producer writes readably is read back unchanged |
| SnapshotFormat.SnapshotRoundTrip | backend/ingest.py:145-313 | every consistent, publishable snapshot whose own instants are written readably is accepted and normalises to itself: the validator is not stricter than the format |
| SnapshotFormat.AcceptedIsPublishable | backend/ingest.py:196-197 | everything accepted is consistent and publishable |
| SnapshotFormat.RepoIsWritten | backend/ingest.py:182-207 | a repository that is read is exactly the JSON its record is written as: public, external, named, without further fields |
| SnapshotFormat.IssueStands | backend/ingest.py:209-283 | an issue that is read stands for its record field by field, instants compared after parsing, in the repository it names |
| SnapshotFormat.PullStands | backend/ingest.py:285-306 | a pull request that is read stands for its record field by field, in the repository it names |
| SnapshotFormat.NothingPrivate | backend/ingest.py:190-191 | no raw record of an accepted snapshot says that it is private, or leaves it open |
| SnapshotFormat.AcceptedIff | backend/ingest.py:145-313 | a raw snapshot is accepted and normalised to s if and only if, field by field, it stands for s and s is consistent and publishable |
| Reconcile.Connection.UpsertRepository | backend/ingest.py:379-397 | succeeds unless the database fails or a CHECK is violated; keeps first_seen_at, returns a row exactly when a compared column differs, keeps all constraints |
| Reconcile.Connection.UpsertIssue | backend/ingest.py:416-441 | succeeds unless the database fails or a CHECK or the foreign key is violated; returns a row exactly when some column differs |
| Reconcile.Connection.UpsertPullRequest | backend/ingest.py:463-490 | succeeds unless the database fails or a CHECK or the foreign key is violated; returns a row exactly when some column differs |
| Reconcile.Connection.Observe | backend/ingest.py:544-547 | refreshes last_seen_at of the listed repositories and nothing else |
| Reconcile.Connection.DeleteUnseenIssues | backend/ingest.py:511-515 | removes exactly the unlisted issues and returns how many |
| Reconcile.Connection.DeleteUnseenPullRequests | backend/ingest.py:511-515 | removes exactly the unlisted pull requests and returns how many |
| Reconcile.Connection.DeleteUnseenRepositories | backend/schema.sql:16-18 | removes exactly the unlisted repositories together with the items that refer to them; foreign keys still hold |
| Reconcile.UpsertRepositories | backend/ingest.py:377-411 | the loop succeeds exactly when no statement fails and every row is storable; the table gains the listed rows and the counter is the number of new or changed ids |
| Reconcile.UpsertIssues | backend/ingest.py:414-458 | the loop succeeds exactly when no statement fails and every row is storable; the table gains the listed rows and the counter is the number of new or changed ids |
| Reconcile.UpsertPullRequests | backend/ingest.py:461-508 | the loop succeeds exactly when no statement fails and every row is storable; the table gains the listed rows and the counter is the number of new or changed ids |
| Reconcile.CascadeRemovesNothing | backend/ingest.py:549-561 | once unlisted items are gone, deleting unlisted repositories cascades to no surviving issue or pull request |
| Reconcile.StepsReconcile | backend/ingest.py:540-561 | upserts, observation and the three deletes in this order leave exactly the reconciled tables, each delete counting the old ids the snapshot lacks |
| Reconcile.StepsKeepSchema | backend/ingest.py:531-561 | every CHECK and foreign key holds after the upserts, after the observation and after each of the three deletes |
| Reconcile.ReconciledProjects | backend/ingest.py:518-561 | the dashboard-visible rows after a commit are exactly the snapshot rows |
| Reconcile.ReconciledMeetsSchema | backend/schema.sql:16-60 | the tables after a commit meet every CHECK and foreign key |
| Reconcile.DataChangedIff | backend/ingest.py:562-571 | data_changed is true if and only if the visible rows were not already the snapshot rows |
| Reconcile.ReapplyCountsNothing | backend/ingest.py:540-571 | applying the same snapshot again yields six zeros and changes last_seen_at only |
| Reconcile.SizesBalance | backend/ingest.py:511-571 | conservation, for each of the three tables: old rows minus deletions plus insertions is the number of its rows in the snapshot |
| IngestRuns.Acquire | backend/ingest.py:710-721 | configuration, fetch, validation and the account check, in this order; the first failure is the outcome |
| IngestRuns.Ingest.SetProgress | backend/ingest.py:60-62 | publishes one progress value; every value ever published has 0 <= done <= total |
| IngestRuns.Ingest.RecordFailure | backend/ingest.py:328-374 | puts the error into the row of this run and into the health row, or silently into neither; no other row, no commit marker and no table changes |
| IngestRuns.Ingest.ApplyUpserts | backend/ingest.py:531-538 | three loops in one transaction, with their progress; succeeds exactly when none of their statements fails, with exact tables, counts and checkpoints |
| IngestRuns.ApplyDeletes | backend/ingest.py:544-561 | observation and deletes on the upserted tables; on success the tables are the reconciled ones and the counts are exact |
| IngestRuns.WriteMarkersAndCommit | backend/ingest.py:572-628 | two marker statements and COMMIT, any of which may fail: then the store is the old one; otherwise health row and run row carry this commit, its source time, its counts and no error |
| IngestRuns.Ingest.CommitSnapshot | backend/ingest.py:518-651 | all statements succeed and the whole reconciliation with its markers becomes visible, or nothing changes |
| IngestRuns.Ingest.Attempt | backend/ingest.py:695-738 | the guarded part of a run ends with the verdict that the first failing step determines, leaving the database as that verdict says |
| IngestRuns.Ingest.RunIngest | backend/ingest.py:683-752 | a run is skipped while the lock is held; otherwise it ends with the lock released, phase idle, last_error null iff it succeeded, counts exact and data_changed iff the visible rows changed, having published exactly the progress of its steps |
| IngestRuns.RunKeepsSchema | backend/schema.sql:16-60 | no run, failed or not, leaves a constraint violated |
| IngestRuns.LastCommitIsLast | backend/ingest.py:683-752 | the run named last committed did commit and every later one failed |
| IngestRuns.OneRunIsVisible | backend/ingest.py:572-590 | one run moves the visible rows and the commit markers together to its snapshot, or leaves both |
| IngestRuns.LastCommitIsVisible | backend/ingest.py:683-752 | over every sequence of runs with failures anywhere, tables and last_committed_at are those of the last committed run |
| IngestRuns.AuditStaysOk | backend/ingest.py:592-627 | over every sequence of runs no audit row has both a commit and an error (a row may have neither yet), and rows of earlier runs are never rewritten |
| IngestRuns.FirstSeenIsStreakStart | backend/ingest.py:379-397 | first_seen_at of a repository is the commit that began the unbroken series of commits listing it, or its initial value |
| Verdicts.CommitsIff | backend/ingest.py:683-738 | a run commits a snapshot if and only if its audit row opens, credentials exist, the source delivers that snapshot for the configured account and none of its statements fails |
| Verdicts.FailsWithTheFirst | backend/ingest.py:703-738 | otherwise it fails with the first obstacle: opening, configuration, source, boundary, account or transaction |
| Verdicts.RunIsAudited | backend/ingest.py:316-374 | every run that opens its audit row adds exactly that row, finished with its commit or its error, or as it was begun if the error could not be written; no other row changes |
| Verdicts.HealthAfterRun | backend/ingest.py:328-374 | the health row says how the last attempt ended unless that could not be written; a commit clears its error |
| Verdicts.ProgressAdvances | backend/ingest.py:60-73 | the progress a run publishes only advances, from acquiring over validated to committing; a run that commits has published that everything is done, and the last value is at rest with its error |
| Buckets.BucketVersusGroup | backend/api_common.py:176-183 | the server bucket of an instant equals the query bucket, except before 1970 in the last second before a boundary, where truncation puts it one bucket too far |
| Buckets.GroupContains | backend/api_dashboard.py:162-162 | the query bucket of an instant is aligned and contains the instant |
| Buckets.GroupUnique | backend/api_dashboard.py:162-162 | no other aligned bucket contains it |
| Buckets.DenseBucketBounds | backend/api_common.py:186-211 | the loop produces exactly one bin per aligned epoch from the bucket of the start to the bucket of the last instant, clipped at both edges |
| Buckets.PartitionIff | backend/api_common.py:186-211 | the bins partition a non-empty window into contiguous non-empty intervals if and only if truncation skips neither edge |
| Buckets.BinsPartition | backend/api_common.py:201-211 | and then all interior boundaries are aligned to the epoch, one bucket apart |
| Buckets.BinHolds | backend/api_common.py:204-210 | an instant of the window lies in a clipped bin if and only if the query gives it that bin epoch |
| Buckets.BinContinues | backend/api_common.py:206-208 | if truncation spares the left edge, every bin continues the previous ones or is empty beyond the right edge |
| Buckets.LastBinReachesEnd | backend/api_common.py:201-211 | if truncation spares the left edge, the bins reach the right edge |
| Buckets.SkippedBinsStartLate | backend/api_common.py:178-207 | if truncation skips the left edge, every bin starts after it |
| Buckets.BucketSeconds | backend/api_common.py:149-157 | the chosen width is the largest candidate that still gives a hundred buckets, or the smallest candidate |
| Buckets.BinCountBounds | backend/api_common.py:149-211 | with that width there are at least 100 bins from 6000 seconds on and at most 601 below 100 days, each skipped edge shifting the count by one |
| Aggregate.FoldBuckets | backend/api_dashboard.py:267-285 | the fold lays out one bucket per dense bin, holding for each kind the sum of the rows of its epoch, and sums every kind into the totals |
| Aggregate.TotalsAreNaive | backend/api_dashboard.py:267-280 | the totals of a grouped result are the naive counts of events of that kind in the window |
| Aggregate.BucketsAreNaive | backend/api_dashboard.py:282-285 | each bucket of a grouped result holds exactly the number of events of that kind with left <= t < right |
| Aggregate.PanelIsGrouped | backend/api_dashboard.py:307-308 | splitting the query result by panel leaves a complete grouping of each panel |
| Aggregate.DashboardPanel | backend/api_dashboard.py:302-310 | for every event set, filter and window, a panel has one bucket per dense bin whose counts are naive, and naive totals |
| Aggregate.ColumnsEqualTotalsIff | backend/api_dashboard.py:281-285 | the columns add up to the totals for every event set if and only if truncation does not skip the left edge: no event misses a bin |
| Aggregate.SkippedEdgeWitness | backend/api_common.py:178-178 | a window starting half a second before 1970, whose only bin starts after it |
| Aggregate.SkippedEdgeToday | backend/api_dashboard.py:126-136 | range all ending on a day of 2026, with the earliest event half a second before 1970: that event is in the total and in no bin |
| Aggregate.BuildWindow | backend/api_dashboard.py:117-139 | the window of a range ends now, starts the range earlier or at the earliest event, with the width chosen for its span |
| Aggregate.AllWindowCovers | backend/api_dashboard.py:126-136 | range all starts at the earliest selected event, so it covers every stored event before now |
| Aggregate.UnionIsOnePerKind | backend/api_dashboard.py:45-102 | the event union has at most one event of each kind per item |
| Aggregate.OpenPullsAreCounted | backend/api_dashboard.py:190-195 | the open pull requests created in a covering window are all open pull requests |
| Aggregate.OpenIssuesAreCounted | backend/api_dashboard.py:184-189 | the open issues created in a covering window are all open issues |
| Aggregate.PullRequestsBalance | backend/api_dashboard.py:78-101 | opened = merged + closed unmerged + currently open, for every storable state and filter |
| Aggregate.IssuesBalance | backend/api_dashboard.py:53-77 | opened = completed + not planned + currently open + issues closed for any other reason, for every storable state and filter |
| Dashboard.SeriesAreStoredRows | backend/api_dashboard.py:45-102 | each of the six series over any interval is the number of public selected rows of its kind, dated by its own column: creation, close or merge |
| Dashboard.StoredIsVisible | backend/schema.sql:5-60 | every row the schema admits is public, so none is left out of the series |
| Dashboard.StoredDashboard | backend/api_dashboard.py:267-310 | both panels over the stored rows: every bucket and every total counts the rows of its interval |
| Dashboard.DashboardOfAll | backend/api_dashboard.py:117-310 | range all end to end: the window it builds from the earliest event yields totals that count stored rows and balance against the open items |
| Charts.BoundedTimeIntervals | src/dashboard-charts.jsx:93-106 | accepts exactly the non-empty ranges with a positive width; the intervals are contiguous, cover the range and have that width except the last, which is capped |
| Charts.NormalizedDenseIntervals | src/dashboard-charts.jsx:155-188 | accepts exactly the rows that form a contiguous cover of the range, and returns them with their column values and totals |
| Charts.CoverIsInside | src/dashboard-charts.jsx:169-186 | every interval of a contiguous cover lies inside the range |
| MergeScan.NormalizedSeriesEvents | src/dashboard-charts.jsx:196-224 | the kept points are sorted, inside the range, and add up to the raw events on every interval |
| MergeScan.SortPermutes | src/dashboard-charts.jsx:222-222 | sorting only permutes the points |
| MergeScan.OrderIsIrrelevant | src/dashboard-charts.jsx:196-224 | the naive sum over an interval does not depend on the order of the events |
| MergeScan.OneEventAdds | src/dashboard-charts.jsx:196-221 | what one event adds to a series: with a key its amount, or one, to that series alone; without a key its column; from the left edge up to but not including the right |
| MergeScan.UnlistedGetsNothing | src/dashboard-charts.jsx:196-221 | a series that is not listed gets nothing |
| MergeScan.PlainEventsAreCounted | src/dashboard-charts.jsx:118-122 | events with a key and no amount are simply counted |
| MergeScan.SortIsStable | src/dashboard-charts.jsx:222-222 | points are sorted by timestamp and ties keep the input order |
| MergeScan.ScanBin | src/dashboard-charts.jsx:249-260 | from a pointer at the bin start, the inner loop consumes exactly the points inside the bin and adds exactly their naive sum to each series of the bin, to its total and to the running totals |
| MergeScan.Scan | src/dashboard-charts.jsx:246-261 | the single forward pointer gives every bin the naive per-interval sum of every series, and leaves in the totals the sums of the bins |
| MergeScan.Totals | src/dashboard-charts.jsx:237-244 | the totals of the dense path are the sums of the bins, series by series |
| StackedChart.ValidateSeries | src/dashboard-charts.jsx:138-146 | accepts exactly the series with distinct non-empty string keys |
| StackedChart.Cumulative | src/dashboard-charts.jsx:263-272 | the loop builds the line of running sums anchored at the left edge |
| StackedChart.CumulativeAt | src/dashboard-charts.jsx:263-272 | point i + 1 of a line carries the right edge of bin i and the sum of the bins up to it |
| StackedChart.CumulativeRises | src/dashboard-charts.jsx:264-271 | a line starts at zero, never decreases and ends at its series total |
| StackedChart.BuildStackedTimeSeriesData | src/dashboard-charts.jsx:226-274 | throws exactly on a bad range, width, series or dense list; a dense chart keeps the rows as bins, a point chart has the naive sum of every interval |
| StackedChart.MassIsConserved | src/dashboard-charts.jsx:226-274 | for point events a series total, and the last value of its line, is the naive sum over the whole range: nothing is lost or counted twice |
| StackedChart.TotalsAgree | src/dashboard-charts.jsx:238-261 | the bin totals and the series totals have the same sum |
| StackedChart.ChartIgnoresOrder | src/dashboard-charts.jsx:190-224 | reordering the point events leaves the whole chart unchanged |
| StackedChart.HalfARowThrows | src/dashboard-charts.jsx:132-168 | a row with one edge, or with an edge that is no instant, is refused |
| StackedChart.PointsAreAccepted | src/dashboard-charts.jsx:132-136 | events without edges are never taken for rows |
| StackedChart.DenseChartShowsColumns | src/dashboard-charts.jsx:178-183 | a dense chart shows the columns of each row under its own edges: positive numbers as they are, anything else as zero |
| ClientCover.StrippedChain | src/app.jsx:72-78 | under any monotone clock the visible rows of every prefix of the bins follow one another from the window start |
| ClientCover.ServedRowsCover | src/app.jsx:72-100 | a window that stays non-empty under a monotone clock passes the contiguous-cover validator after zero-width rows are stripped |
| ClientCover.CollapsedWindow | src/app.jsx:72-78 | a window that becomes empty loses all its rows |
| ClientCover.ServedViewNeverThrows | src/app.jsx:80-100 | for every window, clock and valid series the view built from the server answer is accepted by the chart |
| ClientCover.EmptyViewBins | src/app.jsx:80-100 | a view that lost all its rows is drawn in empty bins of the bucket width, or in one bin without a width |
| ClientCover.CoverIff | backend/api_common.py:186-211 | the rows cover the window under every monotone clock if and only if truncation spares its left edge |
| ClientCover.NeverThrowsIff | src/dashboard-charts.jsx:155-188 | no clock makes the chart throw if and only if truncation spares the left edge or pushes every bin past the right one |
| ClientCover.ChartTotalIff | src/app.jsx:77-77 | the chart total of a kind plus its events in stripped rows is the number of its selected events; the two agree if and only if no stripped zero-width row holds such an event |
| ClientCover.HiddenEventWitness | src/app.jsx:72-78 | a window of a minute and 300 microseconds with one event in its last bin: summary 1, chart total 0 |
| ClientCover.KeysDiffer | backend/api_dashboard.py:53-101 | no two series share a column |
| Geometry.TimeAtInvertsTimeX | src/dashboard-charts.jsx:390-408 | the instant under the pixel of an instant is that instant |
| Geometry.TimeXInvertsTimeAt | src/dashboard-charts.jsx:390-408 | the pixel of the instant under a pixel is that pixel |
| Geometry.LookupInvertsTimeX | src/dashboard-charts.jsx:405-412 | at the pixel of an instant the lookup returns the bin that contains it, the last bin for the right edge |
| Geometry.LookupIff | src/dashboard-charts.jsx:405-412 | the lookup answers a bin exactly inside the plot, and then the one whose interval contains the instant there |
| Geometry.BarInsideBin | src/dashboard-charts.jsx:398-403 | a bar starts at the left edge of its bin, takes nine tenths of it, and stays inside the plot |
| Geometry.BarsAreDisjoint | src/dashboard-charts.jsx:398-403 | bars of distinct bins do not overlap |
| Geometry.PointingAtABar | src/dashboard-charts.jsx:398-412 | every pixel of a bar is looked up as the bin of that bar |
| Geometry.TimeXClamps | src/dashboard-charts.jsx:390-396 | outside the range the mapping stays at the edges of the plot, and nowhere does it run backwards |
| Geometry.BuildStackedBarSegments | src/dashboard-charts.jsx:276-299 | each segment is as tall as its share of the maximum and stands on the sum of the previous ones |
| Geometry.SegmentsTile | src/dashboard-charts.jsx:283-298 | segments tile upward from the bottom of the plot without gap or overlap |
| Geometry.StackFitsIff | src/dashboard-charts.jsx:281-288 | a stack stays below the top of the plot if and only if the bin total does not exceed the maximum, or the plot is flat |
| LabelWrap.Chunks | src/dashboard-charts.jsx:327-336 | words longer than the limit are cut into slices of the limit, shorter ones are kept |
| LabelWrap.FillLines | src/dashboard-charts.jsx:337-346 | lines take the chunks in order, single-spaced, each as many as fit |
| LabelWrap.WrapLegendLabel | src/dashboard-charts.jsx:324-347 | the lines of any label hold its chunks in order, single-spaced, none longer than the limit, and no line could have taken the first chunk of the next; an empty label is one empty line |
| LabelWrap.WrappingKeepsText | src/dashboard-charts.jsx:324-347 | wrapping keeps every non-space character in order and cuts no word that fits on a line |
| LabelWrap.SpacesByCode | src/dashboard-charts.jsx:325-325 | what counts as white space, by code point |
| Legend.LayoutLegend | src/dashboard-charts.jsx:349-388 | for any labels and width the items are pairwise disjoint, inside the returned box, each beside its predecessor or at the start of a row just below everything before, and the box ends at the lowest item |
| Legend.TextFits | src/dashboard-charts.jsx:355-363 | as soon as there is room for the marker and one character, every line fits into its item |
| Legend.Defaults | src/dashboard-charts.jsx:350-351 | what the layout takes for a missing, invalid or small width and character width |
| Legend.MaxCharsIs | src/dashboard-charts.jsx:355-355 | a line may have as many characters as fit beside the marker, and one at least |
| Legend.ItemWidthIs | src/dashboard-charts.jsx:362-363 | an item is as wide as its longest line with its marker, at least 30 pixels and at most the legend |
| Coordinator.RequestCoordinator.Load | src/app.jsx:194-223 | a load supersedes the previous one, keeps data only for the same selection, opens a new id and starts one request; after dispose it does nothing |
| Coordinator.RequestCoordinator.Resolve | src/app.jsx:225-238 | the then-handler: publishes the body only for the latest request |
| Coordinator.RequestCoordinator.Reject | src/app.jsx:239-256 | the catch-handler: falls back to retained data or to an error, only for the latest request and no AbortError |
| Coordinator.RequestCoordinator.OnIngest | src/app.jsx:265-274 | an ingest event on a live stream sends one request for the active selection past the cache, with one notice; otherwise nothing changes |
| Coordinator.RequestCoordinator.Dispose | src/app.jsx:283-298 | dispose advances the id, aborts and disconnects, once |
| Coordinator.RunKeepsInv | src/app.jsx:171-301 | every interleaving keeps the notice history well formed, the fields equal to the last notice, every superseded request aborted or settled, and each request settled at most once |
| Coordinator.NotifiedInOrder | src/app.jsx:203-210 | notified ids never decrease; no id is opened twice or closed twice |
| Coordinator.NotifiedTruthfully | src/app.jsx:204-255 | notified data belongs to the notified selection; a closing notice directly answers the opening of its id, refreshing with ready or stale, loading with ready or error |
| Coordinator.DisposedIsSilent | src/app.jsx:283-298 | after dispose nothing is notified, requested or connected |
| Coordinator.SelectionGuardIsRedundant | src/app.jsx:226-227 | the selection guard of a handler never decides: the id guard implies it |
| Coordinator.SupersededIsSilent | src/app.jsx:226-227 | a response to any request but the latest shows nothing, sends nothing, aborts nothing and yields nothing |
| Coordinator.LatestWins | src/app.jsx:228-237 | the response to the latest request is shown under the active selection, is the value its promise yields, and settles that request alone |
| Coordinator.LoadOpens | src/app.jsx:194-220 | a load goes on showing the last data exactly when asked to and for the same selection, and sends exactly one request under a new id |
| Coordinator.LoadAborts | src/app.jsx:200-213 | whatever was in flight when a load starts has been aborted |
| Coordinator.LatestFails | src/app.jsx:239-256 | a failure of the latest request keeps what its opening showed, as stale, or reports an error if that was nothing |
| Coordinator.AbortedIsSilent | src/app.jsx:240-242 | an AbortError settles the request it answers with no value, and changes nothing else |
| Coordinator.NormalizedSelection | src/app.jsx:128-133 | a given range is taken as it is, an empty or missing one becomes thirty days |
| Coordinator.IngestReloads | src/app.jsx:265-274 | in every run with a stream and an active selection an ingest event sends exactly one request past the cache and adds exactly one notice, which keeps what the last one showed |
| Coordinator.IngestIsIgnored | src/app.jsx:265-274 | without a stream, or before any load, it changes nothing |
| Coordinator.StreamingIff | src/app.jsx:259-298 | the stream stands if and only if there was a connect and no dispose; disposed is for good |
| Coordinator.ControllerIffOpen | src/app.jsx:189-193 | a controller is held if and only if the last notice is an opening |
| Coordinator.AbortsExactly | src/app.jsx:189-200 | a load, a reload or the first dispose aborts the latest request if and only if it has not been answered, and nothing else aborts |
| Coordinator.ReadyIsAnswered | src/app.jsx:228-236 | a ready notice shows the body its own request was resolved with |
| Coordinator.ShownWasReady | src/app.jsx:197-210 | whatever is shown while refreshing or stale was delivered by an earlier ready notice |
| Coordinator.SettledIsClosed | src/app.jsx:224-256 | once the latest request of a live coordinator has settled, its closing notice is out if and only if it was not settled by an AbortError |
| Coordinator.HonestTransportCloses | src/app.jsx:224-256 | if AbortError is only raised for aborted requests, the closing notice of a settled latest request is always out |
| Coordinator.SwallowedAbortWitness | src/app.jsx:240-242 | an AbortError raised by the transport itself for the latest request leaves the view on its opening notice |
| Cache.TTLCache.GetEntry | backend/cache.py:47-57 | answers a live entry with its staleness and drops an expired one |
| Cache.TTLCache.PutIfGeneration | backend/cache.py:79-85 | publishes exactly when the token is still the current generation |
| Cache.TokenSurvivesIff | backend/cache.py:74-85 | over any sequence of calls a token stays publishable if and only if nothing was invalidated or cleared |
| Cache.InvalidatedStaysStale | backend/cache.py:26-39 | after an invalidation an entry nobody replaces is still there, and is served as stale if and only if it has not expired |
| Cache.InvalidatedStays | backend/cache.py:47-57 | over any calls that neither clear nor replace it, an invalidated entry is kept unchanged if and only if no lookup came after its expiry |
| Cache.RefreshRegistry.Claim | backend/cache.py:153-156 | claims a key exactly when no refresh of it is outstanding |
| Cache.RefreshRegistry.Discard | backend/cache.py:168-174 | ends the refresh of one key and changes the membership of no other |
| Refresh.RunKeepsInv | backend/cache.py:97-253 | every interleaving of readers, refresh tasks, invalidations, clears and shutdown keeps ownership, lock exclusion, inline results and freshness |
| Freshness.BackgroundHitIsCurrent | backend/cache.py:79-85 | a non-stale hit published by the refresh path began in the current generation and reflects every announced commit |
| Freshness.BackgroundHitBeganAfterInvalidation | backend/cache.py:157-170 | the very entry of a non-stale hit of the refresh path was started for its key, queried and published by one task, and from its start on nothing was invalidated or cleared |
| Freshness.GenerationsTellTime | backend/cache.py:69-77 | two moments have the same generation if and only if nothing was invalidated or cleared between them |
| Freshness.EntryHasStory | backend/cache.py:97-253 | every entry in every reachable cache was begun, read and stored for its key by one reader, or started, queried and published for it by one task |
| Freshness.UninterruptedHitIsCurrent | backend/cache.py:64-67 | an entry of either path that began in the current generation is non-stale and reflects every announced commit |
| Freshness.InlineHitIsCurrentIff | backend/cache.py:79-85 | a non-stale inline hit began in the current generation if and only if nothing was invalidated between its Begin and its Store steps (the test put_if_generation would make), and reflects every announced commit if and only if no newer commit was announced between its Read and its Store |
| Freshness.InlineHitHasStory | backend/cache.py:244-251 | every inline hit has such Begin, Read and Store steps of one reader |
| Freshness.InlineWitness | backend/cache.py:249-250 | a run in which an inline miss is overtaken by an invalidation and its outdated entry is then reported non-stale |
| Requests.FreshHitChangesNothing | backend/cache.py:238-242 | in every reachable state a fresh hit changes nothing at all |
| Requests.RefreshFollowsStaleHit | backend/cache.py:238-242 | over every run, a key is registered as refreshing only by a reader whose own lookup found it stale and who has done nothing since |
| Requests.SecondStaleHitIsIdle | backend/cache.py:151-156 | a stale hit on a key that is being refreshed leaves no trace |
| Requests.RefusedIsUndone | backend/cache.py:172-174 | a refresh that cannot be submitted leaves no trace: the claim is taken back |
| Requests.CrashKeepsStale | backend/cache.py:159-170 | a refresh whose query fails keeps the stale entry and ends like any other |
| Requests.OvertakenPublishesNothing | backend/cache.py:79-85 | a refresh overtaken by an invalidation publishes nothing |
| Requests.WaiterFindsEntry | backend/cache.py:244-248 | a reader that waited for the lock and finds the entry filled computes nothing |
| Requests.RaiseFreesLock | backend/cache.py:244-251 | a computation that raises stores nothing and frees the lock |
| Refresh.StaleHitIsRefreshed | backend/cache.py:237-242 | undisturbed, a stale hit claims, submits, computes and publishes: the entry is then non-stale and current, and no other entry, claim or task is left changed |
| Refresh.MissIsFilled | backend/cache.py:244-251 | undisturbed, a miss locks, rechecks, computes and stores: the next lookup hits, and the lock is free again |
| Refresh.SingleInline | backend/cache.py:244-251 | at most one inline computation per key is in progress |
| Refresh.SingleBackground | backend/cache.py:153-156 | at most one accepted refresh task per key is outstanding |
| Refresh.RefreshingIffOwned | backend/cache.py:151-174 | a key is in the registry if and only if someone still has to end its refresh, and then exactly one |
| Refresh.OwnerCanStep | backend/cache.py:159-174 | the owner of a refresh can always take a step that brings its end nearer |
| Refresh.RefreshCanEnd | backend/cache.py:151-174 | from every reachable state an outstanding refresh can be ended by steps of its owner alone, at most seven: no key is wedged |
| Refresh.DropsOnlyIf | backend/cache.py:54-56 | only expiry and clearing drop an entry |
| Refresh.SecondInlineNeedsDrop | backend/cache.py:244-251 | between two inline results for one key the entry of the first was dropped |
| Refresh.StoppedAddsNoTask | backend/cache.py:132-134 | once submissions are refused no task is ever added |
| Broadcast.Events.BroadcastThreadsafe | backend/events.py:80-99 | hands the loop one callback for a snapshot of the subscribers, or nothing without a loop |
| Broadcast.Events.RunNext | backend/events.py:91-96 | the oldest callback offers its message once to each target in turn |
| Broadcast.ListOf | backend/events.py:88-89 | lists every subscriber exactly once |
| Broadcast.PutAllAt | backend/events.py:91-96 | the callback reaches exactly its targets, each once, whatever their order |
| Broadcast.RunKeepsInv | backend/events.py:66-103 | in every interleaving each executed broadcast addressed to a subscriber was accepted or dropped, not both, and accepted positions ascend |
| Broadcast.DeliveredInOrder | backend/events.py:66-96 | deliveries to a subscriber are an in-order subsequence of the broadcasts addressed to it; its queue never exceeds 16 |
| Broadcast.DroppedIffFull | backend/events.py:92-96 | over every step of every run: a broadcast is dropped for a subscriber exactly by the callback that executes it, is addressed to it and finds its queue full, enters the queue exactly if that callback finds room, and no other step does or undoes either |
| Broadcast.SubscribedIff | backend/events.py:66-77 | a queue is offered broadcasts exactly from its subscription until it is unsubscribed |
| Broadcast.ConsumingDelivers | backend/events.py:66-71 | n reads deliver the first n queued messages, in order, and nothing is lost |
| Service.IngestCoordinator.Enter | backend/app.py:65-72 | admits exactly while not closing, and counts the admitted |
| Service.RunKeepsInv | backend/app.py:351-371 | every interleaving of ingest threads, readers, refresh tasks, subscribers and teardown keeps the invariants of the cache and the events, lock exclusion, admission counts, announcement order and teardown |
| Service.AnnouncedIsReflected | backend/ingest.py:654-662 | once the ingest_done of commit c is handed to the loop, every non-stale hit of the refresh path, in every continuation, reflects c or newer unless the invalidation for c raised, and even then once a later one succeeded |
| Service.HeardIff | backend/ingest.py:654-658 | the floor of the cache is at or above commit c if and only if the invalidation for c or a later commit took place |
| Service.HeardStays | backend/ingest.py:654-658 | an invalidation is never undone: a commit the cache has heard of stays heard of in every continuation |
| Service.HookDecides | backend/ingest.py:655-658 | when the hook runs, every non-stale hit of the refresh path reflects its commit; when it raises, if and only if every entry the refresh path has in the cache unmarked was read after that commit |
| Service.LostHookIff | backend/ingest.py:654-662 | an ingest whose hook raises, run from its admission to its broadcast, leaves every hit reflecting the announced commit if and only if the cache held no unmarked entry of the refresh path before |
| Service.LostHookIsVisible | backend/ingest.py:654-662 | from every reachable state that serves a non-stale hit of the refresh path and admits an ingest, one ingest whose hook raises announces a commit which that hit does not reflect |
| Service.AnnouncedIsCommitted | backend/ingest.py:654-662 | no announcement and no invalidation runs ahead of the database, and an announced commit the cache has not heard of is one whose hook raised |
| Service.CommitsArriveInOrder | backend/events.py:80-99 | a subscriber sees finished runs in the order of their commits; its queue never exceeds 16 |
| Service.RunsExclude | backend/ingest.py:82-88 | at most one ingest thread is inside a run |
| Service.ClosedIsDrained | backend/app.py:357-370 | when the pools are closed no admitted ingest is active and no accepted refresh task is queued or running |
| Service.NothingStartsAfterwards | backend/app.py:63-96 | and none of either kind starts afterwards, whatever threads still race with shutdown |
| Service.TeardownCanComplete | backend/app.py:351-371 | from every reachable state teardown can be carried through to closing the pools |
| Announcements.CommitIsPosted | backend/ingest.py:654-662 | over every interleaving, a thread that commits, passes the hook, takes its snapshot while a loop is set and reaches the loop has posted its own commit to exactly those subscribers |
| Announcements.FailureIsPosted | backend/ingest.py:665-682 | and a thread whose run fails posts the failure in the same way |
| Announcements.CommittingRunEnds | backend/ingest.py:683-752 | an undisturbed ingest leaves behind its commit, a cache in which everything is stale, one broadcast to the present subscribers, and nothing else |
| Announcements.FailingRunEnds | backend/ingest.py:738-752 | a failed one leaves behind the broadcast of its failure and nothing else |
| Announcements.UnhookedRunEnds | backend/events.py:80-87 | without a loop the commit stands and nobody is told |
| Announcements.SkippedRunEnds | backend/ingest.py:685-694 | an ingest that finds the run lock held leaves nothing behind |
| Announcements.ClosedGateTurnsAway | backend/app.py:63-70 | an ingest after shutdown has begun is turned away without a trace |
| Components.ComponentsRun | backend/app.py:351-371 | every run of the process is a run of the cache protocol and a run of the broadcaster |
| Components.SubscribersAreServed | backend/events.py:66-99 | a subscriber of the process gets, in order, a subsequence of what was posted while it was subscribed |
| Login.Limiter.CheckLoginRateLimit | backend/login.py:28-35 | keeps the recent failures of the address and limits at five of them |
| Login.Limiter.RecordLoginFailure | backend/login.py:38-45 | keeps the recent failures of the address and adds one |
| Login.Limiter.LoginPost | backend/login.py:115-148 | checks before verifying and records only rejected attempts |
| Login.RecentOfRecent | backend/login.py:30-33 | pruning early does not change what counts later |
| Login.RecentIsSuffix | backend/login.py:40-43 | on a sorted history the failures that count are a suffix |
| Login.SixFailuresSpanTheWindow | backend/login.py:20-45 | with a non-decreasing clock any six failures of an address, over its whole history, span at least 300 seconds |
| Login.LimitedIff | backend/login.py:122-126 | an attempt is turned away if and only if five failures among all ever recorded are recent, although only recent ones are stored |
| Login.StoredIsSuffix | backend/login.py:28-45 | the stored list is the suffix of the full history that still matters |
| Login.ClockBackWitness | backend/login.py:29-32 | with a clock that goes back, six failures within a hundred seconds |
| Login.StoreRefinesPlain | backend/login.py:20-45 | the pruned store remembers exactly the rejections of a limiter that forgets nothing |
| Login.AnswersLikePlain | backend/login.py:115-148 | and answers every attempt as that limiter does |

## Left out

- IngestRuns.Ingest.RunIngest: no failure is raised after the commit succeeded; the cache and broadcast hooks, which the code wraps in handlers, appear in Service instead.
- IngestRuns.AuditStaysOk: audit ids are consecutive, while a database sequence may leave gaps.
- Refresh.SingleBackground: a RuntimeError raised by submit after the task was queued, when no worker thread can be started, is not modelled; a refused submission queues nothing.
- Service.ClosedIsDrained: one lifespan; requests being served when the server stops, and the direct ingest path without a lifespan owner, are not drained by this code.
- Service.TeardownCanComplete: teardown can complete, it is not shown that a fair scheduler makes it complete.
- Refresh.RunKeepsInv: the two worker threads of the pool are not counted; any number of accepted tasks may run, which allows more interleavings.
- Requests.FreshHitChangesNothing: the value a request returns to its caller is not part of the state; it is the one its lookup found or its computation stored.
- Coordinator.SettledIsClosed: observers are inert; callbacks that re-enter load or throw are not modelled.
- LabelWrap.WrapLegendLabel: a character is one unit of length, as for labels without surrogate pairs.
- Geometry.LookupInvertsTimeX: exact arithmetic; floating-point rounding of pixels is not modelled.
- Buckets.BucketSeconds: whole seconds are taken exactly, without the rounding of very long spans as floating point.
- MergeScan.NormalizedSeriesEvents: timestamps arrive resolved; which of the alternative timestamp, key and count fields a row uses is not modelled.
- The text of error messages, and which of several defects of a snapshot is reported first: acceptance is modelled exactly.
- PostgreSQL itself: statements are atomic, a commit is atomic, an aggregate reads one snapshot; INTEGER range and text encoding are not modelled.
- `warm` in the cache, which nothing calls in production, and requests with `fresh=1`, which bypass the cache.
- Parsing of range strings, repository listing, health payload, HTTP, sessions, password hashing and static files: thin or library behaviour.
- Colours, tooltips, tick labels, React components and locale formatting.
- Object keys such as `__proto__`, which JavaScript treats specially.
