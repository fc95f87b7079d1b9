# Verification of the benchmark store, site and server

A Dafny model of the three parts of Hyperlight Bench whose correctness is not visible in any one
function, with proofs of what they promise. `dafny verify dfyconfig.toml` checks all of it.

**The result store.** `Store`, `Commands`, `Promotion`, `Protocol`, `Recovery`, `Convergence`, `Archival`,
`Pending` and `Overlap` model the directory of run files, publication records, policies, pending pointers
and the index. `Commands` has the commands as they run alone, on a class whose fields the writes update.
`Protocol` has them as processes: every creation of a lock directory or temporary file, every link,
rename and removal is one step, processes interleave in any order, may crash before any step, and an
operator clears only what a stopped process left behind. The empty index, the policy and the pointer are
written without the lock, as in the source. `Witness` gives stores that meet the assumptions, and inputs
at which something that one might expect does not hold.

**The bundle algebra.** `Texts`, `CanonicalJson`, `Bundles`, `Policies`, `Catalogs`, `Histories`,
`Grouping`, `Merging` and `MergeOrder` model run bundles and the checks on them. `Serving`, `Site`,
`Datasets`, `Dashboard`, `Viewing`, `Together` and `Selecting` follow the bundles through site assembly into the
dashboard's datasets. `Lists` and `Sorting` hold what these share. Loops of the source are methods that
are proved equal to specification functions, and the properties are lemmas about those functions.

**The server.** `Observer` models the CPU time watchdog as interleaved steps of workers and monitor,
`Handlers` the sandbox handlers and the three worker loops over an arbitrary guest program, `Pool` the
startup, the tickets and the queues, and `Workers` a pool whose workers drive such sandboxes.

How the model reads the source:

- Texts are sequences of UTF-16 code units. Relational comparison of strings is by code unit. The
  collation of `localeCompare` is a parameter that is assumed to be a total order on the texts compared.
  `CanonicalJson.IgnoresKeyOrderIffSeparating` shows exactly what depends on that for object keys.
- Records keep fields that the schema does not name as a value without key order. Where the source
  compares canonical texts, the typed model compares records for equality, which
  `CanonicalJson.CanonicalTextIffSameMeaning` justifies.
- Errors that the source throws, and panics, are results. Success conditions are stated as equivalences,
  so they cover the failing inputs.
- Answers of GitHub, the artifact, the policy, clocks, random file names and the guest are parameters.
- The documentation (`docs/results.md:277-279`) asks for a version bump when the set of runtimes or
  metrics changes. The code compares shared identifiers only (`shared/results.ts:301-315`), as
  `scripts/publication.test.ts:246-254` expects. The model follows the code, and
  `Witness.VersionMayChangeSets` has two such runs.
- Membership of a metric is tested with `in`, which sees inherited properties (`shared/results.ts:228`).
  `constructor` is the one identifier for which that matters. The model follows the code, and
  `Witness.RequiredMetricMissed` has such a run.
- A retry after a crash converges unless an incompatible promotion came in between.
  `Convergence.RetrySucceedsIff` states exactly when, and `Witness.RetryBlocked` is a run in which it fails.
- An unguarded pointer update can lose to a concurrent one. `Overlap` states exactly what any
  archivals that overlap can leave, and `Witness.PointerLost` is such a run. `Pending` is about archivals that run one
  after another, which the publisher's concurrency group provides (`docs/results.md:269-272`).

## Model

| member | source | states |
|---|---|---|
| `CanonicalJson.PrintUnambiguous` | shared/results.ts:113-119 | The printed text of a JSON tree can be read in only one way, also with more text behind it: brackets, separators and quoted strings with their escapes never run together. |
| `CanonicalJson.QuotedSpells` | shared/results.ts:116-118 | Strings and keys are printed as JSON strings (RFC 8259, section 7) whose value is exactly the text. |
| `CanonicalJson.CanonicalTextIffSameMeaning` | shared/results.ts:113-119 | `canonicalJson` gives equal texts for two values if and only if they are equal up to the order of object keys at every depth. |
| `CanonicalJson.IgnoresKeyOrderIffSeparating` | shared/results.ts:116 | Which collations make that work: for any total preorder, key order is ignored if and only if the collation ties no two different keys. |
| `Histories.DefinitionKeyIffSameDefinition` | shared/results.ts:269 | Two bundles get the same map key in `groupHistories` exactly when id, version and settings are equal up to key order. |
| `Bundles.RunKeyInjective` | shared/results.ts:121 | A run key determines the run id and attempt, although ids may contain full stops. |
| `Texts.DecimalMeans` | shared/results.ts:121 | The decimal numeral in keys and links reads back as the number and has no leading zero. |
| `Bundles.CellKeyInjective` | shared/results.ts:111 | For identifiers, a configuration key determines runtime, platform and strategy. |
| `Bundles.CellKeyNeedsIdentifiers` | shared/results.ts:3 | Without the exclusion of the separator from identifiers two configurations can share a key. |
| `Bundles.Unique` | shared/results.ts:188-195 | The loop collects exactly the given values and reports a duplicate exactly when two positions hold the same value. |
| `Bundles.CheckExpected` | shared/results.ts:205-209 | The expected keys stand for exactly the expected configurations, and the checks pass exactly when these are distinct and name catalog entries. |
| `Bundles.CheckRunners` | shared/results.ts:210-213 | Accepts exactly distinct runners on known platforms with the expected SKU and, for published runs, complete machine data. |
| `Bundles.CheckMeasurements` | shared/results.ts:214-241 | Accepts exactly the lists whose measurements are all good and stand for pairwise different configurations. |
| `Bundles.GoodMeasurementIff` | shared/results.ts:214-241 | A measurement is good exactly when its runner is listed, its runtime is in the catalog, runtime, platform and strategy are expected, a success has exactly the required metrics but for `constructor`, another outcome has no values, and text outputs hold texts. |
| `Bundles.CheckBundle` | shared/results.ts:186-254 | The refinement of the schema accepts exactly the bundles whose cross-field conditions hold. |
| `Bundles.MetricCoverage` | shared/results.ts:226-232 | Every success carries exactly the required metrics, except for a required metric named `constructor`, which the `in` test never misses: it is missing exactly when it is required and absent. |
| `Witness.RequiredMetricMissed` | shared/results.ts:228 | A complete run whose one required metric is missing from its one success. |
| `Bundles.ValidateCompleteRun` | shared/results.ts:320-329 | Accepts exactly the valid bundles with a success for every expected configuration, and returns them unchanged. |
| `Bundles.CompleteIffExactCover` | shared/results.ts:214-225 | A valid bundle is complete exactly when measurements and expected configurations match one to one and all measurements succeeded, so none failed or was skipped. |
| `Policies.NormalizedIffSameDefinitions` | shared/results.ts:341-355 | Comparing the sorted definitions decides exactly whether bundle and policy hold the same runtimes, platforms, metrics, metric ids and expected configurations in any order and agree on the other benchmark fields. |
| `Policies.ValidatePublishableRun` | shared/results.ts:337-362 | Accepts exactly the complete published runs with the policy's definitions and SKUs, and tells a definition mismatch from a SKU mismatch. |
| `Policies.PublishableResolves` | shared/results.ts:337-362 | Every metric, runtime and platform that a publishable run or its policy refers to is in the policy exactly once. Every machine of the run is recorded in full, on a platform of the policy, with the SKU that its own record and the policy expect. |
| `Catalogs.AbsorbChecked` | shared/results.ts:301-315 | Comparing each entry with the previous one of its identifier succeeds exactly when all entries with one identifier agree, and the map then holds their union. |
| `Catalogs.AbsorbMeans` | shared/results.ts:306 | A union of catalogs has each identifier once, and only entries that were given. |
| `Histories.ValidateHistory` | shared/results.ts:285-318 | Accepts exactly the nonempty lists of distinct runs with one source, one definition and pairwise agreeing shared runtimes and metrics, and returns the unions of their catalogs. |
| `Grouping.Collect` | shared/results.ts:264-273 | The first loop succeeds exactly for distinct runs from one source, and then holds the runs of each definition in order. |
| `Grouping.CheckGroups` | shared/results.ts:275-281 | The second loop succeeds exactly when every group is a valid history and no two groups share a version. |
| `Grouping.GroupHistories` | shared/results.ts:260-283 | Accepts exactly the lists with distinct runs, one source, and pairwise: equal versions have equal definitions and agree on shared runtimes and metrics. |
| `Grouping.AcceptablePart` | shared/results.ts:260-283 | Acceptance passes to every sublist and does not depend on order. |
| `Witness.VersionMayChangeSets` | shared/results.ts:301-315 | Two complete runs of one version are accepted together although their sets of runtimes, of metrics and of required metrics differ. |
| `Grouping.HistoriesIgnoreOrder` | shared/results.ts:263 | The result is the same for every permutation of the input. |
| `Grouping.HistoriesPartition` | shared/results.ts:264-282 | The groups partition the input, one nonempty group for each version, each strictly ascending by creation text and run key and itself a valid history. |
| `Grouping.HistoriesNewestFirst` | shared/results.ts:274 | Groups are strictly descending by their last run, so the first group ends with the newest run of all. |
| `Commands.ResultStore.WriteJson` | scripts/result-store.ts:19-39 | An immutable write fails exactly when another document is at the path, and then changes nothing. Any other write leaves exactly the document there, and no write leaves a temporary file. |
| `Commands.ResultStore.StoreRun` | scripts/publish-results.ts:11-16 | Succeeds exactly for a publishable run, a free lock and no conflicting record, and then adds exactly that run. |
| `Store.VouchesIff` | shared/results.ts:153-170 | A record is accepted exactly when it names the run's id, attempt, pull request and tree, the run was measured, and its workflow and commit links are those of that repository. |
| `Store.WorkflowUrlInjective` | shared/results.ts:166 | Within a repository a workflow link determines the run id and the attempt. |
| `Store.ArchivableIff` | scripts/publish-ci.ts:157-161 | The early check before archival comes down to this: the run was measured for a pull request and links to that repository. The tree is compared with itself. |
| `Commands.ResultStore.Archive` | scripts/publish-ci.ts:153-171 | Stores run and policy, moves the pending pointer if the run supersedes it and creates a missing index. A conflicting policy leaves the run stored and nothing else changed. |
| `Commands.ReadHistory` | scripts/publish-results.ts:28-29 | Reads the indexed runs exactly when the entries are distinct and every one names a readable run. |
| `Commands.ResultStore.CheckPromotion` | scripts/publish-results.ts:21-38 | The checks pass exactly when the run is publishable and vouched for, the publication record is free or the same, an indexed run has its record, and the history stays acceptable. The new index ascends strictly by id and then attempt, and holds the old entries and the promoted one. |
| `Commands.ResultStore.PromoteRun` | scripts/publish-results.ts:18-43 | Succeeds exactly under those conditions with a free lock, and then leaves exactly the record and the new index, strictly ascending by id and then attempt. A failure changes nothing. |
| `Promotion.PromotionKeepsIntact` | scripts/publish-results.ts:18-43 | A promotion keeps every index entry backed by a run and a record of the same pull request and tree, changes no record, loses no entry, and publishes its run. |
| `Promotion.DistinctPullRequests` | scripts/publish-results.ts:23-27 | In an intact store distinct index entries belong to distinct pull requests. |
| `Promotion.PromotionsCommute` | scripts/publish-results.ts:30-40 | If A and then B succeed, then B and then A succeed and leave the same files. |
| `Promotion.PromotionRepeats` | scripts/publish-results.ts:25-40 | A successful promotion can be repeated. |
| `Promotion.RepeatChangesNothing` | scripts/publish-results.ts:25-40 | Repeating it changes nothing. |
| `Promotion.PromotedWrites` | scripts/publish-results.ts:30-40 | A promotion writes an index that holds the old entries, and the new one unless its run was listed, strictly ascending by id and then attempt. Beside it only the record of its pull request changes. |
| `Protocol.StepKeepsInvariant` | scripts/result-store.ts:19-57 | Every atomic step of a store, archive or promote process keeps the store intact, the lock exclusive and what each process has read true until it writes. |
| `Protocol.StepLock` | scripts/result-store.ts:41-57 | The lock is taken only when free and released only by its holder, so critical phases exclude each other. |
| `Protocol.ReachableStates` | docs/results.md:257-267 | After any interleaving of any number of processes with crashes anywhere and leftovers of stopped processes cleared: each index entry has its run and a record of the same pull request and tree, distinct entries have distinct pull requests, the published runs can be grouped, critical phases exclude each other, and no run, record or entry was lost or changed. |
| `Protocol.NothingPublishedChanges` | scripts/result-store.ts:24-36 | Between any two moments of a run no run file or publication record changes and no index entry is lost. |
| `Recovery.PromotionAloneRefinesCommand` | scripts/publish-results.ts:18-43 | A promotion process that runs alone with a free lock ends exactly as the command specifies, in success and in failure, holding neither lock nor temporary file. |
| `Recovery.StoringAloneRefinesCommand` | scripts/publish-results.ts:11-16 | The same for a storing process. |
| `Recovery.ArchivingAloneRefinesCommand` | scripts/publish-ci.ts:163-171 | The same for an archiving process, most of whose writes are outside the lock, with its failures on conflicting runs and policies. |
| `Recovery.InvalidJobsRefused` | scripts/publish-ci.ts:157-161 | What the protocol refuses before it begins the command refuses too, with no file changed: a run that cannot be archived, and a record that is not well formed. |
| `Convergence.RetryPossibleIff` | docs/results.md:262-267 | After any run of the protocol, with crashes and other promotions in between, a vouched promotion is possible if and only if no other record was made for its pull request and its run is compatible with every published one. If it was possible before, only runs published since then matter. |
| `Convergence.RetrySucceedsIff` | docs/results.md:264-267 | Once the lock is clear, a retry that runs alone succeeds under exactly that condition, and otherwise leaves all files as they are. |
| `Convergence.RetryConverges` | scripts/publish-results.ts:20-41 | A retry that succeeds leaves, together with the promotions completed in between, the publications and index of uninterrupted promotions made one after another in any order, each possible in its turn. |
| `Convergence.RunsLikePromotions` | scripts/publish-results.ts:20-41 | The same for any run in which a promotion is done: its promotions can be replayed without interruption in any order and lead to the same publications and index. |
| `Convergence.ListableIffSettled` | scripts/publish-results.ts:39-40 | Completed promotions account for all that a run added exactly when no new record is without its index entry. |
| `Convergence.RunTracked` | scripts/publish-results.ts:39-40 | Whatever a run adds to publications and index was added by its promotions, and a promotion that is done is published in a sorted index and stays so. |
| `Convergence.DonePublished` | scripts/publish-results.ts:38-40 | In every state that any processes reach, a promotion that is done has its record and its entry, and the index ascends strictly by id and then attempt. |
| `Convergence.AttemptsLeaveSameFiles` | scripts/publish-results.ts:20-41 | When all jobs are attempts of one promotion, however often they crash, one that is done left exactly the files of an uninterrupted promotion. |
| `Witness.RetryBlocked` | scripts/publish-results.ts:30-37 | A run in which a possible promotion crashes, another one publishes another definition of the same version, and the retry is impossible from then on. |
| `Archival.PendingRunsPublishable` | scripts/publish-ci.ts:163-171 | In every reachable state a pending pointer names a stored run and a stored policy under which it is publishable, and a finished archival left run, policy, pointer and index. |
| `Archival.PendingRunPromotable` | scripts/publish-ci.ts:71-85 | Promoting a pending run under its archived policy can fail only because the merged tree differs or because of publications and index. |
| `Texts.LessMeans` | scripts/publish-ci.ts:168 | The comparison of creation texts: at the first position where two texts differ the smaller code unit decides, and a proper prefix comes first. |
| `Pending.SerialArchivals` | scripts/publish-ci.ts:165-170 | Archivals one after another, failed ones among them, leave each pull request with what the pointer rule makes of the pointers it was offered, in order. |
| `Pending.ArchivedRest` | scripts/publish-ci.ts:163-171 | An archival adds its run and its policy, touches no pointer of another pull request and no publication, and keeps an index that was there. |
| `Pending.NeverBackwardIffAttemptsInOrder` | scripts/publish-ci.ts:168 | Over all delivery orders with repeats the pointer never moves to an earlier creation text, if and only if no later attempt of a run has an earlier creation text. |
| `Pending.LatestIsMaximum` | scripts/publish-ci.ts:168 | When runs have one creation text each and the latest text belongs to one run, the pointer ends exactly at its last attempt. |
| `Pending.SerialPointerIsMaximum` | scripts/publish-ci.ts:165-170 | So the pointer file of a store ends, after serial archivals, at the last attempt of the latest run offered. |
| `Pending.OrderIrrelevantIffOneLatestRun` | scripts/publish-ci.ts:168 | Under one creation text for each run, the delivery order does not matter if and only if the latest creation text belongs to one run. |
| `Overlap.OverlapsLeaveExactly` | scripts/publish-ci.ts:165-170 | Any number of archivals of one pull request, interleaved step by step with each other and with any other jobs, can leave exactly the end of any chain in which each pointer supersedes the one before it, starting from the pointer that was there, or that one itself if none supersedes it. |
| `Overlap.OverlapLosesIff` | scripts/publish-ci.ts:165-170 | Two of them can leave what no serial order leaves if and only if both supersede the pointer that was there and one supersedes the other but not the other way round. |
| `Witness.PointerLost` | scripts/publish-ci.ts:165-170 | A run in which an earlier and a later archival overlap, both succeed and the pointer ends at the earlier run. |
| `Witness.PromotionsPossible` | scripts/publish-results.ts:18-43 | There is a quiet store in which two promotions for different pull requests succeed one after the other, so the assumptions of the results about promotions can be met. |
| `Merging.CollectShards` | scripts/merge-results.ts:24-31 | The loop succeeds exactly when all shards have the first one's definition, no higher attempt and, if published, their own workflow link, and then holds all runners and measurements and the earliest creation text. |
| `Merging.MergeBundles` | scripts/merge-results.ts:8-35 | A merge succeeds exactly under its conditions, and returns the combined run. |
| `Merging.MergeCoversOnce` | scripts/merge-results.ts:24-34 | Whenever it succeeds, every expected configuration comes from exactly one successful measurement of exactly one shard, and the result has the measurements and runners of the shards and no others. |
| `MergeOrder.ShardDefinitionMeans` | scripts/merge-results.ts:16-20 | Shards have equal definitions exactly when they differ at most in attempt, creation text, workflow link, runners and measurements. |
| `MergeOrder.MergeIgnoresOrder` | scripts/merge-results.ts:24-34 | A merge that succeeds also succeeds for any reordering of the shards, with the same attempt, creation text and definitions and the same runners and measurements up to order. |
| `MergeOrder.MergedCreation` | scripts/merge-results.ts:28 | The merged creation text belongs to a shard and no shard has an earlier one. |
| `MergeOrder.MergedIdentity` | scripts/merge-results.ts:12-32 | A successful merge has the attempt that was given, or the highest attempt of a shard if none was, and no shard exceeds it. Its workflow link is the one of that attempt, each shard links to its own attempt, and source, definitions, commit and pull request are those of every shard. |
| `MergeOrder.MergeUndoesSplitting` | scripts/merge-results.ts:8-35 | A publishable run that is divided into shards in any way merges into itself. With a later attempt given, it merges into itself at that attempt, with the workflow link of that attempt. |
| `Serving.ServedComplete` | scripts/assemble-site.ts:76 | Every bundle with its history's catalog is still complete and valid. |
| `Serving.ServedAcceptable` | scripts/assemble-site.ts:57-61 | The served bundles can be grouped again. |
| `Serving.ServedHistories` | scripts/assemble-site.ts:57-76 | They fall into the same histories in the same order, and each history keeps its catalog. |
| `Serving.ServedOnce` | scripts/assemble-site.ts:57-76 | Rewriting the catalogs twice is rewriting them once. |
| `Site.CollectCatalogs` | scripts/assemble-site.ts:57-61 | The map gives every run the catalog of its own history. |
| `Site.ServeData` | scripts/assemble-site.ts:56-78 | Serves exactly when the bundles can be grouped, the records of indexed runs vouch for them and a pending run is among them, and then writes the rewritten runs and the index entries with their merge commits. |
| `Site.ServePreviews` | scripts/assemble-site.ts:82-104 | The loop succeeds exactly when no pull request repeats and every preview can be served, and gives each preview its own data. |
| `Site.AssembleSite` | scripts/assemble-site.ts:44-109 | Assembly succeeds exactly when the published runs and all previews can be served, and yields those data directories. |
| `Viewing.SiteLoads` | scripts/assemble-site.ts:79-104 | Every site that assembly completes is accepted by the dashboard, for production and for every preview. |
| `Viewing.DataLoads` | src/data.ts:80-120 | A served data directory loads with any version selection exactly when the histories of the store allow that selection. |
| `Viewing.IndexesExact` | scripts/assemble-site.ts:82-103 | Production names exactly the published runs in index order. A preview has the same entries, and its pending run after them if and only if the build includes pending runs, its pointer names a stored run whose pull request is that repository, number, head and base, and no index entry has that run's id and attempt. Its pending run is then the pointer's, and otherwise none. |
| `Viewing.AssemblesIff` | scripts/assemble-site.ts:52-104 | Assembly succeeds exactly when every entry names a complete published run, no run twice, the records of listed runs vouch for them, the runs can be grouped, no two builds share a number, and every pointer that is read names a complete published run that can be grouped with the others if it is added. |
| `Viewing.ProductionIgnoresPending` | scripts/assemble-site.ts:81 | What production serves does not depend on pointers or previews. |
| `Viewing.IntactStoreAssembles` | scripts/assemble-site.ts:52-103 | A store that the protocol keeps can be assembled exactly when previews are for distinct pull requests and each pending run can be grouped with the published ones. |
| `Viewing.ReachableStoreAssembles` | scripts/assemble-site.ts:52-103 | So every store that any interleaving of processes reaches, with crashes anywhere, can be assembled under exactly those conditions. |
| `Viewing.PublishedRunsNamed` | scripts/assemble-site.ts:62-74 | In such a store every published run is shown under the commit that its publication record merged. |
| `Viewing.SameDataset` | scripts/assemble-site.ts:57-76 | A served history has the dataset of the history in the store: the same catalog lists, runs and rows. |
| `Selecting.VisitorSees` | src/data.ts:103-138 | On an assembled site the default view shows the version of the selected run if it is served, else of the preview's pending run, else of a run that no served run is later than. Requested versions are shown as requested. The view lists exactly the runs of these versions in strict order of creation, each under its recorded merge commit, or its own commit if it is not published, and exactly the rows of their successful measurements. |
| `Selecting.VisitorSeesStore` | src/data.ts:103-138 | When one version is shown, its history is exactly the served runs of that version in order, with the rows that it has in the store, and for every identifier the catalog entry of the latest run that names it. |
| `Selecting.LoadedViewReports` | src/data.ts:105-138 | The same for any data that loads, however the site was made: versions shown and offered, runs and their order, names by the index, rows, source and preview. |
| `Selecting.LoadedListsReport` | src/data.ts:40-68 | For any data that loads and any versions, the view lists for every identifier the entry of the latest shown run that names it, and the shown runs agree on unit and direction of every metric. |
| `Selecting.LoadedRunsFit` | src/data.ts:86-104 | Data that loads has a complete, not synthetic run under its own name for every index entry, no run twice, and a pending run that belongs to the preview's pull request and head. |
| `Selecting.GoodRequestIff` | src/data.ts:107-115 | A request can be met exactly when it names different versions and each is the version of some run. |
| `Together.VisitorSeesVersions` | src/data.ts:40-68 | The view of several requested versions shows the runs and rows that their histories have in the store, catalog lists with the same identifiers, and for every identifier the entry of the store's own bundles if and only if the newest runs agree. |
| `Together.CombinedEntriesIff` | src/data.ts:44-57 | Kind by kind, for runtimes, platforms and metrics: served and stored bundles combine to the same entry for every identifier if and only if the latest selected run that names it, and the history of the latest selected run whose history names it, end in the same entry. |
| `Witness.CombinedEntriesDiffer` | src/data.ts:48-57 | Three runs of two versions for which that condition fails and the combined view shows another entry of a metric than the bundles of the store. |
| `Datasets.DatasetFromBundles` | src/data.ts:142-162 | Succeeds exactly for valid bundles that form a history. |
| `Datasets.RowsAreMeasurements` | src/data.ts:156-160 | The rows are exactly those of successful measurements: runner, runtime, strategy and values of the measurement, and the platform of the run's runner with that id. |
| `Datasets.DatasetReports` | src/data.ts:142-162 | The runs of a dataset are the given ones in strict order of creation, each with its key, short commit, message, date, link and runners. Its rows are exactly their successful measurements, and its lists have for every identifier the entry of the latest run that names it. |
| `Datasets.RowsAreKeyed` | src/data.ts:156-160 | For complete runs with distinct run keys, run, runtime, platform and strategy are a key of the rows, and the rows are exactly those of the expected configurations. |
| `Dashboard.CombineMetrics` | src/data.ts:45-57 | Succeeds exactly when shared metrics have equal units and directions in every pair of runs. |
| `Dashboard.DatasetFromHistories` | src/data.ts:40-68 | Several versions can be shown together exactly when each is a valid history and their shared metrics agree on unit and direction. |
| `Dashboard.CombinedLikeOneHistory` | src/data.ts:44-67 | Several versions are shown like one history of all their runs in creation order: the same runs and catalog lists, and the same rows up to order. |
| `Dashboard.FetchAll` | src/data.ts:90-97 | Fetching in batches of eight gives all runs in index order, exactly when every one can be fetched. |
| `Dashboard.LoadHistory` | src/data.ts:80-140 | Loading succeeds exactly when index, runs, pending run, grouping and requested versions are good, and shows the selection. |
| `Observer.CpuTimeObserver.Scan` | crates/observer/src/observer.rs:127-141 | One scan kills exactly the entries that are past the timeout and keeps the others. |
| `Observer.StartRefines` | crates/observer/src/observer.rs:70-90 | From clock reading to notification, the steps of an undisturbed call leave what `StartTimeout` leaves: the handle's entry is replaced and nothing else changes. |
| `Observer.StopRefines` | crates/observer/src/observer.rs:92-99 | The steps of an undisturbed removal leave what `StopTimeout` leaves. |
| `Observer.ScanRefines` | crates/observer/src/observer.rs:127-141 | A complete scan with clocks that stand still leaves what `Scan` leaves, whatever order the entries are examined in. |
| `Observer.StepKeepsInvariant` | crates/observer/src/observer.rs:69-146 | Every step of every thread keeps the lock exclusive, entries owned by running calls, and the log of interrupts justified. |
| `Observer.InterruptsJustified` | crates/observer/src/observer.rs:92-141 | In every interleaving an interrupt fires at most once for a registration, after it, with at least the timeout elapsed, and never after `stop_timeout` returned. Every scan interrupts all registrations that were due when it began. |
| `Observer.ScanCatchesOverdue` | crates/observer/src/observer.rs:127-141 | Whatever the other threads do meanwhile, a scan that has ended has interrupted every registration whose thread had used the timeout when the scan began. |
| `Observer.InterruptHitsOwnCall` | crates/observer/src/observer.rs:130-139 | When an entry is examined its call has been inserted and not removed, the entry names its thread and handle, and the interrupt fires exactly when that thread has used the timeout since the registration. |
| `Observer.ElapsedNeverUnderflows` | crates/observer/src/observer.rs:131-132 | With clocks that never go back, no elapsed time underflows in any reachable state. |
| `Observer.NoWakeupLost` | crates/observer/src/observer.rs:83-125 | While something is registered, the monitor is blocked only if a worker is between its insertion and its notification. |
| `Observer.MonitorLooksFirst` | crates/observer/src/observer.rs:119-125 | The monitor goes on to scan only when it sees an entry, and blocks only when it sees none, both while it holds the lock. |
| `Observer.MonitorComesRound` | crates/observer/src/observer.rs:113-145 | A monitor that sleeps or was woken comes round to the next scan while something is registered and the lock is free. |
| `Observer.LockExcludes` | crates/observer/src/observer.rs:80-141 | While a worker holds the lock no other worker does, and the monitor neither tests nor scans the map. |
| `Handlers.WasmSandbox.LoadModule` | crates/server/src/handlers/hyperlight_wasm.rs:149-171 | Loads the module or its snapshot into an unloaded sandbox and panics on a loaded one. |
| `Handlers.WasmSandbox.UnloadModule` | crates/server/src/handlers/hyperlight_wasm.rs:173-184 | Unloads a loaded module of a restoring context, and panics otherwise. |
| `Handlers.WasmSandbox.Handle` | crates/server/src/handlers/hyperlight_wasm.rs:186-214 | Steps the loaded guest, and panics without one or when it fails. |
| `Handlers.WasmtimeStore.Instantiate` | crates/server/src/handlers/wasmtime.rs:88-96 | Puts a fresh instance and store into the context. |
| `Handlers.WasmtimeStore.Take` | crates/server/src/handlers/wasmtime.rs:98-102 | Takes both out, and panics if one is missing. |
| `Handlers.WasmtimeStore.Handle` | crates/server/src/handlers/wasmtime.rs:104-118 | Steps the guest in the store, and panics without one. |
| `Handlers.NativeSandbox.RestoreSnapshot` | crates/server/src/handlers/hyperlight_dummy.rs:58-65 | Restores the snapshot of a restoring context, and panics otherwise. |
| `Handlers.NativeSandbox.Handle` | crates/server/src/handlers/hyperlight_dummy.rs:67-72 | Steps the guest in the sandbox. |
| `Handlers.LoadInto` | crates/server/src/main.rs:85-121 | Loading any of the four sandboxes in place does what the context function says, so the worker loops drive the sandboxes themselves. |
| `Handlers.UnloadFrom` | crates/server/src/main.rs:142 | The same for unloading. |
| `Handlers.HandleIn` | crates/server/src/main.rs:90-126 | The same for a request. |
| `Handlers.PanicsExactly` | crates/server/src/handlers/hyperlight_js.rs:64-92 | For each handler and strategy exactly these call sequences run without a panic: no load of a loaded sandbox, no unload where the strategy keeps no snapshot, and nothing that needs a loaded guest without one. |
| `Handlers.UnloadRestores` | crates/server/src/handlers/hyperlight_dummy.rs:44-65 | Whatever the guest did, unloading a reloading context gives back the context that was loaded. |
| `Handlers.WorkerNew` | crates/server/src/main.rs:69-107 | Every job is answered by the program as it was loaded. |
| `Handlers.WorkerReload` | crates/server/src/main.rs:110-148 | For any guest program and any handler the responses are those of New. |
| `Handlers.WorkerReuse` | crates/server/src/main.rs:151-188 | The responses are those of one guest stepped through all jobs. |
| `Handlers.FreshRepeats` | crates/server/src/main.rs:69-148 | Under New and Reload the only panic is a failing guest, on the first job, and otherwise all jobs get the same response. |
| `Handlers.ReuseStepsOneGuest` | crates/server/src/main.rs:151-188 | Under Reuse each response comes from the state that the previous job left, and the only panic is a failing guest. |
| `Handlers.ReuseLikeNewIff` | crates/server/src/main.rs:110-188 | Reuse answers a number of jobs like New if and only if no job changes how the guest answers later ones. |
| `Handlers.ReuseAlwaysLikeNewIff` | crates/server/src/main.rs:110-188 | Reuse answers like New for every number of jobs if and only if the guest has a set of states that holds the image, is closed under steps and answers like the image. |
| `Pool.StartsReady` | crates/server/src/main.rs:244-254 | The pool starts only after every worker has signalled that it is ready. |
| `Pool.SandboxPool.Submit` | crates/server/src/main.rs:258-277 | A job goes to the end of the queue that its ticket chooses and to no other. |
| `Pool.EachJobInOnePlace` | crates/server/src/main.rs:258-280 | In every reachable state a job is in exactly one place: held by its client, queued, in service or answered, at the worker that its ticket chose. |
| `Pool.ServesInOrder` | crates/server/src/main.rs:80-104 | What a worker has answered is, in order, a beginning of what it was sent. |
| `Pool.AnsweredAtMostOnce` | crates/server/src/main.rs:268-280 | Every answer goes to an issued job and no job is answered twice. |
| `Workers.TurnAnswers` | crates/server/src/main.rs:80-188 | One turn of a worker's loop, under any strategy, gives the next response of its service and panics only when the guest fails. |
| `Workers.AnswersAreServed` | crates/server/src/main.rs:80-280 | In every interleaving of clients and workers that drive sandboxes, the k-th answer of a worker goes to the k-th job it was sent and is the k-th response of its service. |
| `Workers.EveryAnswerFresh` | crates/server/src/main.rs:69-148 | Under New and Reload every client of the pool gets the response of the program as it was loaded. |
| `Pool.FairBeforeWrap` | crates/server/src/main.rs:263-266 | For up to 2^64 tickets the workers' shares differ by at most one. |
| `Pool.FairForeverIffDividing` | crates/server/src/main.rs:263-266 | The shares stay that close for ever if and only if the number of workers divides 2^64. |
| `Pool.JobsSharedFairly` | crates/server/src/main.rs:263-277 | The jobs sent to a worker or held for it are exactly its share, and before the counter wraps two shares differ by at most one. |

## Left out

- Field syntax of the schema: patterns of hashes, links and timestamps, trimming and emptiness of texts, and number ranges, except for identifiers and positive integers.
- Numbers in JSON are represented by their printed text, so the printing of floating point numbers is not modelled.
- Unknown top-level fields of a bundle, which the source also carries along. They take part in no check.
- Malformed JSON files and a store index with preview metadata: reading them fails in the source. The stored documents of the model are well formed.
- GitHub and Git: eligibility, verification of workflow runs and candidates, commit statuses, pushes and their conflicts. Each would add a parameter and an early failure.
- Copying builds into the site: a walk over a directory beside the data that is modelled.
- Processes of `Protocol` read each indexed run in its own step. The stages of reading one file, and directories other than the lock, are not split further.
- Commands.ResultStore.Archive: stops before the promotion that follows for a merged pull request, which is `PromoteRun`.
- Together.VisitorSeesVersions: compares the catalog lists of several versions by identifier and entry, not by the order of the lists.
- Dashboard.LoadHistory: leaves out the text of history labels and takes the requested versions already split at commas.
- Merging.MergeBundles: takes the attempt as an integer. An attempt that is not a number at all is rejected by the source and not modelled.
- Observer shutdown, and reading a thread's clock as a system call. The flag is set without the mutex, so no claim is made that the monitor ends.
- Handlers: sandbox construction, the host resource table that survives a restore, and the observer calls inside `handle_request`, which `Observer` models as the phases of a call. Snapshot, restore, load and unload are assumed exact, and unloading a script sandbox is assumed to drop its handlers.
- The dummy handler without a sandbox, the memory monitor, phase timing and configuration constants: easy or foreign.
- Pool: the end of a worker whose panic exits the process, and clients that stop waiting.
- Charts, page state and downloads of the dashboard.
