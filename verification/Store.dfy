/** The result store: its files, the pointer rule, and what a promotion needs and leaves. */
module Store {
  import opened Texts
  import opened Bundles
  import opened Policies
  import opened Grouping
  import Lists
  import Sorting

  // ---------------------------------------------------------------- records

  datatype DisplayCommit = DisplayCommit(sha: Text, message: Text, url: Text)

  datatype IndexEntry = IndexEntry(run: RunId, display: Option<DisplayCommit>)

  datatype Merge = Merge(sha: Text, tree: Text, mergedAt: Text, message: Text)

  datatype Publication = Publication(entry: IndexEntry, pullRequest: PullRequest, merge: Merge)

  datatype Pointer = Pointer(run: RunId, createdAt: Text)

  /** The files of a store, by what their paths are made of. A missing index counts as an empty one. */
  datatype Files = Files(
    runs: map<RunId, Bundle>,
    publications: map<nat, Publication>,
    index: Option<seq<IndexEntry>>,
    policies: map<RunId, Policy>,
    pointers: map<nat, Pointer>)

  const NO_FILES := Files(map[], map[], None, map[], map[])

  /** A file's contents together with its path. */
  datatype Document =
    | RunDocument(bundle: Bundle)
    | PublicationDocument(publication: Publication)
    | IndexDocument(runs: seq<IndexEntry>)
    | PolicyDocument(run: RunId, policy: Policy)
    | PointerDocument(number: nat, pointer: Pointer)

  function IndexOf(files: Files): seq<IndexEntry> {
    files.index.GetOr([])
  }

  /** What is now at the path of a document. */
  function Stored(files: Files, d: Document): Option<Document> {
    match d
    case RunDocument(b) =>
      if RunIdOf(b) in files.runs then Some(RunDocument(files.runs[RunIdOf(b)])) else None
    case PublicationDocument(p) =>
      var n := p.pullRequest.number;
      if n in files.publications then Some(PublicationDocument(files.publications[n])) else None
    case IndexDocument(_) =>
      if files.index.Some? then Some(IndexDocument(files.index.value)) else None
    case PolicyDocument(run, _) =>
      if run in files.policies then Some(PolicyDocument(run, files.policies[run])) else None
    case PointerDocument(number, _) =>
      if number in files.pointers then Some(PointerDocument(number, files.pointers[number])) else None
  }

  /** The files with a document at its path. */
  function Write(files: Files, d: Document): Files {
    match d
    case RunDocument(b) => files.(runs := files.runs[RunIdOf(b) := b])
    case PublicationDocument(p) => files.(publications := files.publications[p.pullRequest.number := p])
    case IndexDocument(runs) => files.(index := Some(runs))
    case PolicyDocument(run, policy) => files.(policies := files.policies[run := policy])
    case PointerDocument(number, pointer) => files.(pointers := files.pointers[number := pointer])
  }

  // ---------------------------------------------------------------- pending pointers

  /** The pending pointer moves to a newer workflow run, or to a later attempt of the same one. */
  predicate Supersedes(previous: Option<Pointer>, pointer: Pointer) {
    match previous
    case None => true
    case Some(p) =>
      Less(p.createdAt, pointer.createdAt) || (p.run.id == pointer.run.id && p.run.attempt <= pointer.run.attempt)
  }

  function PointerOf(files: Files, number: nat): Option<Pointer> {
    if number in files.pointers then Some(files.pointers[number]) else None
  }

  function WithIndex(files: Files): Files {
    if files.index.None? then Write(files, IndexDocument([])) else files
  }

  /** What archival leaves: the run, its policy, perhaps a newer pointer, and an index if there was none. */
  function Archived(files: Files, bundle: Bundle, policy: Policy, number: nat, createdAt: Text): Files {
    var run, pointer := RunIdOf(bundle), Pointer(RunIdOf(bundle), createdAt);
    var stored := Write(Write(files, RunDocument(bundle)), PolicyDocument(run, policy));
    var pointed :=
      if Supersedes(PointerOf(files, number), pointer) then Write(stored, PointerDocument(number, pointer)) else stored;
    WithIndex(pointed)
  }

  // ---------------------------------------------------------------- publications

  function RepositoryUrl(pr: PullRequest): Text {
    Plain("https://github.com/") + pr.repository
  }

  function WorkflowUrl(pr: PullRequest, run: RunId): Text {
    RepositoryUrl(pr) + Plain("/actions/runs/") + run.id + Plain("/attempts/") + Decimal(run.attempt)
  }

  function CommitUrl(pr: PullRequest, sha: Text): Text {
    RepositoryUrl(pr) + Plain("/commit/") + sha
  }

  /** Within a repository a workflow link determines the run id and the attempt. */
  lemma WorkflowUrlInjective(pr: PullRequest, a: RunId, b: RunId)
    requires Identifier(a.id) && Identifier(b.id)
    ensures WorkflowUrl(pr, a) == WorkflowUrl(pr, b) <==> a == b
  {
    if WorkflowUrl(pr, a) == WorkflowUrl(pr, b) {
      var attempts := Plain("attempts/");
      WorkflowUrlParts(pr, a);
      WorkflowUrlParts(pr, b);
      SamePrefix(RepositoryUrl(pr) + Plain("/actions/runs/"), a.id + [SLASH] + (attempts + Decimal(a.attempt)),
                 b.id + [SLASH] + (attempts + Decimal(b.attempt)));
      assert forall t: Text :: Identifier(t) ==> SLASH !in t;
      SplitAtFirst(a.id, attempts + Decimal(a.attempt), b.id, attempts + Decimal(b.attempt), SLASH);
      SamePrefix(attempts, Decimal(a.attempt), Decimal(b.attempt));
      DecimalInjective(a.attempt, b.attempt);
    }
  }

  lemma WorkflowUrlParts(pr: PullRequest, run: RunId)
    ensures WorkflowUrl(pr, run) ==
      RepositoryUrl(pr) + Plain("/actions/runs/") +
      (run.id + [SLASH] + (Plain("attempts/") + Decimal(run.attempt)))
  {
    assert Plain("/attempts/") == [SLASH] + Plain("attempts/");
  }

  predicate WellTypedPublication(p: Publication) {
    Identifier(p.entry.run.id) && PositiveInteger(p.entry.run.attempt) && PositiveInteger(p.pullRequest.number)
  }

  function ValidatePublication(bundle: Bundle, p: Publication): Result<Publication> {
    if !WellTypedPublication(p) then Err(InvalidIndex)
    else if bundle.source != Published then Err(NotMeasured)
    else if RunIdOf(bundle) != p.entry.run then Err(DifferentRun)
    else if bundle.run.pullRequest != Some(p.pullRequest) then Err(DifferentRevisions)
    else if bundle.run.commit.tree != p.merge.tree then Err(DifferentTree)
    else if bundle.run.workflow.url != Some(WorkflowUrl(p.pullRequest, RunIdOf(bundle)))
      || bundle.run.commit.url != Some(CommitUrl(p.pullRequest, bundle.run.commit.sha)) then Err(DifferentUrls)
    else Ok(p)
  }

  predicate Vouches(bundle: Bundle, p: Publication) {
    ValidatePublication(bundle, p).Ok?
  }

  /** The publication record of a run as if its measured commit were the merge. */
  function CandidatePublication(bundle: Bundle, pr: PullRequest): Publication {
    Publication(
      IndexEntry(RunIdOf(bundle), None), pr,
      Merge(bundle.run.commit.sha, bundle.run.commit.tree, bundle.run.createdAt, bundle.run.commit.message))
  }

  /** Archival checks early what promotion is going to check. */
  predicate Archivable(bundle: Bundle) {
    bundle.run.pullRequest.Some? && Vouches(bundle, CandidatePublication(bundle, bundle.run.pullRequest.value))
  }

  /** A record vouches for a run exactly when it names that run, its pull request and its source tree, and
      the run was measured and links to that repository. */
  lemma VouchesIff(bundle: Bundle, p: Publication)
    ensures Vouches(bundle, p) <==>
      && Identifier(p.entry.run.id) && PositiveInteger(p.entry.run.attempt) && PositiveInteger(p.pullRequest.number)
      && bundle.source == Published
      && bundle.run.id == p.entry.run.id && bundle.run.attempt == p.entry.run.attempt
      && bundle.run.pullRequest == Some(p.pullRequest) && bundle.run.commit.tree == p.merge.tree
      && bundle.run.workflow.url == Some(WorkflowUrl(p.pullRequest, p.entry.run))
      && bundle.run.commit.url == Some(CommitUrl(p.pullRequest, bundle.run.commit.sha))
  {
  }

  /** A run can be archived exactly when it was measured for a pull request and links to its repository. */
  lemma ArchivableIff(bundle: Bundle)
    ensures Archivable(bundle) <==>
      && Identifier(bundle.run.id) && PositiveInteger(bundle.run.attempt)
      && bundle.source == Published && bundle.run.pullRequest.Some?
      && PositiveInteger(bundle.run.pullRequest.value.number)
      && bundle.run.workflow.url == Some(WorkflowUrl(bundle.run.pullRequest.value, RunIdOf(bundle)))
      && bundle.run.commit.url == Some(CommitUrl(bundle.run.pullRequest.value, bundle.run.commit.sha))
  {
  }

  // ---------------------------------------------------------------- the index

  const EntryRun: IndexEntry -> RunId := (e: IndexEntry) => e.run

  ghost predicate DistinctEntries(runs: seq<IndexEntry>) {
    Lists.DistinctBy(EntryRun, runs)
  }

  predicate Included(runs: seq<IndexEntry>, run: RunId) {
    exists i :: 0 <= i < |runs| && runs[i].run == run
  }

  predicate EntryNoLater(leq: Order, a: IndexEntry, b: IndexEntry) {
    if a.run.id == b.run.id then a.run.attempt <= b.run.attempt else leq(a.run.id, b.run.id)
  }

  function EntryOrder(leq: Order): Sorting.Comparison<IndexEntry> {
    (a: IndexEntry, b: IndexEntry) => EntryNoLater(leq, a, b)
  }

  // ---------------------------------------------------------------- promotion

  /** An index entry that `parseHistoryRun` can read. */
  ghost predicate Readable(files: Files, run: RunId) {
    && run in files.runs
    && Complete(files.runs[run])
    && files.runs[run].source == Published
    && RunIdOf(files.runs[run]) == run
  }

  /** The bundles that an index names. */
  ghost function BundlesAt(files: Files, runs: seq<IndexEntry>): (bundles: seq<Bundle>)
    requires forall e :: e in runs ==> e.run in files.runs
    ensures |bundles| == |runs| && forall i :: 0 <= i < |runs| ==> bundles[i] == files.runs[runs[i].run]
  {
    seq(|runs|, i requires 0 <= i < |runs| => assert runs[i] in runs; files.runs[runs[i].run])
  }

  /** The entries after a promotion, before they are sorted. */
  ghost function NextEntries(runs: seq<IndexEntry>, p: Publication): seq<IndexEntry> {
    if Included(runs, p.entry.run) then runs else runs + [p.entry]
  }

  ghost predicate AllReadable(files: Files, runs: seq<IndexEntry>) {
    forall e :: e in runs ==> Readable(files, e.run)
  }

  ghost predicate PublishedAs(files: Files, p: Publication) {
    p.pullRequest.number in files.publications && files.publications[p.pullRequest.number] == p
  }

  ghost predicate RecordFree(files: Files, p: Publication) {
    p.pullRequest.number in files.publications ==> files.publications[p.pullRequest.number] == p
  }

  ghost predicate RunVouches(files: Files, p: Publication, policy: Policy) {
    && p.entry.run in files.runs
    && Publishable(files.runs[p.entry.run], policy)
    && Vouches(files.runs[p.entry.run], p)
  }

  ghost predicate AcceptableIndex(files: Files, runs: seq<IndexEntry>) {
    AllReadable(files, runs) && Acceptable(BundlesAt(files, runs))
  }

  /** What a promotion needs of the publications and the index. */
  ghost predicate IndexAllows(files: Files, p: Publication) {
    && RecordFree(files, p)
    && DistinctEntries(IndexOf(files))
    && AllReadable(files, IndexOf(files))
    && (Included(IndexOf(files), p.entry.run) ==> PublishedAs(files, p))
    && AcceptableIndex(files, NextEntries(IndexOf(files), p))
  }

  /** When `promoteRun` succeeds. */
  ghost predicate CanPromote(files: Files, p: Publication, policy: Policy) {
    RunVouches(files, p, policy) && IndexAllows(files, p)
  }

  ghost function NextIndex(leq: Order, files: Files, p: Publication): seq<IndexEntry> {
    Sorting.Sort(EntryOrder(leq), NextEntries(IndexOf(files), p))
  }

  /** What it leaves. */
  ghost function Promoted(leq: Order, files: Files, p: Publication): Files {
    Write(Write(files, PublicationDocument(p)), IndexDocument(NextIndex(leq, files, p)))
  }

  // ---------------------------------------------------------------- promotions commute

  /** Acceptance of an index passes to every smaller one. */
  lemma AcceptableIndexPart(files: Files, runs: seq<IndexEntry>, part: seq<IndexEntry>)
    requires AcceptableIndex(files, runs) && DistinctEntries(part) && forall e :: e in part ==> e in runs
    ensures AcceptableIndex(files, part)
  {
  }

  lemma SameRunsAcceptable(f: Files, g: Files, runs: seq<IndexEntry>)
    requires AcceptableIndex(g, runs) && f.runs == g.runs
    ensures AcceptableIndex(f, runs)
  {
    assert BundlesAt(f, runs) == BundlesAt(g, runs);
  }

  lemma NextEntriesMeans(runs: seq<IndexEntry>, p: Publication)
    requires DistinctEntries(runs)
    ensures DistinctEntries(NextEntries(runs, p))
    ensures forall e :: e in NextEntries(runs, p) ==> e in runs || e == p.entry
    ensures forall e :: e in runs ==> e in NextEntries(runs, p)
    ensures forall run :: Included(NextEntries(runs, p), run) <==> Included(runs, run) || run == p.entry.run
  {
    var next := NextEntries(runs, p);
    if !Included(runs, p.entry.run) {
      forall run
        ensures Included(next, run) <==> Included(runs, run) || run == p.entry.run
      {
        assert next[|runs|] == p.entry;
        if Included(runs, run) {
          var i :| 0 <= i < |runs| && runs[i].run == run;
          assert next[i].run == run;
        }
      }
    }
  }
}
