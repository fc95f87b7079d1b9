/** The two store commands as they run when nothing interferes: prepare a temporary file, link or rename
    it, remove it, all under a lock directory that is removed whatever happens. */
module Commands {
  import opened Texts
  import opened Bundles
  import opened Policies
  import opened Grouping
  import opened Store
  import Lists
  import Promotion
  import Sorting

  ghost predicate Conflicts(files: Files, d: Document) {
    Stored(files, d).Some? && Stored(files, d).value != d
  }

  /** Archival stores a run that is publishable, belongs to its pull request and is not on file with other
      contents. */
  ghost predicate StoresRun(files: Files, bundle: Bundle, policy: Policy) {
    Publishable(bundle, policy) && Archivable(bundle) && !Conflicts(files, RunDocument(bundle))
  }

  /** It succeeds if the policy is not on file with other contents either. */
  ghost predicate CanArchive(files: Files, bundle: Bundle, policy: Policy) {
    StoresRun(files, bundle, policy) && !Conflicts(files, PolicyDocument(RunIdOf(bundle), policy))
  }

  ghost function AfterArchival(files: Files, bundle: Bundle, policy: Policy, number: nat, createdAt: Text): Files {
    if CanArchive(files, bundle, policy) then Archived(files, bundle, policy, number, createdAt)
    else if StoresRun(files, bundle, policy) then Write(files, RunDocument(bundle))
    else files
  }

  lemma RewriteSame(files: Files, d: Document)
    requires Stored(files, d) == Some(d)
    ensures Write(files, d) == files
  {
  }

  lemma KeysDistinct(runs: seq<IndexEntry>)
    ensures Lists.DistinctBy(Itself, Lists.Map((e: IndexEntry) => RunKey(e.run), runs)) <==> DistinctEntries(runs)
  {
    forall i, j | 0 <= i < |runs| && 0 <= j < |runs|
      ensures RunKey(runs[i].run) == RunKey(runs[j].run) <==> runs[i].run == runs[j].run
    {
      RunKeyInjective(runs[i].run, runs[j].run);
    }
  }

  /** Parses the index and reads every run it names. */
  method ReadHistory(files: Files) returns (r: Result<seq<Bundle>>)
    ensures r.Ok? <==> DistinctEntries(IndexOf(files)) && AllReadable(files, IndexOf(files))
    ensures r.Ok? ==> r.value == BundlesAt(files, IndexOf(files))
  {
    var index := IndexOf(files);
    KeysDistinct(index);
    var _, distinct := Unique(Lists.Map((e: IndexEntry) => RunKey(e.run), index));
    if !distinct {
      return Err(InvalidIndex);
    }
    var history: seq<Bundle> := [];
    for i := 0 to |index|
      invariant forall j :: 0 <= j < i ==> Readable(files, index[j].run)
      invariant |history| == i && forall j :: 0 <= j < i ==> history[j] == files.runs[index[j].run]
    {
      var run := index[i].run;
      assert index[i] in index;
      if run !in files.runs {
        return Err(NotFound);
      }
      var bundle := files.runs[run];
      var complete := ValidateCompleteRun(bundle);
      if complete.Err? {
        return Err(complete.error);
      }
      if bundle.source != Published {
        return Err(NotMeasured);
      }
      if RunIdOf(bundle) != run {
        return Err(DifferentRun);
      }
      history := history + [bundle];
    }
    return Ok(history);
  }

  class ResultStore {
    var files: Files
    var temporaries: map<nat, Document>
    var locked: bool

    constructor ()
      ensures files == NO_FILES && temporaries == map[] && !locked
    {
      files, temporaries, locked := NO_FILES, map[], false;
    }

    /** An immutable write succeeds if the path is free or already holds the same document. A replacing
        write always succeeds. A failure changes nothing. */
    method WriteJson(d: Document, immutable: bool, nonce: nat) returns (r: Result<()>)
      requires nonce !in temporaries
      modifies this`files, this`temporaries
      ensures r.Err? <==> immutable && Conflicts(old(files), d)
      ensures files == if r.Ok? then Write(old(files), d) else old(files)
      ensures temporaries == old(temporaries)
    {
      temporaries := temporaries[nonce := d];
      r := Ok(());
      if immutable {
        var existing := Stored(files, d);
        if existing.None? {
          files := Write(files, temporaries[nonce]);
        } else if existing.value != d {
          r := Err(ConflictingRecord);
        } else {
          RewriteSame(files, d);
        }
      } else {
        files := Write(files, temporaries[nonce]);
      }
      temporaries := temporaries - {nonce};
    }

    method StoreRun(leq: Order, bundle: Bundle, policy: Policy, nonce: nat) returns (r: Result<()>)
      requires TotalOrder(leq) && nonce !in temporaries
      modifies this
      ensures r.Ok? <==> Publishable(bundle, policy) && !old(locked) && !Conflicts(old(files), RunDocument(bundle))
      ensures files == if r.Ok? then Write(old(files), RunDocument(bundle)) else old(files)
      ensures temporaries == old(temporaries) && locked == old(locked)
    {
      var valid := ValidatePublishableRun(leq, bundle, policy);
      if valid.Err? {
        return Err(valid.error);
      }
      if locked {
        return Err(StoreLocked);
      }
      locked := true;
      r := WriteJson(RunDocument(bundle), true, nonce);
      locked := false;
    }

    /** Archival: the run goes in under the lock, the rest without it. A policy that conflicts with the
        one on file leaves the run stored and nothing else changed. */
    method Archive(leq: Order, bundle: Bundle, policy: Policy, number: nat, createdAt: Text, nonce: nat)
      returns (r: Result<()>)
      requires TotalOrder(leq) && nonce !in temporaries
      modifies this
      ensures r.Ok? <==> !old(locked) && CanArchive(old(files), bundle, policy)
      ensures files ==
        if old(locked) then old(files) else AfterArchival(old(files), bundle, policy, number, createdAt)
      ensures temporaries == old(temporaries) && locked == old(locked)
    {
      var valid := ValidatePublishableRun(leq, bundle, policy);
      if valid.Err? {
        return Err(valid.error);
      }
      if !Archivable(bundle) {
        return Err(DifferentRevisions);
      }
      r := StoreRun(leq, bundle, policy, nonce);
      if r.Err? {
        return;
      }
      r := WriteJson(PolicyDocument(RunIdOf(bundle), policy), true, nonce);
      if r.Err? {
        return;
      }
      var pointer := Pointer(RunIdOf(bundle), createdAt);
      if Supersedes(PointerOf(files, number), pointer) {
        r := WriteJson(PointerDocument(number, pointer), false, nonce);
      }
      if files.index.None? {
        r := WriteJson(IndexDocument([]), true, nonce);
      }
    }

    /** The checks before a promotion writes anything. Returns the new index. */
    method CheckPromotion(leq: Order, p: Publication, policy: Policy) returns (r: Result<seq<IndexEntry>>)
      requires TotalOrder(leq)
      ensures r.Ok? <==> CanPromote(files, p, policy)
      ensures r.Ok? ==> r.value == NextIndex(leq, files, p) && Promotion.EntriesAscend(leq, r.value)
    {
      if p.entry.run !in files.runs {
        return Err(NotFound);
      }
      var bundle := files.runs[p.entry.run];
      var valid := ValidatePublishableRun(leq, bundle, policy);
      if valid.Err? {
        return Err(valid.error);
      }
      if ValidatePublication(bundle, p).Err? {
        return Err(ValidatePublication(bundle, p).error);
      }
      r := CheckIndex(leq, p);
      if r.Ok? {
        Promotion.NextIndexAscends(leq, files, p);
      }
    }

    method CheckIndex(leq: Order, p: Publication) returns (r: Result<seq<IndexEntry>>)
      requires TotalOrder(leq) && Readable(files, p.entry.run)
      ensures r.Ok? <==> IndexAllows(files, p)
      ensures r.Ok? ==> r.value == NextIndex(leq, files, p)
    {
      var number := p.pullRequest.number;
      if number in files.publications && files.publications[number] != p {
        return Err(DifferentPublication);
      }
      var index := IndexOf(files);
      var read := ReadHistory(files);
      if read.Err? {
        return Err(read.error);
      }
      var included := exists i :: 0 <= i < |index| && index[i].run == p.entry.run;
      if included && number !in files.publications {
        return Err(UnrecordedPublication);
      }
      var history := read.value;
      if !included {
        history := history + [files.runs[p.entry.run]];
        index := index + [p.entry];
      }
      assert index == NextEntries(IndexOf(files), p);
      assert history == BundlesAt(files, index);
      var groups := GroupHistories(leq, history);
      if groups.Err? {
        return Err(groups.error);
      }
      return Ok(Sorting.Sort(EntryOrder(leq), index));
    }

    /** Promotion: all checks come before the two writes, so a failure changes nothing. */
    method PromoteRun(leq: Order, p: Publication, policy: Policy, nonce: nat) returns (r: Result<()>)
      requires TotalOrder(leq) && nonce !in temporaries
      modifies this
      ensures r.Ok? <==> !old(locked) && CanPromote(old(files), p, policy)
      ensures files == if r.Ok? then Promoted(leq, old(files), p) else old(files)
      ensures r.Ok? ==> Promotion.PromotionWrites(leq, old(files), p, files)
      ensures temporaries == old(temporaries) && locked == old(locked)
    {
      if locked {
        return Err(StoreLocked);
      }
      locked := true;
      var checked := CheckPromotion(leq, p, policy);
      if checked.Err? {
        locked := false;
        return Err(checked.error);
      }
      Promotion.PromotedWrites(leq, files, p);
      r := WriteJson(PublicationDocument(p), true, nonce);
      if r.Ok? {
        r := WriteJson(IndexDocument(checked.value), false, nonce);
      }
      locked := false;
    }
  }
}
