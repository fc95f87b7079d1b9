/** Promotions commute, repeat without effect, and keep the published history consistent. */
module Promotion {
  import opened Texts
  import opened Bundles
  import opened Policies
  import opened Store
  import Lists
  import Sorting

  // ---------------------------------------------------------------- what a store keeps

  /** An index entry has its run file and a publication record that names it, for the same pull request
      and source tree. */
  ghost predicate Backed(files: Files, e: IndexEntry) {
    && Readable(files, e.run)
    && files.runs[e.run].run.pullRequest.Some?
    && var n := files.runs[e.run].run.pullRequest.value.number;
       && n in files.publications
       && files.publications[n].entry == e
       && Vouches(files.runs[e.run], files.publications[n])
  }

  ghost predicate RunsFiled(files: Files) {
    forall id :: id in files.runs ==> Readable(files, id)
  }

  ghost predicate PublicationsFiled(files: Files) {
    forall n :: n in files.publications ==>
      && files.publications[n].pullRequest.number == n
      && files.publications[n].entry.run in files.runs
      && Vouches(files.runs[files.publications[n].entry.run], files.publications[n])
  }

  ghost predicate IndexBacked(files: Files) {
    && DistinctEntries(IndexOf(files))
    && (forall e :: e in IndexOf(files) ==> Backed(files, e))
    && AcceptableIndex(files, IndexOf(files))
  }

  /** Referential integrity of a store. */
  ghost predicate Intact(files: Files) {
    RunsFiled(files) && PublicationsFiled(files) && IndexBacked(files)
  }

  /** Runs and publications never change once written, and the index never loses an entry. */
  ghost predicate Grows(before: Files, after: Files) {
    && (forall id :: id in before.runs ==> id in after.runs && after.runs[id] == before.runs[id])
    && (forall n :: n in before.publications ==>
       n in after.publications && after.publications[n] == before.publications[n])
    && (forall e :: e in IndexOf(before) ==> e in IndexOf(after))
  }

  /** Distinct index entries belong to distinct pull requests. */
  lemma DistinctPullRequests(files: Files, e: IndexEntry, f: IndexEntry)
    requires Intact(files) && e in IndexOf(files) && f in IndexOf(files)
    requires files.runs[e.run].run.pullRequest.value.number == files.runs[f.run].run.pullRequest.value.number
    ensures e == f
  {
  }

  // ---------------------------------------------------------------- one promotion

  lemma {:induction false} SortedIndex(leq: Order, files: Files, p: Publication)
    requires TotalOrder(leq) && DistinctEntries(IndexOf(files))
    ensures multiset(NextIndex(leq, files, p)) == multiset(NextEntries(IndexOf(files), p))
    ensures DistinctEntries(NextIndex(leq, files, p))
    ensures forall e :: e in NextIndex(leq, files, p) <==> e in NextEntries(IndexOf(files), p)
  {
    NextEntriesMeans(IndexOf(files), p);
    Sorting.SortElements(EntryOrder(leq), NextEntries(IndexOf(files), p));
    Lists.DistinctByPermuted(EntryRun, NextEntries(IndexOf(files), p), NextIndex(leq, files, p));
  }

  lemma AcceptablePermuted(files: Files, a: seq<IndexEntry>, b: seq<IndexEntry>)
    requires DistinctEntries(a) && multiset(a) == multiset(b) && AcceptableIndex(files, a)
    ensures AcceptableIndex(files, b)
  {
    Lists.SameElements(a, b);
    Lists.DistinctByPermuted(EntryRun, a, b);
    AcceptableIndexPart(files, a, b);
  }

  lemma BackedAfter(files: Files, p: Publication, e: IndexEntry)
    requires RecordFree(files, p) && Backed(files, e)
    ensures Backed(Write(files, PublicationDocument(p)), e)
  {
  }

  lemma EntriesBackedAfter(leq: Order, files: Files, p: Publication, e: IndexEntry)
    requires TotalOrder(leq) && IndexBacked(files) && RecordFree(files, p)
    requires Readable(files, p.entry.run) && Vouches(files.runs[p.entry.run], p)
    requires e in IndexOf(Promoted(leq, files, p))
    ensures Backed(Promoted(leq, files, p), e)
  {
    SortedIndex(leq, files, p);
    NextEntriesMeans(IndexOf(files), p);
    if e in IndexOf(files) {
      BackedAfter(files, p, e);
    }
  }

  lemma PublicationsFiledAfter(leq: Order, files: Files, p: Publication)
    requires PublicationsFiled(files) && p.entry.run in files.runs && Vouches(files.runs[p.entry.run], p)
    ensures PublicationsFiled(Promoted(leq, files, p))
  {
  }

  lemma IndexBackedAfter(leq: Order, files: Files, p: Publication)
    requires TotalOrder(leq) && IndexBacked(files) && IndexAllows(files, p)
    requires Readable(files, p.entry.run) && Vouches(files.runs[p.entry.run], p)
    ensures IndexBacked(Promoted(leq, files, p))
  {
    var after, next := Promoted(leq, files, p), NextEntries(IndexOf(files), p);
    SortedIndex(leq, files, p);
    NextEntriesMeans(IndexOf(files), p);
    forall e | e in IndexOf(after)
      ensures Backed(after, e)
    {
      EntriesBackedAfter(leq, files, p, e);
    }
    AcceptablePermuted(files, next, IndexOf(after));
  }

  lemma GrowsAfter(leq: Order, files: Files, p: Publication)
    requires TotalOrder(leq) && DistinctEntries(IndexOf(files)) && RecordFree(files, p)
    ensures Grows(files, Promoted(leq, files, p))
  {
    SortedIndex(leq, files, p);
    NextEntriesMeans(IndexOf(files), p);
  }

  /** A promotion keeps a store intact, only adds to it, and publishes its run. */
  lemma PromotionKeepsIntact(leq: Order, files: Files, p: Publication, policy: Policy)
    requires TotalOrder(leq) && Intact(files) && CanPromote(files, p, policy)
    ensures Intact(Promoted(leq, files, p)) && Grows(files, Promoted(leq, files, p))
    ensures Included(IndexOf(Promoted(leq, files, p)), p.entry.run)
  {
    IndexBackedAfter(leq, files, p);
    PublicationsFiledAfter(leq, files, p);
    GrowsAfter(leq, files, p);
    SortedIndex(leq, files, p);
    NextEntriesMeans(IndexOf(files), p);
    IncludedPermuted(NextEntries(IndexOf(files), p), NextIndex(leq, files, p), p.entry.run);
  }

  /** Strictly ascending by id, and by attempt where the ids are equal. */
  ghost predicate EntriesAscend(leq: Order, runs: seq<IndexEntry>) {
    forall i, j :: 0 <= i < j < |runs| ==>
      if runs[i].run.id == runs[j].run.id then runs[i].run.attempt < runs[j].run.attempt
      else leq(runs[i].run.id, runs[j].run.id)
  }

  /** All that a promotion changes: the record of its pull request, and the index, which keeps its entries,
      gains the run's entry if it had none, and is put in order. */
  ghost predicate PromotionWrites(leq: Order, files: Files, p: Publication, after: Files) {
    && after.runs == files.runs && after.policies == files.policies && after.pointers == files.pointers
    && after.publications == files.publications[p.pullRequest.number := p]
    && after.index.Some? && EntriesAscend(leq, IndexOf(after))
    && forall e :: e in IndexOf(after) <==>
      e in IndexOf(files) || (e == p.entry && forall d :: d in IndexOf(files) ==> d.run != p.entry.run)
  }

  lemma SortedAscends(leq: Order, runs: seq<IndexEntry>)
    requires DistinctEntries(runs) && Sorting.Sorted(EntryOrder(leq), runs)
    ensures EntriesAscend(leq, runs)
  {
    forall i, j | 0 <= i < j < |runs|
      ensures
        if runs[i].run.id == runs[j].run.id then runs[i].run.attempt < runs[j].run.attempt
        else leq(runs[i].run.id, runs[j].run.id)
    {
      var le := EntryOrder(leq);
      assert le(runs[i], runs[j]);
      assert EntryRun(runs[i]) != EntryRun(runs[j]);
    }
  }

  lemma NewEntry(runs: seq<IndexEntry>, p: Publication, e: IndexEntry)
    ensures e in NextEntries(runs, p) <==>
      e in runs || (e == p.entry && forall d :: d in runs ==> d.run != p.entry.run)
  {
    if Included(runs, p.entry.run) {
      var i :| 0 <= i < |runs| && runs[i].run == p.entry.run;
      assert runs[i] in runs;
    }
  }

  lemma NextIndexAscends(leq: Order, files: Files, p: Publication)
    requires TotalOrder(leq) && DistinctEntries(IndexOf(files))
    ensures EntriesAscend(leq, NextIndex(leq, files, p))
  {
    SortedIndex(leq, files, p);
    Sorting.SortSorted(EntryOrder(leq), NextEntries(IndexOf(files), p));
    SortedAscends(leq, NextIndex(leq, files, p));
  }

  lemma PromotedWrites(leq: Order, files: Files, p: Publication)
    requires TotalOrder(leq) && DistinctEntries(IndexOf(files))
    ensures PromotionWrites(leq, files, p, Promoted(leq, files, p))
  {
    var after := Promoted(leq, files, p);
    SortedIndex(leq, files, p);
    NextIndexAscends(leq, files, p);
    forall e
      ensures e in IndexOf(after) <==>
        e in IndexOf(files) || (e == p.entry && forall d :: d in IndexOf(files) ==> d.run != p.entry.run)
    {
      NewEntry(IndexOf(files), p, e);
    }
  }

  // ---------------------------------------------------------------- two promotions

  ghost function Once(runs: seq<IndexEntry>, p: Publication): multiset<IndexEntry> {
    if Included(runs, p.entry.run) then multiset{} else multiset{p.entry}
  }

  lemma IncludedPermuted(a: seq<IndexEntry>, b: seq<IndexEntry>, run: RunId)
    requires multiset(a) == multiset(b)
    ensures Included(a, run) <==> Included(b, run)
  {
    Lists.SameElements(a, b);
    if Included(a, run) {
      var i :| 0 <= i < |a| && a[i].run == run;
      assert a[i] in a && a[i] in b;
      var j :| 0 <= j < |b| && b[j] == a[i];
    }
    if Included(b, run) {
      var i :| 0 <= i < |b| && b[i].run == run;
      assert b[i] in b && b[i] in a;
      var j :| 0 <= j < |a| && a[j] == b[i];
    }
  }

  /** The entries after two promotions of different runs. */
  lemma TwoSteps(leq: Order, files: Files, p: Publication, q: Publication)
    requires TotalOrder(leq) && DistinctEntries(IndexOf(files)) && p.entry.run != q.entry.run
    ensures
      var after := Promoted(leq, files, p);
      && DistinctEntries(IndexOf(after))
      && (Included(IndexOf(after), q.entry.run) <==> Included(IndexOf(files), q.entry.run))
      && multiset(NextEntries(IndexOf(after), q)) ==
        multiset(IndexOf(files)) + Once(IndexOf(files), p) + Once(IndexOf(files), q)
  {
    var runs, after := IndexOf(files), Promoted(leq, files, p);
    SortedIndex(leq, files, p);
    NextEntriesMeans(runs, p);
    IncludedPermuted(NextEntries(runs, p), IndexOf(after), q.entry.run);
  }

  lemma PartAcceptable(leq: Order, files: Files, p: Publication, q: Publication)
    requires TotalOrder(leq) && DistinctEntries(IndexOf(files)) && p.entry.run != q.entry.run
    requires AcceptableIndex(Promoted(leq, files, p), NextEntries(IndexOf(Promoted(leq, files, p)), q))
    ensures AcceptableIndex(files, NextEntries(IndexOf(files), q))
  {
    var after := Promoted(leq, files, p);
    TwoSteps(leq, files, p, q);
    NextEntriesMeans(IndexOf(files), q);
    NextEntriesMeans(IndexOf(files), p);
    NextEntriesMeans(IndexOf(after), q);
    SortedIndex(leq, files, p);
    var big, small := NextEntries(IndexOf(after), q), NextEntries(IndexOf(files), q);
    forall e | e in small
      ensures e in big
    {
      if e == q.entry && !Included(IndexOf(files), q.entry.run) {
        assert big == IndexOf(after) + [q.entry];
      }
    }
    AcceptableIndexPart(files, big, small);
  }

  lemma ReadableBefore(files: Files, p: Publication)
    requires DistinctEntries(IndexOf(files)) && AllReadable(files, NextEntries(IndexOf(files), p))
    ensures AllReadable(files, IndexOf(files))
  {
  }

  /** A promotion does not touch the records of other pull requests. */
  lemma RecordsCommute(leq: Order, files: Files, p: Publication, q: Publication)
    requires p.pullRequest.number != q.pullRequest.number
    ensures RecordFree(Promoted(leq, files, p), q) <==> RecordFree(files, q)
    ensures PublishedAs(Promoted(leq, files, p), q) <==> PublishedAs(files, q)
    ensures RecordFree(Promoted(leq, files, q), p) <==> RecordFree(files, p)
    ensures PublishedAs(Promoted(leq, files, q), p) <==> PublishedAs(files, p)
  {
  }

  lemma AllowedCommutes(leq: Order, files: Files, p: Publication, q: Publication)
    requires TotalOrder(leq) && p.entry.run != q.entry.run && p.pullRequest.number != q.pullRequest.number
    requires IndexAllows(files, p) && IndexAllows(Promoted(leq, files, p), q)
    ensures IndexAllows(files, q) && IndexAllows(Promoted(leq, files, q), p)
  {
    TwoSteps(leq, files, p, q);
    TwoSteps(leq, files, q, p);
    PartAcceptable(leq, files, p, q);
    CommutedIndex(leq, files, p, q);
    ReadableBefore(Promoted(leq, files, q), p);
    RecordsCommute(leq, files, p, q);
  }

  lemma DifferentRuns(files: Files, p: Publication, q: Publication)
    requires p.entry.run in files.runs && Vouches(files.runs[p.entry.run], p)
    requires q.entry.run in files.runs && Vouches(files.runs[q.entry.run], q)
    requires p.pullRequest.number != q.pullRequest.number
    ensures p.entry.run != q.entry.run
  {
  }

  lemma SamePullRequest(leq: Order, files: Files, p: Publication, q: Publication)
    requires p.pullRequest.number == q.pullRequest.number && RecordFree(Promoted(leq, files, p), q)
    ensures p == q
  {
  }

  lemma CommutedFiles(leq: Order, files: Files, p: Publication, q: Publication)
    requires p.pullRequest.number != q.pullRequest.number
    requires NextIndex(leq, Promoted(leq, files, p), q) == NextIndex(leq, Promoted(leq, files, q), p)
    ensures Promoted(leq, Promoted(leq, files, p), q) == Promoted(leq, Promoted(leq, files, q), p)
  {
  }

  lemma AllowedEitherWay(leq: Order, files: Files, p: Publication, q: Publication)
    requires TotalOrder(leq)
    requires p.pullRequest.number == q.pullRequest.number || p.entry.run != q.entry.run
    requires IndexAllows(files, p) && IndexAllows(Promoted(leq, files, p), q)
    ensures IndexAllows(files, q) && IndexAllows(Promoted(leq, files, q), p)
    ensures Promoted(leq, Promoted(leq, files, p), q) == Promoted(leq, Promoted(leq, files, q), p)
  {
    if p.pullRequest.number == q.pullRequest.number {
      SamePullRequest(leq, files, p, q);
    } else {
      AllowedCommutes(leq, files, p, q);
      SameIndex(leq, files, p, q);
      CommutedFiles(leq, files, p, q);
    }
  }

  /** If one promotion and then another succeed, they succeed in the other order too, with the same
      run files, publication records and index. */
  lemma PromotionsCommute(leq: Order, files: Files, p: Publication, policyP: Policy, q: Publication, policyQ: Policy)
    requires TotalOrder(leq)
    requires CanPromote(files, p, policyP) && CanPromote(Promoted(leq, files, p), q, policyQ)
    ensures CanPromote(files, q, policyQ) && CanPromote(Promoted(leq, files, q), p, policyP)
    ensures Promoted(leq, Promoted(leq, files, p), q) == Promoted(leq, Promoted(leq, files, q), p)
  {
    if p.pullRequest.number != q.pullRequest.number {
      DifferentRuns(files, p, q);
    }
    VouchingStays(leq, files, p, q, policyQ);
    VouchingStays(leq, files, q, p, policyP);
    AllowedEitherWay(leq, files, p, q);
  }

  lemma CommutedEntries(leq: Order, files: Files, p: Publication, q: Publication)
    requires TotalOrder(leq) && DistinctEntries(IndexOf(files)) && p.entry.run != q.entry.run
    ensures
      var afterP, afterQ := Promoted(leq, files, p), Promoted(leq, files, q);
      var a, b := NextEntries(IndexOf(afterP), q), NextEntries(IndexOf(afterQ), p);
      multiset(a) == multiset(b) && DistinctEntries(a)
  {
    TwoSteps(leq, files, p, q);
    TwoSteps(leq, files, q, p);
    NextEntriesMeans(IndexOf(Promoted(leq, files, p)), q);
  }

  lemma SameIndex(leq: Order, files: Files, p: Publication, q: Publication)
    requires TotalOrder(leq) && DistinctEntries(IndexOf(files)) && p.entry.run != q.entry.run
    ensures NextIndex(leq, Promoted(leq, files, p), q) == NextIndex(leq, Promoted(leq, files, q), p)
  {
    var a := NextEntries(IndexOf(Promoted(leq, files, p)), q);
    var b := NextEntries(IndexOf(Promoted(leq, files, q)), p);
    CommutedEntries(leq, files, p, q);
    Sorting.SortIffSameElements(EntryOrder(leq), a, b);
  }

  lemma CommutedIndex(leq: Order, files: Files, p: Publication, q: Publication)
    requires TotalOrder(leq) && DistinctEntries(IndexOf(files)) && p.entry.run != q.entry.run
    requires
      var after := Promoted(leq, files, p);
      AcceptableIndex(after, NextEntries(IndexOf(after), q))
    ensures
      var afterQ := Promoted(leq, files, q);
      AcceptableIndex(afterQ, NextEntries(IndexOf(afterQ), p))
  {
    var afterP, afterQ := Promoted(leq, files, p), Promoted(leq, files, q);
    var a, b := NextEntries(IndexOf(afterP), q), NextEntries(IndexOf(afterQ), p);
    CommutedEntries(leq, files, p, q);
    AcceptablePermuted(afterP, a, b);
  }

  lemma IndexRepeats(leq: Order, files: Files, p: Publication)
    requires TotalOrder(leq) && DistinctEntries(IndexOf(files))
    ensures
      var after := Promoted(leq, files, p);
      && Included(IndexOf(after), p.entry.run)
      && NextEntries(IndexOf(after), p) == IndexOf(after)
      && NextIndex(leq, after, p) == IndexOf(after)
  {
    var after, next := Promoted(leq, files, p), NextEntries(IndexOf(files), p);
    SortedIndex(leq, files, p);
    NextEntriesMeans(IndexOf(files), p);
    IncludedPermuted(next, IndexOf(after), p.entry.run);
    Sorting.SortSorted(EntryOrder(leq), next);
    Sorting.SortOfSorted(EntryOrder(leq), IndexOf(after));
  }

  lemma IndexAcceptedAgain(leq: Order, files: Files, p: Publication)
    requires TotalOrder(leq) && DistinctEntries(IndexOf(files))
    requires AcceptableIndex(files, NextEntries(IndexOf(files), p))
    ensures
      var after := Promoted(leq, files, p);
      AcceptableIndex(after, IndexOf(after))
  {
    var after, next := Promoted(leq, files, p), NextEntries(IndexOf(files), p);
    SortedIndex(leq, files, p);
    NextEntriesMeans(IndexOf(files), p);
    AcceptablePermuted(files, next, IndexOf(after));
    SameRunsAcceptable(after, files, IndexOf(after));
  }

  lemma AllowedRepeats(leq: Order, files: Files, p: Publication)
    requires TotalOrder(leq) && IndexAllows(files, p)
    ensures IndexAllows(Promoted(leq, files, p), p)
  {
    IndexRepeats(leq, files, p);
    SortedIndex(leq, files, p);
    IndexAcceptedAgain(leq, files, p);
  }

  lemma VouchingStays(leq: Order, files: Files, p: Publication, q: Publication, policy: Policy)
    ensures RunVouches(Promoted(leq, files, p), q, policy) <==> RunVouches(files, q, policy)
  {
  }

  /** A successful promotion can be repeated. */
  lemma PromotionRepeats(leq: Order, files: Files, p: Publication, policy: Policy)
    requires TotalOrder(leq) && CanPromote(files, p, policy)
    ensures CanPromote(Promoted(leq, files, p), p, policy)
  {
    AllowedRepeats(leq, files, p);
    VouchingStays(leq, files, p, p, policy);
  }

  /** Repeating it changes nothing. */
  lemma RepeatChangesNothing(leq: Order, files: Files, p: Publication)
    requires TotalOrder(leq) && IndexAllows(files, p)
    ensures Promoted(leq, Promoted(leq, files, p), p) == Promoted(leq, files, p)
  {
    IndexRepeats(leq, files, p);
  }
}
