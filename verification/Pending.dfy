/** Pending pointers: for each pull request, which archived run is the latest. */
module Pending {
  import opened Texts
  import opened Bundles
  import opened Policies
  import opened Store
  import opened Commands
  import Lists

  // ---------------------------------------------------------------- serial archival

  function Deliver(previous: Option<Pointer>, pointer: Pointer): Option<Pointer> {
    if Supersedes(previous, pointer) then Some(pointer) else previous
  }

  /** The pointer of a pull request after its runs were archived one after another. */
  function Latest(deliveries: seq<Pointer>): Option<Pointer> {
    if deliveries == [] then None
    else Deliver(Latest(deliveries[..|deliveries| - 1]), deliveries[|deliveries| - 1])
  }

  datatype Delivery = Delivery(bundle: Bundle, policy: Policy, number: nat, createdAt: Text)

  ghost function AfterOne(files: Files, a: Delivery): Files {
    AfterArchival(files, a.bundle, a.policy, a.number, a.createdAt)
  }

  ghost function ArchiveAll(files: Files, archivals: seq<Delivery>): Files {
    if archivals == [] then files
    else AfterOne(ArchiveAll(files, archivals[..|archivals| - 1]), archivals[|archivals| - 1])
  }

  ghost function Offer(files: Files, a: Delivery, n: nat): seq<Pointer> {
    if a.number == n && CanArchive(files, a.bundle, a.policy) then [Pointer(RunIdOf(a.bundle), a.createdAt)] else []
  }

  /** The pointers that successful archivals offer a pull request, after the one that it has. */
  ghost function Offered(files: Files, archivals: seq<Delivery>, n: nat): seq<Pointer> {
    if archivals == [] then (if n in files.pointers then [files.pointers[n]] else [])
    else
      var front, last := archivals[..|archivals| - 1], archivals[|archivals| - 1];
      Offered(files, front, n) + Offer(ArchiveAll(files, front), last, n)
  }

  lemma LatestAppended(deliveries: seq<Pointer>, pointer: Pointer)
    ensures Latest(deliveries + [pointer]) == Deliver(Latest(deliveries), pointer)
  {
    assert (deliveries + [pointer])[..|deliveries|] == deliveries;
  }

  /** All that an archival writes besides the pointer of its pull request. */
  lemma ArchivedRest(files: Files, a: Delivery)
    ensures
      var after, run := Archived(files, a.bundle, a.policy, a.number, a.createdAt), RunIdOf(a.bundle);
      && after.runs == files.runs[run := a.bundle] && after.policies == files.policies[run := a.policy]
      && after.publications == files.publications
      && after.index == (if files.index.None? then Some([]) else files.index)
      && after.pointers.Keys == files.pointers.Keys + {a.number}
      && forall n :: n in files.pointers && n != a.number ==> after.pointers[n] == files.pointers[n]
  {
  }

  lemma PointerArchived(files: Files, a: Delivery, n: nat)
    ensures PointerOf(Archived(files, a.bundle, a.policy, a.number, a.createdAt), n) ==
      if a.number == n then Deliver(PointerOf(files, n), Pointer(RunIdOf(a.bundle), a.createdAt))
      else PointerOf(files, n)
  {
  }

  lemma PointerKept(files: Files, a: Delivery, n: nat)
    requires !CanArchive(files, a.bundle, a.policy)
    ensures PointerOf(AfterOne(files, a), n) == PointerOf(files, n)
  {
  }

  /** One archival offers its pointer to its own pull request, if it succeeds, and to no other. */
  lemma OneArchival(files: Files, a: Delivery, n: nat)
    ensures
      var offer := Offer(files, a, n);
      && |offer| <= 1
      && PointerOf(AfterOne(files, a), n) ==
        if offer == [] then PointerOf(files, n) else Deliver(PointerOf(files, n), offer[0])
  {
    if CanArchive(files, a.bundle, a.policy) {
      PointerArchived(files, a, n);
    } else {
      PointerKept(files, a, n);
    }
  }

  lemma LatestOffered(offered: seq<Pointer>, offer: seq<Pointer>)
    requires |offer| <= 1
    ensures Latest(offered + offer) == if offer == [] then Latest(offered) else Deliver(Latest(offered), offer[0])
  {
    if offer == [] {
      assert offered + offer == offered;
    } else {
      assert offer == [offer[0]];
      LatestAppended(offered, offer[0]);
    }
  }

  /** Archivals one after another, failed ones among them, leave each pull request with what the pointer
      rule makes of the pointers that it was offered. */
  lemma {:induction false} SerialArchivals(files: Files, archivals: seq<Delivery>, n: nat)
    ensures PointerOf(ArchiveAll(files, archivals), n) == Latest(Offered(files, archivals, n))
  {
    if archivals == [] {
      if n in files.pointers {
        assert [files.pointers[n]][..0] == [];
      }
    } else {
      var front, last := archivals[..|archivals| - 1], archivals[|archivals| - 1];
      SerialArchivals(files, front, n);
      OneArchival(ArchiveAll(files, front), last, n);
      LatestOffered(Offered(files, front, n), Offer(ArchiveAll(files, front), last, n));
    }
  }

  lemma LatestStep(deliveries: seq<Pointer>, j: nat)
    requires j < |deliveries|
    ensures Latest(deliveries[..j + 1]) == Deliver(Latest(deliveries[..j]), deliveries[j])
  {
    assert deliveries[..j + 1][..j] == deliveries[..j];
  }

  lemma {:induction false} LatestIsDelivered(deliveries: seq<Pointer>)
    ensures deliveries != [] ==> Latest(deliveries).Some?
    ensures Latest(deliveries).Some? ==> Latest(deliveries).value in deliveries
  {
    if deliveries != [] {
      var front := deliveries[..|deliveries| - 1];
      LatestIsDelivered(front);
      assert forall p :: p in front ==> p in deliveries;
    }
  }

  ghost predicate Earlier(p: Option<Pointer>, q: Option<Pointer>) {
    p.Some? && (q.None? || Less(p.value.createdAt, q.value.createdAt))
  }

  ghost predicate DrawnFrom(deliveries: seq<Pointer>, pointers: set<Pointer>) {
    forall p :: p in deliveries ==> p in pointers
  }

  /** A later attempt of a run never has an earlier creation text. */
  ghost predicate AttemptsInOrder(pointers: set<Pointer>) {
    forall p, q :: p in pointers && q in pointers && p.run.id == q.run.id && p.run.attempt <= q.run.attempt ==>
      !Less(q.createdAt, p.createdAt)
  }

  ghost predicate MovesBackward(deliveries: seq<Pointer>) {
    exists j :: 0 <= j < |deliveries| && BackwardAt(deliveries, j)
  }

  ghost predicate BackwardAt(deliveries: seq<Pointer>, j: nat)
    requires j < |deliveries|
  {
    Latest(deliveries[..j]).Some? && Earlier(Latest(deliveries[..j + 1]), Latest(deliveries[..j]))
  }

  /** No order of deliveries, with any repeats, moves the pointer to an earlier creation text, exactly
      when no later attempt of a run has an earlier creation text. */
  lemma NeverBackwardIffAttemptsInOrder(pointers: set<Pointer>)
    ensures
      (forall deliveries: seq<Pointer> :: DrawnFrom(deliveries, pointers) ==> !MovesBackward(deliveries)) <==>
      AttemptsInOrder(pointers)
  {
    if AttemptsInOrder(pointers) {
      forall deliveries: seq<Pointer> | DrawnFrom(deliveries, pointers)
        ensures !MovesBackward(deliveries)
      {
        forall j | 0 <= j < |deliveries|
          ensures !BackwardAt(deliveries, j)
        {
          LatestStep(deliveries, j);
          LatestIsDelivered(deliveries[..j]);
          assert deliveries[j] in deliveries;
          if Latest(deliveries[..j]).Some? {
            LessTrichotomy(Latest(deliveries[..j]).value.createdAt, deliveries[j].createdAt);
            LessTrichotomy(Latest(deliveries[..j]).value.createdAt, Latest(deliveries[..j]).value.createdAt);
          }
        }
      }
    }
    if forall deliveries: seq<Pointer> :: DrawnFrom(deliveries, pointers) ==> !MovesBackward(deliveries) {
      forall p, q | p in pointers && q in pointers && p.run.id == q.run.id && p.run.attempt <= q.run.attempt
        ensures !Less(q.createdAt, p.createdAt)
      {
        var deliveries := [p, q];
        assert DrawnFrom(deliveries, pointers);
        LatestStep(deliveries, 0);
        LatestStep(deliveries, 1);
        assert deliveries[..0] == [] && deliveries[..1 + 1] == deliveries;
        assert !BackwardAt(deliveries, 1);
      }
    }
  }

  /** Workflow runs have one creation text, which all their attempts share. */
  ghost predicate OneCreation(deliveries: seq<Pointer>) {
    forall p, q :: p in deliveries && q in deliveries && p.run.id == q.run.id ==> p.createdAt == q.createdAt
  }

  /** The last of all creation texts belongs to one run. */
  ghost predicate OneLatestRun(deliveries: seq<Pointer>) {
    forall p, q :: p in deliveries && q in deliveries && Newest(deliveries, p) && Newest(deliveries, q) ==>
      p.run.id == q.run.id
  }

  ghost predicate Newest(deliveries: seq<Pointer>, p: Pointer) {
    forall q :: q in deliveries ==> !Less(p.createdAt, q.createdAt)
  }

  /** The maximum: no run was created later, and no attempt of this run is later. */
  ghost predicate Maximal(deliveries: seq<Pointer>, p: Pointer) {
    && p in deliveries && Newest(deliveries, p)
    && forall q :: q in deliveries && q.run.id == p.run.id ==> q.run.attempt <= p.run.attempt
  }

  /** Which of the latest runs stays: the one that was delivered first. */
  ghost predicate FirstNewest(deliveries: seq<Pointer>, p: Pointer) {
    && Maximal(deliveries, p)
    && exists j :: FirstAt(deliveries, p, j)
  }

  ghost predicate FirstAt(deliveries: seq<Pointer>, p: Pointer, j: nat) {
    && j < |deliveries| && deliveries[j].run.id == p.run.id
    && forall k :: 0 <= k < j ==> Less(deliveries[k].createdAt, p.createdAt)
  }

  lemma {:induction false} LatestIsFirstNewest(deliveries: seq<Pointer>)
    requires OneCreation(deliveries) && deliveries != []
    ensures Latest(deliveries).Some? && FirstNewest(deliveries, Latest(deliveries).value)
  {
    var front, last := deliveries[..|deliveries| - 1], deliveries[|deliveries| - 1];
    assert deliveries == front + [last];
    LessTrichotomy(last.createdAt, last.createdAt);
    if front == [] {
      assert FirstAt(deliveries, last, 0);
    } else {
      assert forall p :: p in front ==> p in deliveries;
      LatestIsFirstNewest(front);
      var before := Latest(front).value;
      var j :| FirstAt(front, before, j);
      LatestStepNewest(deliveries, front, last, before, j);
    }
  }

  lemma LatestStepNewest(deliveries: seq<Pointer>, front: seq<Pointer>, last: Pointer, before: Pointer, j: nat)
    requires deliveries == front + [last] && OneCreation(deliveries)
    requires FirstNewest(front, before) && FirstAt(front, before, j)
    ensures FirstNewest(deliveries, Deliver(Some(before), last).value)
  {
    LessTrichotomy(before.createdAt, last.createdAt);
    LessTrichotomy(last.createdAt, last.createdAt);
    assert last in deliveries && before in deliveries;
    if Less(before.createdAt, last.createdAt) {
      forall k | 0 <= k < |front|
        ensures Less(deliveries[k].createdAt, last.createdAt)
      {
        assert deliveries[k] in front;
        LessTrichotomy(deliveries[k].createdAt, before.createdAt);
        if deliveries[k].createdAt != before.createdAt {
          LessTransitive(deliveries[k].createdAt, before.createdAt, last.createdAt);
        }
      }
      forall q | q in deliveries
        ensures !Less(last.createdAt, q.createdAt)
        ensures q.run.id == last.run.id ==> q == last
      {
        var k :| 0 <= k < |deliveries| && deliveries[k] == q;
        LessTrichotomy(q.createdAt, last.createdAt);
      }
      assert FirstAt(deliveries, last, |front|);
    } else {
      assert FirstAt(deliveries, Deliver(Some(before), last).value, j);
    }
  }

  /** When the last creation text belongs to one run, the pointer ends at its last attempt. */
  lemma LatestIsMaximum(deliveries: seq<Pointer>, p: Pointer)
    requires OneCreation(deliveries) && OneLatestRun(deliveries)
    ensures Latest(deliveries) == Some(p) <==> Maximal(deliveries, p)
  {
    if deliveries != [] {
      LatestIsFirstNewest(deliveries);
      if Maximal(deliveries, p) {
        var q := Latest(deliveries).value;
        assert p.run.id == q.run.id;
        assert p.run.attempt == q.run.attempt;
      }
    }
  }

  /** What that means for a store: after serial archivals the pointer of a pull request is the last
      attempt of the latest run that was offered. */
  lemma SerialPointerIsMaximum(files: Files, archivals: seq<Delivery>, n: nat, p: Pointer)
    requires OneCreation(Offered(files, archivals, n)) && OneLatestRun(Offered(files, archivals, n))
    ensures PointerOf(ArchiveAll(files, archivals), n) == Some(p) <==> Maximal(Offered(files, archivals, n), p)
  {
    SerialArchivals(files, archivals, n);
    LatestIsMaximum(Offered(files, archivals, n), p);
  }

  /** Every order of the deliveries ends with the same pointer. */
  ghost predicate AnyOrder(deliveries: seq<Pointer>) {
    forall others: seq<Pointer> :: multiset(others) == multiset(deliveries) ==> Latest(others) == Latest(deliveries)
  }

  /** The order of deliveries does not matter exactly when the last creation text belongs to one run. */
  lemma OrderIrrelevantIffOneLatestRun(deliveries: seq<Pointer>)
    requires OneCreation(deliveries)
    ensures AnyOrder(deliveries) <==> OneLatestRun(deliveries)
  {
    if OneLatestRun(deliveries) {
      forall others: seq<Pointer> | multiset(others) == multiset(deliveries)
        ensures Latest(others) == Latest(deliveries)
      {
        LatestPermuted(deliveries, others);
      }
    }
    if AnyOrder(deliveries) {
      forall p, q | p in deliveries && q in deliveries && Newest(deliveries, p) && Newest(deliveries, q)
        ensures p.run.id == q.run.id
      {
        DeliveredFirst(deliveries, p);
        DeliveredFirst(deliveries, q);
      }
    }
  }

  lemma NewestPermuted(s: seq<Pointer>, t: seq<Pointer>)
    requires multiset(s) == multiset(t)
    ensures |s| == |t| && forall p :: p in s <==> p in t
    ensures OneCreation(s) ==> OneCreation(t)
    ensures OneLatestRun(s) ==> OneLatestRun(t)
    ensures forall p :: Maximal(s, p) ==> Maximal(t, p)
    ensures forall p :: Newest(s, p) <==> Newest(t, p)
  {
    Lists.SameElements(s, t);
  }

  lemma LatestPermuted(deliveries: seq<Pointer>, others: seq<Pointer>)
    requires OneCreation(deliveries) && OneLatestRun(deliveries) && multiset(others) == multiset(deliveries)
    ensures Latest(others) == Latest(deliveries)
  {
    NewestPermuted(deliveries, others);
    if deliveries != [] {
      LatestIsFirstNewest(deliveries);
      LatestIsMaximum(others, Latest(deliveries).value);
    }
  }

  lemma FirstIsNotEarlier(deliveries: seq<Pointer>, q: Pointer, j: nat)
    requires FirstAt(deliveries, q, j)
    ensures j > 0 ==> Less(deliveries[0].createdAt, q.createdAt)
  {
  }

  lemma NewestFirstStays(deliveries: seq<Pointer>)
    requires OneCreation(deliveries) && deliveries != [] && Newest(deliveries, deliveries[0])
    ensures Latest(deliveries).Some? && Latest(deliveries).value.run.id == deliveries[0].run.id
  {
    LatestIsFirstNewest(deliveries);
    var q := Latest(deliveries).value;
    var j :| FirstAt(deliveries, q, j);
    FirstIsNotEarlier(deliveries, q, j);
  }

  /** A newest run that is delivered first keeps the pointer. */
  lemma DeliveredFirst(deliveries: seq<Pointer>, p: Pointer)
    requires OneCreation(deliveries) && p in deliveries && Newest(deliveries, p) && AnyOrder(deliveries)
    ensures Latest(deliveries).Some? && Latest(deliveries).value.run.id == p.run.id
  {
    var i :| 0 <= i < |deliveries| && deliveries[i] == p;
    var others := Lists.MovedToFront(deliveries, i);
    NewestPermuted(deliveries, others);
    NewestFirstStays(others);
  }
}
