/** The one-time history import: backfill-state.js and backfill-delivery.js of
    clients/claude-code/skillmeter/scripts/lib, driven by backfill_worker.js. */
module Backfill {
  import opened Options

  // ---------------------------------------------------------------------------------------------
  // The lifecycle record
  // ---------------------------------------------------------------------------------------------

  datatype Status = Pending | Declined | Running | Completed | Failed

  /** The record: `consumed` is the reason of a claimed offer not yet answered; offers are numbered as they are made. */
  datatype Lifecycle = Lifecycle(status: Status, consumed: bool, offer: Option<nat>, authorized: bool,
                                 queued: nat, completedAt: bool, deliveredAt: bool)

  const FIRST: Lifecycle := Lifecycle(Pending, false, None, false, 0, false, false)

  predicate Ended(l: Lifecycle) {
    l.status.Completed? || l.status.Failed?
  }

  /** The mutators; None stands for a mutator that returns null. */
  function Claimed(l: Lifecycle, manual: bool, offer: nat): Option<Lifecycle> {
    if !l.status.Pending? && !(manual && (l.status.Failed? || l.status.Declined?)) then None
    else Some(l.(status := Declined, consumed := true, authorized := false, offer := Some(offer)))
  }

  function DeclinedBy(l: Lifecycle, offer: nat): Option<Lifecycle> {
    if !l.status.Declined? || l.offer != Some(offer) then None else Some(l.(consumed := false))
  }

  function Begun(l: Lifecycle, offer: nat): Option<Lifecycle> {
    if !l.status.Declined? || !l.consumed || l.offer != Some(offer) then None
    else Some(l.(status := Running, consumed := false, authorized := true, queued := 0, completedAt := false, deliveredAt := false))
  }

  function Progressed(l: Lifecycle, offer: nat, queued: nat): Option<Lifecycle> {
    if !l.status.Running? || l.offer != Some(offer) then None else Some(l.(queued := queued))
  }

  function Finished(l: Lifecycle, offer: nat, status: Status, queued: Option<nat>): Option<Lifecycle>
    requires status.Completed? || status.Failed?
  {
    if !l.status.Running? || l.offer != Some(offer) then None
    else Some(l.(status := status, completedAt := true, queued := if queued.Some? then queued.value else l.queued))
  }

  function Delivered(l: Lifecycle, offer: nat): Option<Lifecycle> {
    if !Ended(l) || l.offer != Some(offer) || l.deliveredAt then None else Some(l.(deliveredAt := true))
  }

  function Applied(l: Lifecycle, next: Option<Lifecycle>): Lifecycle {
    if next.Some? then next.value else l
  }

  /** The state file. Every method is one locked `mutateBackfillState`. */
  class LifecycleFile {
    var life: Lifecycle
    var nextOffer: nat

    predicate Valid()
      reads this
    {
      (life.status.Running? ==> life.offer.Some?) && (life.offer.Some? ==> life.offer.value < nextOffer)
    }

    constructor ()
      ensures Valid() && life == FIRST && nextOffer == 0
    {
      life, nextOffer := FIRST, 0;
    }

    /** `claimBackfillOffer`, once a dead run has been demoted. */
    method ClaimOffer(manual: bool) returns (claimed: bool)
      requires Valid()
      modifies this
      ensures Valid()
      ensures claimed <==> old(life).status.Pending? || (manual && (old(life).status.Failed? || old(life).status.Declined?))
      ensures life == Applied(old(life), Claimed(old(life), manual, old(nextOffer)))
      ensures nextOffer == if claimed then old(nextOffer) + 1 else old(nextOffer)
    {
      var next := Claimed(life, manual, nextOffer);
      claimed := next.Some?;
      if claimed { life, nextOffer := next.value, nextOffer + 1; }
    }

    /** `beginBackfill`: an offer starts only with a tenant, and only while it is claimed and unanswered. */
    method Begin(offer: nat, tenant: string) returns (started: bool)
      requires Valid()
      modifies this`life
      ensures Valid()
      ensures started <==> tenant != "" && Begun(old(life), offer).Some?
      ensures life == if tenant == "" then old(life) else Applied(old(life), Begun(old(life), offer))
    {
      if tenant == "" { return false; }
      var next := Begun(life, offer);
      started := next.Some?;
      if started { life := next.value; }
    }

    /** `finishBackfill`. */
    method Finish(offer: nat, status: Status, queued: Option<nat>)
      requires Valid() && (status.Completed? || status.Failed?)
      modifies this`life
      ensures Valid()
      ensures life == Applied(old(life), Finished(old(life), offer, status, queued))
    {
      var next := Finished(life, offer, status, queued);
      if next.Some? { life := next.value; }
    }

    /** `isBackfillRunning`: a run whose worker is gone, or that has been silent too long, is demoted to failed. */
    method IsRunning(workerGone: bool, stale: bool) returns (running: bool)
      requires Valid()
      modifies this`life
      ensures Valid()
      ensures running <==> old(life).status.Running? && !workerGone && !stale
      ensures !life.status.Running? <==> !running
      ensures life == if old(life).status.Running? && !running then old(life).(status := Failed, completedAt := true) else old(life)
    {
      if !life.status.Running? { return false; }
      if !workerGone && !stale { return true; }
      Finish(life.offer.value, Failed, None);
      return false;
    }

    /** `markBackfillDelivered`: taken once for an offer whose run has ended. */
    method MarkDelivered(offer: nat) returns (delivered: bool)
      requires Valid()
      modifies this`life
      ensures Valid()
      ensures delivered <==> Ended(old(life)) && old(life).offer == Some(offer) && !old(life).deliveredAt
      ensures life == if delivered then old(life).(deliveredAt := true) else old(life)
    {
      var next := Delivered(life, offer);
      delivered := next.Some?;
      if delivered { life := next.value; }
    }
  }

  // ---------------------------------------------------------------------------------------------
  // What becomes of an offer
  // ---------------------------------------------------------------------------------------------

  /** One of the mutations; a claim is for the next offer. */
  datatype Change =
    | TryClaim(manual: bool)
    | Refuse(offer: nat)
    | Accept(offer: nat)
    | Count(offer: nat, queued: nat)
    | End(offer: nat, failed: bool, counted: Option<nat>)
    | Announce(offer: nat)

  /** The record and the number of the next offer. */
  datatype Life = Life(record: Lifecycle, nextOffer: nat)

  function Changed(l: Life, c: Change): Life {
    match c
    case TryClaim(manual) =>
      var next := Claimed(l.record, manual, l.nextOffer);
      if next.Some? then Life(next.value, l.nextOffer + 1) else l
    case Refuse(o) => l.(record := Applied(l.record, DeclinedBy(l.record, o)))
    case Accept(o) => l.(record := Applied(l.record, Begun(l.record, o)))
    case Count(o, n) => l.(record := Applied(l.record, Progressed(l.record, o, n)))
    case End(o, failed, n) => l.(record := Applied(l.record, Finished(l.record, o, if failed then Failed else Completed, n)))
    case Announce(o) => l.(record := Applied(l.record, Delivered(l.record, o)))
  }

  function AllChanged(l: Life, cs: seq<Change>): Life
    decreases |cs|
  {
    if cs == [] then l else AllChanged(Changed(l, cs[0]), cs[1..])
  }

  /** Uploads are authorized exactly while the offer runs or has run; a running record has neither ended nor been delivered, an
      ended one has; an offer is unanswered only while it is claimed. */
  ghost predicate InOrder(l: Life) {
    var r := l.record;
    && (r.authorized <==> r.status.Running? || Ended(r))
    && (r.status.Running? ==> !r.completedAt && !r.deliveredAt)
    && (Ended(r) ==> r.completedAt)
    && (r.consumed ==> r.status.Declined?)
    && (r.status.Pending? <==> r.offer.None?)
    && (r.offer.Some? ==> r.offer.value < l.nextOffer)
  }

  lemma {:induction false} AlwaysInOrder(l: Life, cs: seq<Change>)
    requires InOrder(l)
    ensures InOrder(AllChanged(l, cs)) && AllChanged(l, cs).nextOffer >= l.nextOffer
    decreases |cs|
  {
    if cs != [] { AlwaysInOrder(Changed(l, cs[0]), cs[1..]); }
  }

  /** In every run from a fresh record, chunks may be uploaded exactly when the offer was begun, and of a run that is under way the
      end of an earlier one is not on record. */
  lemma UploadsOnlyBegun(cs: seq<Change>)
    ensures InOrder(AllChanged(Life(FIRST, 0), cs))
  {
    AlwaysInOrder(Life(FIRST, 0), cs);
  }

  /** An offer claimed and not answered yet starts when it is begun, counting anew. */
  lemma ClaimedStarts(l: Life, manual: bool)
    requires InOrder(l) && (l.record.status.Pending? || (manual && (l.record.status.Failed? || l.record.status.Declined?)))
    ensures var claimed := Changed(l, TryClaim(manual));
            var begun := Changed(claimed, Accept(l.nextOffer)).record;
            && !claimed.record.authorized && claimed.record.offer == Some(l.nextOffer) && claimed.nextOffer == l.nextOffer + 1
            && begun.status.Running? && begun.offer == Some(l.nextOffer) && begun.queued == 0 && begun.authorized
            && !begun.completedAt && !begun.deliveredAt
  {
  }

  /** The offer is answered with no. */
  ghost predicate Refused(l: Life, o: nat) {
    l.record.status.Declined? && !l.record.consumed && l.record.offer == Some(o)
  }

  /** Once answered with no, an offer never runs and is never authorized, whatever comes later; only a new offer may. */
  lemma RefusedNeverRuns(l: Life, o: nat, cs: seq<Change>)
    requires InOrder(l) && l.record.status.Declined? && l.record.offer == Some(o)
    ensures var t := AllChanged(Changed(l, Refuse(o)), cs).record;
            t.offer == Some(o) ==> t.status.Declined? && !t.authorized && t.queued == l.record.queued
  {
    RefusedStays(Changed(l, Refuse(o)), o, cs);
  }

  lemma {:induction false} RefusedStays(l: Life, o: nat, cs: seq<Change>)
    requires InOrder(l) && (Refused(l, o) || (l.record.offer.Some? && l.record.offer != Some(o))) && o < l.nextOffer
    ensures var t := AllChanged(l, cs).record;
            t.offer == Some(o) ==> Refused(l, o) && t.status.Declined? && !t.authorized && t.queued == l.record.queued
    decreases |cs|
  {
    if cs != [] { RefusedStays(Changed(l, cs[0]), o, cs[1..]); }
  }

  // ---------------------------------------------------------------------------------------------
  // Counting the queue
  // ---------------------------------------------------------------------------------------------

  /** A file of a chunk queue by its suffix; the metadata of a sidecar names its offer when it is a backfill one. */
  datatype QueueFile = Sidecar(hasBody: bool, offer: Option<nat>) | SetAsideSidecar(offer: Option<nat>) | OtherFile

  predicate IsPending(f: QueueFile, offer: nat) {
    f.Sidecar? && f.hasBody && f.offer == Some(offer)
  }

  predicate IsSetAside(f: QueueFile, offer: nat) {
    f.SetAsideSidecar? && f.offer == Some(offer)
  }

  /** How many of these files, and of the files of these queues, are pending or set aside for the offer. */
  function PendingIn(files: seq<QueueFile>, offer: nat): nat {
    if files == [] then 0 else PendingIn(files[..|files| - 1], offer) + if IsPending(files[|files| - 1], offer) then 1 else 0
  }

  function SetAsideIn(files: seq<QueueFile>, offer: nat): nat {
    if files == [] then 0 else SetAsideIn(files[..|files| - 1], offer) + if IsSetAside(files[|files| - 1], offer) then 1 else 0
  }

  function AllFiles(queues: seq<seq<QueueFile>>): seq<QueueFile> {
    if queues == [] then [] else AllFiles(queues[..|queues| - 1]) + queues[|queues| - 1]
  }

  lemma {:induction false} CountsAdd(a: seq<QueueFile>, b: seq<QueueFile>, offer: nat)
    ensures PendingIn(a + b, offer) == PendingIn(a, offer) + PendingIn(b, offer)
    ensures SetAsideIn(a + b, offer) == SetAsideIn(a, offer) + SetAsideIn(b, offer)
    decreases |b|
  {
    if b == [] {
      assert a + b == a;
    } else {
      CountsAdd(a, b[..|b| - 1], offer);
      assert (a + b)[..|a + b| - 1] == a + b[..|b| - 1];
    }
  }

  /** Nothing is pending exactly when the count is zero. */
  lemma {:induction false} NonePending(files: seq<QueueFile>, offer: nat)
    ensures PendingIn(files, offer) == 0 <==> forall i | 0 <= i < |files| :: !IsPending(files[i], offer)
    decreases |files|
  {
    if files != [] { NonePending(files[..|files| - 1], offer); }
  }

  /** A queue, and a file in it, by their numbers. */
  type Spot = (nat, nat)

  predicate At(queues: seq<seq<QueueFile>>, pick: QueueFile -> bool, s: Spot) {
    s.0 < |queues| && s.1 < |queues[s.0]| && pick(queues[s.0][s.1])
  }

  /** Where the files of a kind are. */
  ghost predicate Spots(queues: seq<seq<QueueFile>>, pick: QueueFile -> bool, spots: set<Spot>) {
    forall s :: s in spots <==> At(queues, pick, s)
  }

  /** The sidecars with a body, and those set aside, whose metadata names the offer. */
  function Waiting(offer: nat): QueueFile -> bool {
    (f: QueueFile) => f.Sidecar? && f.hasBody && f.offer == Some(offer)
  }

  function PutAside(offer: nat): QueueFile -> bool {
    (f: QueueFile) => f.SetAsideSidecar? && f.offer == Some(offer)
  }

  function CountIn(files: seq<QueueFile>, pick: QueueFile -> bool): nat {
    if files == [] then 0 else CountIn(files[..|files| - 1], pick) + if pick(files[|files| - 1]) then 1 else 0
  }

  lemma {:induction false} CountsInAre(files: seq<QueueFile>, offer: nat)
    ensures PendingIn(files, offer) == CountIn(files, Waiting(offer)) && SetAsideIn(files, offer) == CountIn(files, PutAside(offer))
    decreases |files|
  {
    if files != [] {
      CountsInAre(files[..|files| - 1], offer);
      var f := files[|files| - 1];
      assert Waiting(offer)(f) <==> IsPending(f, offer);
      assert PutAside(offer)(f) <==> IsSetAside(f, offer);
    }
  }

  lemma OneMoreSpot(before: seq<seq<QueueFile>>, after: seq<seq<QueueFile>>, n: nat, f: QueueFile, pick: QueueFile -> bool, spots: set<Spot>)
    returns (more: set<Spot>)
    requires |before| == |after| == n + 1 && after == before[n := before[n] + [f]] && Spots(before, pick, spots)
    ensures Spots(after, pick, more) && |more| == |spots| + if pick(f) then 1 else 0
  {
    var s := (n, |before[n]|);
    assert s !in spots by { assert !At(before, pick, s); }
    more := if pick(f) then spots + {s} else spots;
    forall r: Spot ensures r in more <==> At(after, pick, r) { assert r != s ==> (At(after, pick, r) <==> At(before, pick, r)); }
  }

  /** With the files of the last queue up to `m`. */
  lemma {:induction false} LastQueueSpots(front: seq<seq<QueueFile>>, last: seq<QueueFile>, m: nat, pick: QueueFile -> bool, spots: set<Spot>)
    returns (more: set<Spot>)
    requires m <= |last| && Spots(front, pick, spots)
    ensures Spots(front + [last[..m]], pick, more) && |more| == |spots| + CountIn(last[..m], pick)
    decreases m
  {
    if m == 0 {
      more := spots;
      forall r: Spot ensures At(front + [last[..m]], pick, r) <==> At(front, pick, r) {}
    } else {
      more := LastQueueSpots(front, last, m - 1, pick, spots);
      assert last[..m] == last[..m - 1] + [last[m - 1]] && last[..m][..m - 1] == last[..m - 1];
      var before := front + [last[..m - 1]];
      assert front + [last[..m]] == before[|front| := before[|front|] + [last[m - 1]]];
      more := OneMoreSpot(before, front + [last[..m]], |front|, last[m - 1], pick, more);
    }
  }

  lemma {:induction false} CountConcat(a: seq<QueueFile>, b: seq<QueueFile>, pick: QueueFile -> bool)
    ensures CountIn(a + b, pick) == CountIn(a, pick) + CountIn(b, pick)
    decreases |b|
  {
    if b == [] {
      assert a + b == a;
    } else {
      CountConcat(a, b[..|b| - 1], pick);
      assert (a + b)[..|a + b| - 1] == a + b[..|b| - 1];
    }
  }

  lemma {:induction false} AllSpots(queues: seq<seq<QueueFile>>, pick: QueueFile -> bool) returns (spots: set<Spot>)
    ensures Spots(queues, pick, spots) && |spots| == CountIn(AllFiles(queues), pick)
    decreases |queues|
  {
    spots := {};
    if queues != [] {
      var n := |queues| - 1;
      spots := AllSpots(queues[..n], pick);
      spots := LastQueueSpots(queues[..n], queues[n], |queues[n]|, pick, spots);
      assert queues[n][..|queues[n]|] == queues[n] && queues[..n] + [queues[n]] == queues;
      CountConcat(AllFiles(queues[..n]), queues[n], pick);
    }
  }

  /** The count is that of the files of a kind, each file of each queue counting once. */
  ghost predicate Counts(queues: seq<seq<QueueFile>>, pick: QueueFile -> bool, count: nat) {
    exists spots :: Spots(queues, pick, spots) && |spots| == count
  }

  lemma CountsAreExact(queues: seq<seq<QueueFile>>, offer: nat)
    ensures Counts(queues, Waiting(offer), PendingIn(AllFiles(queues), offer))
    ensures Counts(queues, PutAside(offer), SetAsideIn(AllFiles(queues), offer))
  {
    CountsInAre(AllFiles(queues), offer);
    var waiting := AllSpots(queues, Waiting(offer));
    var aside := AllSpots(queues, PutAside(offer));
  }

  /** `countBackfillChunks`. */
  method CountBackfillChunks(queues: seq<seq<QueueFile>>, offer: nat) returns (pending: nat, setAside: nat)
    ensures Counts(queues, Waiting(offer), pending) && Counts(queues, PutAside(offer), setAside)
  {
    pending, setAside := 0, 0;
    for q := 0 to |queues|
      invariant pending == PendingIn(AllFiles(queues[..q]), offer) && setAside == SetAsideIn(AllFiles(queues[..q]), offer)
    {
      var files := queues[q];
      for i := 0 to |files|
        invariant pending == PendingIn(AllFiles(queues[..q]), offer) + PendingIn(files[..i], offer)
        invariant setAside == SetAsideIn(AllFiles(queues[..q]), offer) + SetAsideIn(files[..i], offer)
      {
        assert files[..i + 1][..i] == files[..i];
        match files[i]
        case SetAsideSidecar(o) => if o == Some(offer) { setAside := setAside + 1; }
        case Sidecar(hasBody, o) => if hasBody && o == Some(offer) { pending := pending + 1; }
        case OtherFile =>
      }
      assert files[..|files|] == files && queues[..q + 1][..q] == queues[..q];
      CountsAdd(AllFiles(queues[..q]), files, offer);
    }
    assert queues[..|queues|] == queues;
    CountsAreExact(queues, offer);
  }
}
