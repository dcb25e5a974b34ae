/** Every run of the history import: claims, workers, uploads and settling processes in any interleaving. The record's
    transitions are those of module `Backfill`. A run is demoted once its worker is dead (`Demote`), or, by the clock
    alone, while it may still be alive (`DemoteStale`). */
module BackfillRuns {
  import opened Options
  import opened Backfill

  /** The worker of an offer: not begun, started but not yet checked in, staging, or over for good. `counted` are the
      chunks of finished transcripts, `current` those of the transcript at hand; `faultless` until a transcript fails. */
  datatype Worker = Unbegun | Awaiting | Working(counted: nat, current: nat, faultless: bool) | Over

  /** A chunk ever staged: whether it still waits in its queue, and whether the collector acknowledged it. */
  datatype Chunk = Chunk(offer: nat, queue: nat, pending: bool, acked: bool)

  /** A process in `settleBackfillDelivery`: counting queue after queue, done counting with nothing pending, or past the
      mark with what the record said. `whole` is a run that completed without a failed transcript. */
  datatype Settler = Idle | Counting(offer: nat, queue: nat) | Clear(offer: nat) | Marked(offer: nat, queued: nat, whole: bool)

  datatype Result = Result(offer: nat, queued: nat, sent: nat, unsent: int, whole: bool)

  datatype State = State(life: Lifecycle, workers: seq<Worker>, chunks: seq<Chunk>, settlers: seq<Settler>,
                         settled: seq<nat>, results: seq<Result>)

  datatype Action =
    | Claim(manual: bool)
    | Decline(offer: nat)
    | Begin(offer: nat)
    | WorkerStarts(offer: nat)
    | StageChunk(offer: nat, queue: nat)
    | TranscriptDone(offer: nat, failed: bool)
    | WorkerFinishes(offer: nat)
    | WorkerThrows(offer: nat)
    | WorkerDies(offer: nat)
    | Demote
    | DemoteStale
    | Acknowledge(chunk: nat)
    | LeaveQueue(chunk: nat)
    | BeginSettling(settler: nat)
    | CountQueue(settler: nat)
    | MarkSettled(settler: nat)
    | Report(settler: nat)
    | SettlerDies(settler: nat)

  function Start(settlers: nat): State {
    State(FIRST, [], [], seq(settlers, _ => Idle), [], [])
  }

  // ---- Counting chunks ----

  function CountOf(chunks: seq<Chunk>, offer: nat): nat {
    if chunks == [] then 0 else CountOf(chunks[..|chunks| - 1], offer) + if chunks[|chunks| - 1].offer == offer then 1 else 0
  }

  function AckedOf(chunks: seq<Chunk>, offer: nat): nat {
    if chunks == [] then 0
    else
      var c := chunks[|chunks| - 1];
      AckedOf(chunks[..|chunks| - 1], offer) + if c.offer == offer && c.acked then 1 else 0
  }

  predicate PendingOf(c: Chunk, offer: nat) {
    c.pending && c.offer == offer
  }

  /** No chunk of the offer waits in the queues before number `q`. */
  predicate NonePendingBefore(chunks: seq<Chunk>, offer: nat, q: nat) {
    forall i | 0 <= i < |chunks| && PendingOf(chunks[i], offer) :: chunks[i].queue >= q
  }

  predicate NonePending(chunks: seq<Chunk>, offer: nat) {
    forall i | 0 <= i < |chunks| :: !PendingOf(chunks[i], offer)
  }

  // ---- Steps ----

  function SetWorker(s: State, offer: nat, w: Worker): State
    requires offer < |s.workers|
  {
    s.(workers := s.workers[offer := w])
  }

  function SetSettler(s: State, i: nat, settler: Settler): State
    requires i < |s.settlers|
  {
    s.(settlers := s.settlers[i := settler])
  }

  function ApplyToLife(s: State, act: Action): State {
    match act
    case Claim(manual) =>
      var next := Claimed(s.life, manual, |s.workers|);
      if next.Some? then s.(life := next.value, workers := s.workers + [Unbegun]) else s
    case Decline(o) => s.(life := Applied(s.life, DeclinedBy(s.life, o)))
    case Begin(o) =>
      if o < |s.workers| && Begun(s.life, o).Some? then SetWorker(s, o, Awaiting).(life := Begun(s.life, o).value) else s
    case Demote =>
      if s.life.status.Running? && s.life.offer.Some? && s.life.offer.value < |s.workers| && s.workers[s.life.offer.value].Over?
      then s.(life := Applied(s.life, Finished(s.life, s.life.offer.value, Failed, None)))
      else s
    case DemoteStale =>
      if s.life.status.Running? && s.life.offer.Some? then s.(life := Applied(s.life, Finished(s.life, s.life.offer.value, Failed, None))) else s
    case _ => s
  }

  function ApplyToWorker(s: State, o: nat, act: Action): State
    requires o < |s.workers|
  {
    match (act, s.workers[o])
    case (WorkerStarts(_), Awaiting) =>
      SetWorker(s, o, if s.life.status.Running? && s.life.offer == Some(o) then Working(0, 0, true) else Over)
    case (StageChunk(_, queue), Working(counted, current, ok)) =>
      SetWorker(s, o, Working(counted, current + 1, ok)).(chunks := s.chunks + [Chunk(o, queue, true, false)])
    case (TranscriptDone(_, failed), Working(counted, current, ok)) =>
      var sum := if failed then counted else counted + current;
      SetWorker(s, o, Working(sum, 0, ok && !failed)).(life := Applied(s.life, Progressed(s.life, o, sum)))
    case (WorkerFinishes(_), Working(counted, current, ok)) =>
      if current > 0 then s
      else SetWorker(s, o, Over).(life := Applied(s.life, Finished(s.life, o, if ok then Completed else Failed, Some(counted))))
    case (WorkerThrows(_), Working(_, _, _)) => SetWorker(s, o, Over).(life := Applied(s.life, Finished(s.life, o, Failed, None)))
    case (WorkerDies(_), Working(_, _, _)) => SetWorker(s, o, Over)
    case (WorkerDies(_), Awaiting) => SetWorker(s, o, Over)
    case _ => s
  }

  function ApplyToChunk(s: State, c: nat, act: Action): State
    requires c < |s.chunks|
  {
    if !s.chunks[c].pending then s
    else
      match act
      case Acknowledge(_) => s.(chunks := s.chunks[c := s.chunks[c].(acked := true)])
      case LeaveQueue(_) => s.(chunks := s.chunks[c := s.chunks[c].(pending := false)])
      case _ => s
  }

  function ApplyToSettler(queues: nat, s: State, i: nat, act: Action): State
    requires i < |s.settlers|
  {
    match (act, s.settlers[i])
    case (BeginSettling(_), Idle) =>
      if Ended(s.life) && s.life.completedAt && !s.life.deliveredAt && s.life.offer.Some? && s.life.queued > 0
      then SetSettler(s, i, Counting(s.life.offer.value, 0))
      else s
    case (CountQueue(_), Counting(o, q)) =>
      if q == queues then SetSettler(s, i, Clear(o))
      else if exists k :: 0 <= k < |s.chunks| && PendingOf(s.chunks[k], o) && s.chunks[k].queue == q then SetSettler(s, i, Idle)
      else SetSettler(s, i, Counting(o, q + 1))
    case (MarkSettled(_), Clear(o)) =>
      var next := Delivered(s.life, o);
      if next.None? then SetSettler(s, i, Idle)
      else SetSettler(s, i, Marked(o, s.life.queued, s.life.status.Completed?)).(life := next.value, settled := s.settled + [o])
    case (Report(_), Marked(o, queued, whole)) =>
      var acked := AckedOf(s.chunks, o);
      var sent := if acked < queued then acked else queued;
      SetSettler(s, i, Idle).(results := s.results + [Result(o, queued, sent, queued - sent, whole)])
    case (SettlerDies(_), _) => SetSettler(s, i, Idle)
    case _ => s
  }

  function Apply(queues: nat, s: State, act: Action): State {
    match act
    case Claim(_) => ApplyToLife(s, act)
    case Decline(_) => ApplyToLife(s, act)
    case Begin(_) => ApplyToLife(s, act)
    case Demote => ApplyToLife(s, act)
    case DemoteStale => ApplyToLife(s, act)
    case StageChunk(o, q) => if o < |s.workers| && q < queues then ApplyToWorker(s, o, act) else s
    case WorkerStarts(o) => if o < |s.workers| then ApplyToWorker(s, o, act) else s
    case TranscriptDone(o, _) => if o < |s.workers| then ApplyToWorker(s, o, act) else s
    case WorkerFinishes(o) => if o < |s.workers| then ApplyToWorker(s, o, act) else s
    case WorkerThrows(o) => if o < |s.workers| then ApplyToWorker(s, o, act) else s
    case WorkerDies(o) => if o < |s.workers| then ApplyToWorker(s, o, act) else s
    case Acknowledge(c) => if c < |s.chunks| then ApplyToChunk(s, c, act) else s
    case LeaveQueue(c) => if c < |s.chunks| then ApplyToChunk(s, c, act) else s
    case BeginSettling(i) => if i < |s.settlers| then ApplyToSettler(queues, s, i, act) else s
    case CountQueue(i) => if i < |s.settlers| then ApplyToSettler(queues, s, i, act) else s
    case MarkSettled(i) => if i < |s.settlers| then ApplyToSettler(queues, s, i, act) else s
    case Report(i) => if i < |s.settlers| then ApplyToSettler(queues, s, i, act) else s
    case SettlerDies(i) => if i < |s.settlers| then ApplyToSettler(queues, s, i, act) else s
  }

  // ---- Invariant ----

  predicate Live(w: Worker) {
    w.Awaiting? || w.Working?
  }

  /** The record and the worker of its offer agree: an unanswered offer has not begun, an ended record has a worker that is
      over or nothing that could settle, and a live worker finds its offer in the record running, ended, or replaced. */
  ghost predicate LifeOk(life: Lifecycle, workers: seq<Worker>) {
    && (life.offer.Some? ==> life.offer.value < |workers|)
    && (life.status.Running? || Ended(life) || (life.status.Declined? && life.consumed) ==> life.offer.Some?)
    && (life.status.Running? ==> !workers[life.offer.value].Unbegun? && !life.deliveredAt)
    && (life.status.Declined? && life.consumed ==> workers[life.offer.value].Unbegun?)
    && (Ended(life) ==> workers[life.offer.value].Over? || life.queued == 0)
    && (life.status.Completed? ==> workers[life.offer.value].Over?)
    && (forall o | 0 <= o < |workers| && Live(workers[o]) && life.offer == Some(o) :: life.status.Running? || Ended(life))
  }

  /** What the record says is queued of a running offer. */
  function QueuedFor(life: Lifecycle, o: nat): nat {
    if life.status.Running? && life.offer == Some(o) then life.queued else 0
  }

  /** What the record says is queued was staged; all of it when the run completed. */
  ghost predicate QueuedOk(life: Lifecycle, workers: seq<Worker>, chunks: seq<Chunk>) {
    && ((life.status.Running? || Ended(life)) && life.offer.Some? ==> life.queued <= CountOf(chunks, life.offer.value))
    && (life.status.Completed? && life.offer.Some? ==> life.queued == CountOf(chunks, life.offer.value))
    && (forall o | 0 <= o < |workers| :: WorkerCounts(workers[o], QueuedFor(life, o), CountOf(chunks, o)))
  }

  predicate WorkerCounts(w: Worker, queued: nat, staged: nat) {
    match w
    case Unbegun => staged == 0
    case Awaiting => staged == 0 && queued == 0
    case Working(counted, current, faultless) => queued <= counted && counted + current <= staged && (faultless ==> counted + current == staged)
    case Over => true
  }

  ghost predicate OverAndClear(workers: seq<Worker>, chunks: seq<Chunk>, o: nat) {
    o < |workers| && workers[o].Over? && NonePending(chunks, o)
  }

  ghost predicate SettlerOk(queues: nat, workers: seq<Worker>, chunks: seq<Chunk>, settled: seq<nat>, w: Settler) {
    match w
    case Idle => true
    case Counting(o, q) => o < |workers| && workers[o].Over? && q <= queues && NonePendingBefore(chunks, o, q)
    case Clear(o) => OverAndClear(workers, chunks, o)
    case Marked(o, queued, whole) => o in settled && queued <= CountOf(chunks, o) && (whole ==> queued == CountOf(chunks, o))
  }

  /** Settled offers: each once, over, nothing pending, and marked in the record as long as it is theirs. */
  ghost predicate SettledOk(life: Lifecycle, workers: seq<Worker>, chunks: seq<Chunk>, settled: seq<nat>) {
    && (forall i | 0 <= i < |settled| :: OverAndClear(workers, chunks, settled[i]))
    && (forall i, j | 0 <= i < j < |settled| :: settled[i] != settled[j])
    && (life.offer.Some? && life.offer.value in settled ==> life.deliveredAt)
  }

  ghost predicate ResultOk(chunks: seq<Chunk>, settled: seq<nat>, r: Result) {
    && r.offer in settled && r.sent + r.unsent == r.queued && r.unsent >= 0
    && r.queued <= CountOf(chunks, r.offer)
    && r.sent == (if AckedOf(chunks, r.offer) < r.queued then AckedOf(chunks, r.offer) else r.queued)
    && (r.whole ==> r.queued == CountOf(chunks, r.offer))
  }

  /** No settlement is announced twice, nor waits to be announced twice. */
  ghost predicate AnnouncedOk(settlers: seq<Settler>, results: seq<Result>) {
    && (forall i, j | 0 <= i < j < |results| :: results[i].offer != results[j].offer)
    && (forall i, j | 0 <= i < |settlers| && settlers[i].Marked? && 0 <= j < |results| :: settlers[i].offer != results[j].offer)
    && (forall i, j | 0 <= i < j < |settlers| && settlers[i].Marked? && settlers[j].Marked? :: settlers[i].offer != settlers[j].offer)
  }

  ghost predicate Inv(queues: nat, s: State) {
    && LifeOk(s.life, s.workers)
    && QueuedOk(s.life, s.workers, s.chunks)
    && (forall i | 0 <= i < |s.chunks| :: s.chunks[i].queue < queues && s.chunks[i].offer < |s.workers|)
    && (forall i | 0 <= i < |s.settlers| :: SettlerOk(queues, s.workers, s.chunks, s.settled, s.settlers[i]))
    && SettledOk(s.life, s.workers, s.chunks, s.settled)
    && (forall i | 0 <= i < |s.results| :: ResultOk(s.chunks, s.settled, s.results[i]))
    && AnnouncedOk(s.settlers, s.results)
  }

  // ---- Chunks and counts ----

  lemma CountsAppend(chunks: seq<Chunk>, c: Chunk, o: nat)
    ensures CountOf(chunks + [c], o) == CountOf(chunks, o) + if c.offer == o then 1 else 0
    ensures AckedOf(chunks + [c], o) == AckedOf(chunks, o) + if c.offer == o && c.acked then 1 else 0
  {
    assert (chunks + [c])[..|chunks|] == chunks;
  }

  lemma {:induction false} CountsReplace(chunks: seq<Chunk>, k: nat, c: Chunk, o: nat)
    requires k < |chunks| && c.offer == chunks[k].offer
    ensures CountOf(chunks[k := c], o) == CountOf(chunks, o)
    ensures c.offer != o || c.acked == chunks[k].acked ==> AckedOf(chunks[k := c], o) == AckedOf(chunks, o)
    decreases |chunks|
  {
    var n := |chunks| - 1;
    if k < n {
      assert chunks[k := c][..n] == chunks[..n][k := c];
      CountsReplace(chunks[..n], k, c, o);
    } else {
      assert chunks[k := c][..n] == chunks[..n];
    }
  }

  lemma {:induction false} AckedWithinCount(chunks: seq<Chunk>, o: nat)
    ensures AckedOf(chunks, o) <= CountOf(chunks, o)
    decreases |chunks|
  {
    if chunks != [] { AckedWithinCount(chunks[..|chunks| - 1], o); }
  }

  lemma {:induction false} NoneOf(chunks: seq<Chunk>, o: nat)
    requires forall i | 0 <= i < |chunks| :: chunks[i].offer != o
    ensures CountOf(chunks, o) == 0
    decreases |chunks|
  {
    if chunks != [] { NoneOf(chunks[..|chunks| - 1], o); }
  }

  // ---- Every step keeps the invariant ----

  /** A step that touches neither chunks nor settlers, and ends no worker's being over. */
  lemma LifeStepKeeps(queues: nat, s: State, t: State)
    requires Inv(queues, s) && t.chunks == s.chunks && t.settlers == s.settlers && t.settled == s.settled && t.results == s.results
    requires |t.workers| >= |s.workers| && forall o | 0 <= o < |s.workers| && s.workers[o].Over? :: t.workers[o].Over?
    requires LifeOk(t.life, t.workers) && QueuedOk(t.life, t.workers, t.chunks)
    requires t.life.offer.Some? && t.life.offer.value in t.settled ==> t.life.deliveredAt
    ensures Inv(queues, t)
  {
    forall i | 0 <= i < |t.settlers| ensures SettlerOk(queues, t.workers, t.chunks, t.settled, t.settlers[i]) {
      assert SettlerOk(queues, s.workers, s.chunks, s.settled, s.settlers[i]);
    }
  }

  /** A run may be demoted without harm when its worker is over, or when it has queued nothing. */
  predicate MayDemote(s: State) {
    s.life.status.Running? && s.life.offer.Some? && s.life.offer.value < |s.workers| ==>
      s.workers[s.life.offer.value].Over? || s.life.queued == 0
  }

  lemma LifeStep(queues: nat, s: State, act: Action)
    requires Inv(queues, s) && (act.Claim? || act.Decline? || act.Begin? || act.Demote?)
    ensures Inv(queues, ApplyToLife(s, act))
  {
    var t := ApplyToLife(s, act);
    if act.Claim? { NoneOf(s.chunks, |s.workers|); }
    if t != s { LifeStepKeeps(queues, s, t); }
  }

  lemma StaleStep(queues: nat, s: State)
    requires Inv(queues, s) && MayDemote(s)
    ensures Inv(queues, ApplyToLife(s, DemoteStale))
  {
    var t := ApplyToLife(s, DemoteStale);
    if t != s { LifeStepKeeps(queues, s, t); }
  }

  /** A worker that changes while the record stays. */
  lemma WorkerChanges(queues: nat, s: State, o: nat, w: Worker)
    requires Inv(queues, s) && o < |s.workers| && Live(s.workers[o])
    requires w.Over? || (w.Working? && (s.life.offer == Some(o) ==> s.life.status.Running? || Ended(s.life)))
    requires WorkerCounts(w, QueuedFor(s.life, o), CountOf(s.chunks, o))
    ensures Inv(queues, SetWorker(s, o, w))
  {
    LifeStepKeeps(queues, s, SetWorker(s, o, w));
  }

  lemma StartStep(queues: nat, s: State, o: nat)
    requires Inv(queues, s) && o < |s.workers| && s.workers[o].Awaiting?
    ensures Inv(queues, ApplyToWorker(s, o, WorkerStarts(o)))
  {
    assert WorkerCounts(s.workers[o], QueuedFor(s.life, o), CountOf(s.chunks, o));
    if s.life.status.Running? && s.life.offer == Some(o) { CheckInStep(queues, s, o, Working(0, 0, true)); }
    else { WorkerChanges(queues, s, o, Over); }
  }

  lemma CheckInStep(queues: nat, s: State, o: nat, w: Worker)
    requires Inv(queues, s) && o < |s.workers| && s.workers[o].Awaiting?
    requires w.Working? && w.counted == w.current == 0
    ensures Inv(queues, SetWorker(s, o, w))
  {
    assert WorkerCounts(s.workers[o], QueuedFor(s.life, o), CountOf(s.chunks, o));
    WorkerChanges(queues, s, o, w);
  }

  lemma TranscriptStep(queues: nat, s: State, o: nat, failed: bool)
    requires Inv(queues, s) && o < |s.workers| && s.workers[o].Working?
    ensures Inv(queues, ApplyToWorker(s, o, TranscriptDone(o, failed)))
  {
    var t := ApplyToWorker(s, o, TranscriptDone(o, failed));
    assert WorkerCounts(s.workers[o], QueuedFor(s.life, o), CountOf(s.chunks, o));
    if s.life.status.Running? && s.life.offer == Some(o) {
      assert t.life == s.life.(queued := t.workers[o].counted);
      ProgressedOk(s, t, o);
      LifeStepKeeps(queues, s, t);
    } else {
      WorkerChanges(queues, s, o, t.workers[o]);
    }
  }

  lemma ProgressedOk(s: State, t: State, o: nat)
    requires LifeOk(s.life, s.workers) && QueuedOk(s.life, s.workers, s.chunks) && o < |s.workers|
    requires s.life.status.Running? && s.life.offer == Some(o) && t.chunks == s.chunks
    requires |t.workers| == |s.workers| && t.workers == s.workers[o := t.workers[o]] && t.workers[o].Working? && t.life == s.life.(queued := t.workers[o].counted)
    requires WorkerCounts(t.workers[o], t.workers[o].counted, CountOf(s.chunks, o))
    ensures LifeOk(t.life, t.workers) && QueuedOk(t.life, t.workers, t.chunks)
  {
    forall p | 0 <= p < |t.workers| && p != o ensures WorkerCounts(t.workers[p], QueuedFor(t.life, p), CountOf(t.chunks, p)) {
      assert WorkerCounts(s.workers[p], QueuedFor(s.life, p), CountOf(s.chunks, p));
    }
  }

  lemma LastStep(queues: nat, s: State, o: nat, act: Action)
    requires Inv(queues, s) && o < |s.workers| && Live(s.workers[o])
    requires act.WorkerFinishes? || act.WorkerThrows? || act.WorkerDies?
    ensures Inv(queues, ApplyToWorker(s, o, act))
  {
    var t := ApplyToWorker(s, o, act);
    assert WorkerCounts(s.workers[o], QueuedFor(s.life, o), CountOf(s.chunks, o));
    if t == SetWorker(s, o, Over) {
      WorkerChanges(queues, s, o, Over);
    } else if t != s {
      EndsRun(s, o, act);
      FinishedOk(s, t, o);
      LifeStepKeeps(queues, s, t);
    }
  }

  /** A worker's last step that changes the record ends its own run, with what was staged. */
  lemma EndsRun(s: State, o: nat, act: Action)
    requires o < |s.workers| && Live(s.workers[o]) && (act.WorkerFinishes? || act.WorkerThrows? || act.WorkerDies?)
    requires WorkerCounts(s.workers[o], QueuedFor(s.life, o), CountOf(s.chunks, o))
    requires var t := ApplyToWorker(s, o, act); t != SetWorker(s, o, Over) && t != s
    requires LifeOk(s.life, s.workers)
    ensures var t := ApplyToWorker(s, o, act);
            && s.life.status.Running? && s.life.offer == Some(o) && t == s.(life := t.life, workers := s.workers[o := Over])
            && Ended(t.life) && t.life.offer == s.life.offer && t.life.deliveredAt == s.life.deliveredAt
            && t.life.queued <= CountOf(s.chunks, o) && (t.life.status.Completed? ==> t.life.queued == CountOf(s.chunks, o))
  {
  }

  lemma FinishedOk(s: State, t: State, o: nat)
    requires LifeOk(s.life, s.workers) && QueuedOk(s.life, s.workers, s.chunks) && o < |s.workers|
    requires s.life.status.Running? && s.life.offer == Some(o) && t.chunks == s.chunks && t.workers == s.workers[o := Over]
    requires Ended(t.life) && t.life.offer == s.life.offer && t.life.deliveredAt == s.life.deliveredAt
    requires t.life.queued <= CountOf(s.chunks, o) && (t.life.status.Completed? ==> t.life.queued == CountOf(s.chunks, o))
    ensures LifeOk(t.life, t.workers) && QueuedOk(t.life, t.workers, t.chunks)
  {
    forall p | 0 <= p < |t.workers| ensures WorkerCounts(t.workers[p], QueuedFor(t.life, p), CountOf(t.chunks, p)) {
      assert WorkerCounts(s.workers[p], QueuedFor(s.life, p), CountOf(s.chunks, p));
    }
  }

  lemma StageStep(queues: nat, s: State, o: nat, queue: nat)
    requires Inv(queues, s) && o < |s.workers| && queue < queues && s.workers[o].Working?
    ensures Inv(queues, ApplyToWorker(s, o, StageChunk(o, queue)))
  {
    var t := ApplyToWorker(s, o, StageChunk(o, queue));
    var c := Chunk(o, queue, true, false);
    assert t == s.(workers := s.workers[o := t.workers[o]], chunks := s.chunks + [c]);
    StagedCounts(queues, s, t, o, c);
    StagedSettlers(queues, s, t, o, c);
    StagedResults(queues, s, t, o, c);
    StagedLife(s.life, s.workers, t.workers, o);
    StagedSettled(queues, s, t);
  }

  lemma StagedLife(life: Lifecycle, was: seq<Worker>, now: seq<Worker>, o: nat)
    requires LifeOk(life, was) && o < |was| == |now| && now == was[o := now[o]] && was[o].Working? && now[o].Working?
    ensures LifeOk(life, now)
  {
  }

  lemma StagedSettled(queues: nat, s: State, t: State)
    requires Inv(queues, s) && t.life == s.life && t.settled == s.settled
    requires forall p: nat | p < |s.workers| && s.workers[p].Over? && NonePending(s.chunks, p) :: OverAndClear(t.workers, t.chunks, p)
    ensures SettledOk(t.life, t.workers, t.chunks, t.settled)
  {
    forall i | 0 <= i < |t.settled| ensures OverAndClear(t.workers, t.chunks, t.settled[i]) {
      assert OverAndClear(s.workers, s.chunks, s.settled[i]);
    }
  }

  /** One more chunk is staged and counted by its worker. */
  lemma StagedCounts(queues: nat, s: State, t: State, o: nat, c: Chunk)
    requires Inv(queues, s) && o < |s.workers| && s.workers[o].Working? && c.offer == o
    requires t.life == s.life && t.chunks == s.chunks + [c] && |t.workers| == |s.workers| && t.workers == s.workers[o := t.workers[o]]
    requires t.workers[o] == Working(s.workers[o].counted, s.workers[o].current + 1, s.workers[o].faultless)
    ensures QueuedOk(t.life, t.workers, t.chunks)
  {
    forall p: nat ensures CountOf(t.chunks, p) == CountOf(s.chunks, p) + (if p == o then 1 else 0) { CountsAppend(s.chunks, c, p); }
    forall p | 0 <= p < |t.workers| ensures WorkerCounts(t.workers[p], QueuedFor(t.life, p), CountOf(t.chunks, p)) {
      assert WorkerCounts(s.workers[p], QueuedFor(s.life, p), CountOf(s.chunks, p));
    }
  }

  /** The results are of offers whose workers are over. */
  lemma StagedResults(queues: nat, s: State, t: State, o: nat, c: Chunk)
    requires Inv(queues, s) && o < |s.workers| && s.workers[o].Working? && c.offer == o && !c.acked
    requires t.chunks == s.chunks + [c] && t.settled == s.settled && t.results == s.results
    ensures forall i | 0 <= i < |t.results| :: ResultOk(t.chunks, t.settled, t.results[i])
  {
    forall i | 0 <= i < |t.results| ensures ResultOk(t.chunks, t.settled, t.results[i]) {
      assert ResultOk(s.chunks, s.settled, s.results[i]);
      assert OverAndClear(s.workers, s.chunks, s.results[i].offer);
      CountsAppend(s.chunks, c, s.results[i].offer);
    }
  }

  /** What settling processes have found does not concern a worker that is still staging. */
  lemma StagedSettlers(queues: nat, s: State, t: State, o: nat, c: Chunk)
    requires Inv(queues, s) && o < |s.workers| && s.workers[o].Working? && c.offer == o
    requires t.settlers == s.settlers && t.settled == s.settled && t.chunks == s.chunks + [c]
    requires |t.workers| == |s.workers| && t.workers == s.workers[o := t.workers[o]] && t.workers[o].Working?
    ensures forall i | 0 <= i < |t.settlers| :: SettlerOk(queues, t.workers, t.chunks, t.settled, t.settlers[i])
    ensures forall p: nat | p < |s.workers| && s.workers[p].Over? && NonePending(s.chunks, p) :: OverAndClear(t.workers, t.chunks, p)
  {
    forall p: nat | p != o ensures CountOf(t.chunks, p) == CountOf(s.chunks, p) { CountsAppend(s.chunks, c, p); }
    forall p: nat | p < |s.workers| && s.workers[p].Over? && NonePending(s.chunks, p) ensures OverAndClear(t.workers, t.chunks, p) {}
    forall i | 0 <= i < |t.settlers| ensures SettlerOk(queues, t.workers, t.chunks, t.settled, t.settlers[i]) {
      assert SettlerOk(queues, s.workers, s.chunks, s.settled, s.settlers[i]);
      assert s.settlers[i].Marked? ==> OverAndClear(s.workers, s.chunks, s.settlers[i].offer);
    }
  }

  lemma ChunkStep(queues: nat, s: State, k: nat, act: Action)
    requires Inv(queues, s) && k < |s.chunks| && s.chunks[k].pending && (act.Acknowledge? || act.LeaveQueue?)
    ensures Inv(queues, ApplyToChunk(s, k, act))
  {
    var t := ApplyToChunk(s, k, act);
    var c := t.chunks[k];
    forall p: nat ensures CountOf(t.chunks, p) == CountOf(s.chunks, p) && (p != c.offer ==> AckedOf(t.chunks, p) == AckedOf(s.chunks, p)) {
      CountsReplace(s.chunks, k, c, p);
    }
    forall i | 0 <= i < |t.settlers| ensures SettlerOk(queues, t.workers, t.chunks, t.settled, t.settlers[i]) {
      assert SettlerOk(queues, s.workers, s.chunks, s.settled, s.settlers[i]);
    }
    forall i | 0 <= i < |t.results| ensures ResultOk(t.chunks, t.settled, t.results[i]) {
      assert ResultOk(s.chunks, s.settled, s.results[i]);
      assert OverAndClear(s.workers, s.chunks, s.results[i].offer);
    }
  }

  lemma AnnouncedStep(queues: nat, s: State, i: nat, act: Action)
    requires Inv(queues, s) && i < |s.settlers|
    ensures var t := ApplyToSettler(queues, s, i, act); AnnouncedOk(t.settlers, t.results)
  {
    var t := ApplyToSettler(queues, s, i, act);
    if t.settlers[i].Marked? && !s.settlers[i].Marked? {
      var o := t.settlers[i].offer;
      assert o !in s.settled;
      forall j | 0 <= j < |s.results| ensures s.results[j].offer != o { assert ResultOk(s.chunks, s.settled, s.results[j]); }
      forall j | 0 <= j < |s.settlers| && s.settlers[j].Marked? ensures s.settlers[j].offer != o {
        assert SettlerOk(queues, s.workers, s.chunks, s.settled, s.settlers[j]);
      }
    }
  }

  lemma SettlerStep(queues: nat, s: State, i: nat, act: Action)
    requires Inv(queues, s) && i < |s.settlers|
    ensures Inv(queues, ApplyToSettler(queues, s, i, act))
  {
    var t := ApplyToSettler(queues, s, i, act);
    AnnouncedStep(queues, s, i, act);
    SettlingStep(queues, s, i, act);
    forall j | 0 <= j < |t.results| ensures ResultOk(t.chunks, t.settled, t.results[j]) {
      if j < |s.results| { assert ResultOk(s.chunks, s.settled, s.results[j]); }
    }
  }

  lemma SettlingStep(queues: nat, s: State, i: nat, act: Action)
    requires Inv(queues, s) && i < |s.settlers|
    ensures var t := ApplyToSettler(queues, s, i, act);
            && (forall j | 0 <= j < |t.settlers| :: SettlerOk(queues, t.workers, t.chunks, t.settled, t.settlers[j]))
            && SettledOk(t.life, t.workers, t.chunks, t.settled)
            && (forall j | |s.results| <= j < |t.results| :: ResultOk(t.chunks, t.settled, t.results[j]))
  {
    var t := ApplyToSettler(queues, s, i, act);
    assert SettlerOk(queues, s.workers, s.chunks, s.settled, s.settlers[i]);
    assert SettlerOk(queues, t.workers, t.chunks, t.settled, t.settlers[i]);
    forall j | 0 <= j < |t.settlers| ensures SettlerOk(queues, t.workers, t.chunks, t.settled, t.settlers[j]) {
      assert SettlerOk(queues, s.workers, s.chunks, s.settled, s.settlers[j]);
    }
  }

  predicate OfWorker(act: Action) {
    act.WorkerStarts? || act.StageChunk? || act.TranscriptDone? || act.WorkerFinishes? || act.WorkerThrows? || act.WorkerDies?
  }

  predicate OfSettler(act: Action) {
    act.BeginSettling? || act.CountQueue? || act.MarkSettled? || act.Report? || act.SettlerDies?
  }

  lemma WorkerStep(queues: nat, s: State, act: Action)
    requires Inv(queues, s) && OfWorker(act)
    ensures Inv(queues, Apply(queues, s, act))
  {
    match act
    case StageChunk(o, q) => if o < |s.workers| && q < queues && s.workers[o].Working? { StageStep(queues, s, o, q); }
    case WorkerStarts(o) => if o < |s.workers| && s.workers[o].Awaiting? { StartStep(queues, s, o); }
    case TranscriptDone(o, failed) => if o < |s.workers| && s.workers[o].Working? { TranscriptStep(queues, s, o, failed); }
    case WorkerFinishes(o) => if o < |s.workers| && s.workers[o].Working? { LastStep(queues, s, o, act); }
    case WorkerThrows(o) => if o < |s.workers| && s.workers[o].Working? { LastStep(queues, s, o, act); }
    case WorkerDies(o) => if o < |s.workers| && (s.workers[o].Awaiting? || s.workers[o].Working?) { LastStep(queues, s, o, act); }
  }

  /** Every step keeps the invariant, a demotion by the clock when it may be made. */
  lemma StepInv(queues: nat, s: State, act: Action)
    requires Inv(queues, s) && (act.DemoteStale? ==> MayDemote(s))
    ensures Inv(queues, Apply(queues, s, act))
  {
    if OfWorker(act) {
      WorkerStep(queues, s, act);
    } else if OfSettler(act) {
      if act.settler < |s.settlers| { SettlerStep(queues, s, act.settler, act); }
    } else if act.Acknowledge? || act.LeaveQueue? {
      if act.chunk < |s.chunks| && s.chunks[act.chunk].pending { ChunkStep(queues, s, act.chunk, act); }
    } else if act.DemoteStale? {
      StaleStep(queues, s);
    } else {
      LifeStep(queues, s, act);
    }
  }

  /** No step takes back a settlement or a result. */
  lemma StepGrows(queues: nat, s: State, act: Action)
    ensures s.settled <= Apply(queues, s, act).settled && s.results <= Apply(queues, s, act).results
  {
  }

  // ---- Runs ----

  /** The state after a run. */
  function Run(queues: nat, settlers: nat, run: seq<Action>): State
    decreases |run|
  {
    if run == [] then Start(settlers) else Apply(queues, Run(queues, settlers, run[..|run| - 1]), run[|run| - 1])
  }

  /** Demotions by the clock are made only when they may be. */
  predicate Careful(queues: nat, settlers: nat, run: seq<Action>) {
    forall i | 0 <= i < |run| && run[i].DemoteStale? :: MayDemote(Run(queues, settlers, run[..i]))
  }

  lemma CarefulBefore(queues: nat, settlers: nat, run: seq<Action>, n: nat)
    requires Careful(queues, settlers, run) && n <= |run|
    ensures Careful(queues, settlers, run[..n])
  {
    forall i | 0 <= i < n && run[i].DemoteStale? ensures MayDemote(Run(queues, settlers, run[..n][..i])) {
      assert run[..n][..i] == run[..i];
    }
  }

  lemma {:induction false} RunInv(queues: nat, settlers: nat, run: seq<Action>)
    requires Careful(queues, settlers, run)
    ensures Inv(queues, Run(queues, settlers, run))
    decreases |run|
  {
    if run != [] {
      var n := |run| - 1;
      CarefulBefore(queues, settlers, run, n);
      RunInv(queues, settlers, run[..n]);
      StepInv(queues, Run(queues, settlers, run[..n]), run[n]);
    }
  }

  lemma {:induction false} SettledStays(queues: nat, settlers: nat, run: seq<Action>, later: seq<Action>)
    ensures Run(queues, settlers, run).settled <= Run(queues, settlers, run + later).settled
    ensures Run(queues, settlers, run).results <= Run(queues, settlers, run + later).results
    decreases |later|
  {
    if later == [] {
      assert run + later == run;
    } else {
      var l := later[..|later| - 1];
      SettledStays(queues, settlers, run, l);
      assert (run + later)[..|run + later| - 1] == run + l;
      StepGrows(queues, Run(queues, settlers, run + l), later[|later| - 1]);
    }
  }

  /** What is promised: no offer settles or is announced twice, and no chunk of a settled one waits in a queue. */
  ghost predicate Kept(s: State) {
    && (forall i, j | 0 <= i < j < |s.settled| :: s.settled[i] != s.settled[j])
    && (forall i, j | 0 <= i < j < |s.results| :: s.results[i].offer != s.results[j].offer)
    && (forall o | o in s.settled :: NonePending(s.chunks, o))
  }

  lemma InvKept(queues: nat, s: State)
    requires Inv(queues, s)
    ensures Kept(s)
  {
    forall o | o in s.settled ensures NonePending(s.chunks, o) {
      var i :| 0 <= i < |s.settled| && s.settled[i] == o;
      assert OverAndClear(s.workers, s.chunks, s.settled[i]);
    }
  }

  /** In every run each offer settles at most once and is announced at most once, and once it has settled no chunk of it
      waits in a queue, then or at any later moment. */
  lemma SettlesOnce(queues: nat, settlers: nat, run: seq<Action>, later: seq<Action>)
    requires Careful(queues, settlers, run + later)
    ensures Kept(Run(queues, settlers, run))
    ensures forall o | o in Run(queues, settlers, run).settled :: NonePending(Run(queues, settlers, run + later).chunks, o)
  {
    CarefulBefore(queues, settlers, run + later, |run|);
    assert (run + later)[..|run|] == run;
    RunInv(queues, settlers, run);
    InvKept(queues, Run(queues, settlers, run));
    SettledStays(queues, settlers, run, later);
    RunInv(queues, settlers, run + later);
    InvKept(queues, Run(queues, settlers, run + later));
  }

  /** A reported result stays true: sent and unsent make up what was queued, sent chunks were acknowledged, and of a run
      without a failed transcript the unsent ones are exactly those never acknowledged, at any later moment. */
  lemma ResultsStayTrue(queues: nat, settlers: nat, run: seq<Action>, later: seq<Action>, r: Result)
    requires Careful(queues, settlers, run + later)
    requires r in Run(queues, settlers, run).results
    ensures r.sent + r.unsent == r.queued && r.unsent >= 0
    ensures var chunks := Run(queues, settlers, run + later).chunks;
            && r.sent <= AckedOf(chunks, r.offer) && r.queued <= CountOf(chunks, r.offer)
            && (r.whole ==> r.unsent == CountOf(chunks, r.offer) - AckedOf(chunks, r.offer))
  {
    SettledStays(queues, settlers, run, later);
    RunInv(queues, settlers, run + later);
    var s := Run(queues, settlers, run + later);
    var i :| 0 <= i < |s.results| && s.results[i] == r;
    assert ResultOk(s.chunks, s.settled, s.results[i]);
    AckedWithinCount(s.chunks, r.offer);
  }

  // ---- Settling comes about ----

  /** No demotion by the clock. */
  predicate Patient(run: seq<Action>) {
    forall i | 0 <= i < |run| :: !run[i].DemoteStale?
  }

  /** The state after further steps. */
  function Then(queues: nat, s: State, acts: seq<Action>): State
    decreases |acts|
  {
    if acts == [] then s else Then(queues, Apply(queues, s, acts[0]), acts[1..])
  }

  /** A process that counts and finds nothing pending comes to the end of the queues. */
  lemma {:induction false} CountsToEnd(queues: nat, s: State, i: nat, o: nat, q: nat) returns (acts: seq<Action>)
    requires i < |s.settlers| && q <= queues && s.settlers[i] == Counting(o, q) && NonePending(s.chunks, o)
    ensures Then(queues, s, acts) == SetSettler(s, i, Clear(o)) && Patient(acts)
    decreases queues - q
  {
    var t := Apply(queues, s, CountQueue(i));
    if q == queues {
      acts := [CountQueue(i)];
      assert acts[1..] == [];
      assert Then(queues, s, acts) == Then(queues, t, []);
    } else {
      assert t == SetSettler(s, i, Counting(o, q + 1));
      var rest := CountsToEnd(queues, t, i, o, q + 1);
      acts := [CountQueue(i)] + rest;
      assert acts[1..] == rest && acts[0] == CountQueue(i);
      assert SetSettler(t, i, Clear(o)) == SetSettler(s, i, Clear(o));
    }
  }

  lemma {:induction false} ThenOn(queues: nat, s: State, a: seq<Action>, b: seq<Action>)
    ensures Then(queues, s, a + b) == Then(queues, Then(queues, s, a), b)
    decreases |a|
  {
    if a == [] {
      assert a + b == b;
    } else {
      assert (a + b)[0] == a[0] && (a + b)[1..] == a[1..] + b;
      ThenOn(queues, Apply(queues, s, a[0]), a[1..], b);
    }
  }

  /** Once a run has ended and its chunks have left the queues, one settling process alone settles it and reports it. */
  lemma CanSettle(queues: nat, s: State, i: nat, o: nat) returns (acts: seq<Action>)
    requires i < |s.settlers| && s.settlers[i] == Idle && NonePending(s.chunks, o)
    requires Ended(s.life) && s.life.completedAt && !s.life.deliveredAt && s.life.offer == Some(o) && s.life.queued > 0
    ensures Patient(acts)
    ensures var t := Then(queues, s, acts);
            && t.settled == s.settled + [o] && |t.results| == |s.results| + 1
            && t.results[|s.results|].offer == o && t.results[|s.results|].queued == s.life.queued
            && t.chunks == s.chunks && t.workers == s.workers && t.life == s.life.(deliveredAt := true)
  {
    var s1 := Apply(queues, s, BeginSettling(i));
    assert s1 == SetSettler(s, i, Counting(o, 0));
    var counting := CountsToEnd(queues, s1, i, o, 0);
    var s2 := SetSettler(s, i, Clear(o));
    assert SetSettler(s1, i, Clear(o)) == s2;
    Around(queues, s, BeginSettling(i), counting, MarkSettled(i), Report(i));
    MarksAndReports(queues, s2, i, o);
    acts := [BeginSettling(i)] + counting + [MarkSettled(i)] + [Report(i)];
  }

  lemma MarksAndReports(queues: nat, s: State, i: nat, o: nat)
    requires i < |s.settlers| && s.settlers[i] == Clear(o)
    requires Ended(s.life) && !s.life.deliveredAt && s.life.offer == Some(o)
    ensures var t := Apply(queues, Apply(queues, s, MarkSettled(i)), Report(i));
            && t.settled == s.settled + [o] && |t.results| == |s.results| + 1
            && t.results[|s.results|].offer == o && t.results[|s.results|].queued == s.life.queued
            && t.chunks == s.chunks && t.workers == s.workers && t.life == s.life.(deliveredAt := true)
  {
  }

  lemma Around(queues: nat, s: State, first: Action, middle: seq<Action>, third: Action, fourth: Action)
    ensures Then(queues, s, [first] + middle + [third] + [fourth]) ==
            Apply(queues, Apply(queues, Then(queues, Apply(queues, s, first), middle), third), fourth)
  {
    ThenOn(queues, s, [first], middle);
    OneStep(queues, s, first);
    ThenOn(queues, s, [first] + middle, [third]);
    OneStep(queues, Then(queues, s, [first] + middle), third);
    ThenOn(queues, s, [first] + middle + [third], [fourth]);
    OneStep(queues, Then(queues, s, [first] + middle + [third]), fourth);
  }

  lemma OneStep(queues: nat, s: State, act: Action)
    ensures Then(queues, s, [act]) == Apply(queues, s, act)
  {
    assert [act][1..] == [];
    assert Then(queues, Apply(queues, s, act), []) == Apply(queues, s, act);
  }

  // ---- When the clock may demote a worker ----

  lemma {:induction false} RunThen(queues: nat, settlers: nat, run: seq<Action>, later: seq<Action>)
    ensures Run(queues, settlers, run + later) == Then(queues, Run(queues, settlers, run), later)
    decreases |later|
  {
    if later == [] {
      assert run + later == run;
    } else {
      var n := |later| - 1;
      var act := later[n];
      assert (run + later)[..|run + later| - 1] == run + later[..n];
      RunThen(queues, settlers, run, later[..n]);
      assert later == later[..n] + [act];
      ThenOn(queues, Run(queues, settlers, run), later[..n], [act]);
      OneStep(queues, Then(queues, Run(queues, settlers, run), later[..n]), act);
    }
  }

  /** The chunks of an offer, its first `n` possibly still pending, leave their queues one after another. */
  lemma {:induction false} ClearsOut(queues: nat, s: State, o: nat, n: nat) returns (acts: seq<Action>, chunks: seq<Chunk>)
    requires n <= |s.chunks| && forall i | n <= i < |s.chunks| :: !PendingOf(s.chunks[i], o)
    ensures Then(queues, s, acts) == s.(chunks := chunks) && NonePending(chunks, o) && Patient(acts)
    decreases n
  {
    if n == 0 {
      acts, chunks := [], s.chunks;
    } else if !PendingOf(s.chunks[n - 1], o) {
      acts, chunks := ClearsOut(queues, s, o, n - 1);
    } else {
      var t := Apply(queues, s, LeaveQueue(n - 1));
      var rest;
      rest, chunks := ClearsOut(queues, t, o, n - 1);
      acts := [LeaveQueue(n - 1)] + rest;
      assert acts[0] == LeaveQueue(n - 1) && acts[1..] == rest;
    }
  }

  /** A run demoted while its worker stages and something was queued can settle, and then the worker stages another chunk. */
  lemma StaleCanSettle(queues: nat, s: State, o: nat) returns (acts: seq<Action>)
    requires queues > 0 && s.settlers != [] && o < |s.workers| && s.workers[o].Working?
    requires s.life.status.Running? && s.life.offer == Some(o) && s.life.queued > 0 && !s.life.deliveredAt
    ensures Patient(acts) && !Kept(Then(queues, Apply(queues, s, DemoteStale), acts))
  {
    var t := Apply(queues, s, DemoteStale);
    var t1 := Apply(queues, t, SettlerDies(0));
    var clearing, chunks := ClearsOut(queues, t1, o, |t1.chunks|);
    var t2 := t1.(chunks := chunks);
    var settling := CanSettle(queues, t2, 0, o);
    var t3 := Then(queues, t2, settling);
    LateChunk(queues, t3, o);
    acts := [SettlerDies(0)] + clearing + settling + [StageChunk(o, 0)];
    ThenAll(queues, t, SettlerDies(0), clearing, settling, StageChunk(o, 0));
  }

  lemma ThenAll(queues: nat, s: State, first: Action, a: seq<Action>, b: seq<Action>, last: Action)
    ensures Then(queues, s, [first] + a + b + [last]) == Apply(queues, Then(queues, Then(queues, Apply(queues, s, first), a), b), last)
  {
    OneStep(queues, s, first);
    ThenOn(queues, s, [first], a);
    ThenOn(queues, s, [first] + a, b);
    ThenOn(queues, s, [first] + a + b, [last]);
    OneStep(queues, Then(queues, s, [first] + a + b), last);
  }

  lemma LateChunk(queues: nat, s: State, o: nat)
    requires queues > 0 && o < |s.workers| && s.workers[o].Working? && o in s.settled
    ensures !Kept(Apply(queues, s, StageChunk(o, 0)))
  {
    var t := Apply(queues, s, StageChunk(o, 0));
    assert PendingOf(t.chunks[|s.chunks|], o) && o in t.settled;
  }

  /** The promise in a state and in every later one, while no further run is demoted by the clock. */
  ghost predicate KeptFrom(queues: nat, s: State) {
    forall later :: Patient(later) ==> Kept(Then(queues, s, later))
  }

  /** In a run that was careful so far, a demotion by the clock keeps the promise for good exactly when it may be made: the
      worker is over, or nothing was queued. */
  lemma StaleDemotionExactly(queues: nat, settlers: nat, run: seq<Action>)
    requires Careful(queues, settlers, run) && Run(queues, settlers, run).life.status.Running? && queues > 0 && settlers > 0
    ensures KeptFrom(queues, Apply(queues, Run(queues, settlers, run), DemoteStale)) <==> MayDemote(Run(queues, settlers, run))
  {
    var s := Run(queues, settlers, run);
    RunInv(queues, settlers, run);
    if MayDemote(s) {
      forall later | Patient(later) ensures Kept(Then(queues, Apply(queues, s, DemoteStale), later)) {
        StepInv(queues, s, DemoteStale);
        ThenInv(queues, Apply(queues, s, DemoteStale), later);
        InvKept(queues, Then(queues, Apply(queues, s, DemoteStale), later));
      }
    } else {
      var o := s.life.offer.value;
      assert WorkerCounts(s.workers[o], QueuedFor(s.life, o), CountOf(s.chunks, o));
      SettlersStay(queues, settlers, run);
      var later := StaleCanSettle(queues, s, o);
    }
  }

  lemma {:induction false} ThenInv(queues: nat, s: State, later: seq<Action>)
    requires Inv(queues, s) && Patient(later)
    ensures Inv(queues, Then(queues, s, later))
    decreases |later|
  {
    if later != [] {
      StepInv(queues, s, later[0]);
      ThenInv(queues, Apply(queues, s, later[0]), later[1..]);
    }
  }

  lemma {:induction false} SettlersStay(queues: nat, settlers: nat, run: seq<Action>)
    ensures |Run(queues, settlers, run).settlers| == settlers
    decreases |run|
  {
    if run != [] { SettlersStay(queues, settlers, run[..|run| - 1]); }
  }

  /** A run that can be demoted too early: an offer is claimed and begun, and its worker stages a chunk and goes on. */
  function EarlyRun(): seq<Action> {
    [Claim(false), Begin(0), WorkerStarts(0), StageChunk(0, 0), TranscriptDone(0, false)]
  }

  /** So the source, which demotes a worker that was silent for half an hour, can settle an offer that then has a chunk waiting
      in a queue. */
  lemma StaleDemotionBreaksSettlement(queues: nat, settlers: nat) returns (later: seq<Action>)
    requires queues > 0 && settlers > 0
    ensures !Kept(Run(queues, settlers, EarlyRun() + [DemoteStale] + later)) && Patient(EarlyRun() + later)
  {
    var run := EarlyRun();
    var s := EarlyState(queues, settlers, run);
    later := StaleCanSettle(queues, s, 0);
    RunThen(queues, settlers, run + [DemoteStale], later);
    RunThen(queues, settlers, run, [DemoteStale]);
    OneStep(queues, s, DemoteStale);
  }

  lemma EarlyState(queues: nat, settlers: nat, run: seq<Action>) returns (s: State)
    requires queues > 0 && settlers > 0 && run == EarlyRun()
    ensures s == Run(queues, settlers, run) && s.settlers != []
    ensures s.life == Lifecycle(Running, false, Some(0), true, 1, false, false) && s.workers == [Working(1, 0, true)]
  {
    var s3 := CheckedIn(queues, settlers);
    var s4 := Apply(queues, s3, StageChunk(0, 0));
    assert s4 == s3.(workers := [Working(0, 1, true)], chunks := [Chunk(0, 0, true, false)]);
    s := Apply(queues, s4, TranscriptDone(0, false));
    FiveSteps(queues, settlers, run);
  }

  lemma CheckedIn(queues: nat, settlers: nat) returns (s: State)
    requires settlers > 0
    ensures s == Apply(queues, Apply(queues, Apply(queues, Start(settlers), Claim(false)), Begin(0)), WorkerStarts(0))
    ensures s == State(Lifecycle(Running, false, Some(0), true, 0, false, false), [Working(0, 0, true)], [], seq(settlers, _ => Idle), [], [])
  {
    var s0 := Start(settlers);
    var s1 := Apply(queues, s0, Claim(false));
    assert s1 == s0.(life := Lifecycle(Declined, true, Some(0), false, 0, false, false), workers := [Unbegun]);
    var s2 := Apply(queues, s1, Begin(0));
    assert s2 == s0.(life := Lifecycle(Running, false, Some(0), true, 0, false, false), workers := [Awaiting]);
    s := Apply(queues, s2, WorkerStarts(0));
    assert s == s0.(life := s2.life, workers := [Working(0, 0, true)]);
  }

  lemma FiveSteps(queues: nat, settlers: nat, run: seq<Action>)
    requires |run| == 5
    ensures Run(queues, settlers, run) ==
            Apply(queues, Apply(queues, Apply(queues, Apply(queues, Apply(queues, Start(settlers), run[0]), run[1]), run[2]), run[3]), run[4])
  {
    assert run[..0] == [] && run[..5] == run;
    RunStep(queues, settlers, run, 0);
    RunStep(queues, settlers, run, 1);
    RunStep(queues, settlers, run, 2);
    RunStep(queues, settlers, run, 3);
    RunStep(queues, settlers, run, 4);
  }

  lemma RunStep(queues: nat, settlers: nat, run: seq<Action>, i: nat)
    requires i < |run|
    ensures Run(queues, settlers, run[..i + 1]) == Apply(queues, Run(queues, settlers, run[..i]), run[i])
  {
    assert run[..i + 1][..i] == run[..i];
  }
}
