/** An import that is left alone, from its start to its end (backfill_worker.js with backfill-state.js): what the record then says. */
module BackfillImport {
  import opened Options
  import opened Backfill
  import opened BackfillRuns

  /** One transcript: how many chunks it is staged in, and whether that failed part way. */
  datatype Transcript = Transcript(chunks: nat, failed: bool)

  function StagedOf(ts: seq<Transcript>): nat {
    if ts == [] then 0 else StagedOf(ts[..|ts| - 1]) + ts[|ts| - 1].chunks
  }

  /** The chunks of the transcripts that did not fail. */
  function WholeOf(ts: seq<Transcript>): nat {
    if ts == [] then 0 else WholeOf(ts[..|ts| - 1]) + if ts[|ts| - 1].failed then 0 else ts[|ts| - 1].chunks
  }

  predicate SomeFailed(ts: seq<Transcript>) {
    exists i | 0 <= i < |ts| :: ts[i].failed
  }

  /** Chunks of an offer, none of them acknowledged. */
  predicate Fresh(chunks: seq<Chunk>, from: nat, o: nat, queue: nat) {
    from <= |chunks| && forall i | from <= i < |chunks| :: chunks[i] == Chunk(o, queue, true, false)
  }

  /** The worker is in this state, the record counts this many, and `staged` chunks of it were added; nothing else changed. */
  ghost predicate WorkedTo(s: State, t: State, o: nat, queue: nat, w: Worker, queued: nat, staged: nat) {
    && o < |s.workers| && t.workers == s.workers[o := w]
    && t.life == s.life.(queued := queued)
    && |t.chunks| == |s.chunks| + staged && t.chunks[..|s.chunks|] == s.chunks && Fresh(t.chunks, |s.chunks|, o, queue)
    && t.settlers == s.settlers && t.settled == s.settled && t.results == s.results
  }

  lemma StagesOne(queues: nat, s: State, t: State, o: nat, queue: nat, counted: nat, current: nat, ok: bool, queued: nat, staged: nat)
    requires queue < queues && WorkedTo(s, t, o, queue, Working(counted, current, ok), queued, staged) && |s.chunks| <= |t.chunks|
    ensures WorkedTo(s, Apply(queues, t, StageChunk(o, queue)), o, queue, Working(counted, current + 1, ok), queued, staged + 1)
  {
    var u := Apply(queues, t, StageChunk(o, queue));
    assert u.chunks == t.chunks + [Chunk(o, queue, true, false)];
    assert u.workers == s.workers[o := Working(counted, current + 1, ok)];
  }

  lemma {:induction false} StagesMany(queues: nat, s: State, t: State, o: nat, queue: nat, counted: nat, current: nat, ok: bool, queued: nat,
                                      staged: nat, m: nat)
    returns (acts: seq<Action>)
    requires queue < queues && WorkedTo(s, t, o, queue, Working(counted, current, ok), queued, staged) && |s.chunks| <= |t.chunks|
    ensures WorkedTo(s, Then(queues, t, acts), o, queue, Working(counted, current + m, ok), queued, staged + m)
    decreases m
  {
    if m == 0 {
      acts := [];
    } else {
      var u := Apply(queues, t, StageChunk(o, queue));
      StagesOne(queues, s, t, o, queue, counted, current, ok, queued, staged);
      var rest := StagesMany(queues, s, u, o, queue, counted, current + 1, ok, queued, staged + 1, m - 1);
      acts := Before(queues, t, StageChunk(o, queue), u, rest);
    }
  }

  lemma Before(queues: nat, s: State, act: Action, next: State, rest: seq<Action>) returns (acts: seq<Action>)
    requires next == Apply(queues, s, act)
    ensures Then(queues, s, acts) == Then(queues, next, rest)
  {
    OneStep(queues, s, act);
    ThenOn(queues, s, [act], rest);
    acts := [act] + rest;
  }

  lemma After(queues: nat, s: State, a: seq<Action>, act: Action) returns (acts: seq<Action>)
    ensures Then(queues, s, acts) == Apply(queues, Then(queues, s, a), act)
  {
    ThenOn(queues, s, a, [act]);
    OneStep(queues, Then(queues, s, a), act);
    acts := a + [act];
  }

  lemma TranscriptCounts(queues: nat, s: State, t: State, o: nat, queue: nat, counted: nat, current: nat, ok: bool, queued: nat, staged: nat, failed: bool)
    requires s.life.status.Running? && s.life.offer == Some(o) && |s.chunks| <= |t.chunks|
    requires WorkedTo(s, t, o, queue, Working(counted, current, ok), queued, staged)
    ensures var sum := if failed then counted else counted + current;
            WorkedTo(s, Apply(queues, t, TranscriptDone(o, failed)), o, queue, Working(sum, 0, ok && !failed), sum, staged)
  {
  }

  /** The worker has gone through some transcripts. */
  lemma {:induction false} Imports(queues: nat, s: State, t: State, o: nat, queue: nat, ts: seq<Transcript>) returns (acts: seq<Action>)
    requires queue < queues && s.life.status.Running? && s.life.offer == Some(o) && s.life.queued == 0
    requires WorkedTo(s, t, o, queue, Working(0, 0, true), 0, 0)
    ensures WorkedTo(s, Then(queues, t, acts), o, queue, Working(WholeOf(ts), 0, !SomeFailed(ts)), WholeOf(ts), StagedOf(ts))
    decreases |ts|
  {
    if ts == [] {
      acts := [];
    } else {
      var n := |ts| - 1;
      acts := Imports(queues, s, t, o, queue, ts[..n]);
      var u := Then(queues, t, acts);
      var more := NextTranscript(queues, s, u, o, queue, WholeOf(ts[..n]), !SomeFailed(ts[..n]), StagedOf(ts[..n]), ts[n]);
      ThenOn(queues, t, acts, more);
      acts := acts + more;
      OneMoreFailed(ts);
    }
  }

  lemma NextTranscript(queues: nat, s: State, u: State, o: nat, queue: nat, counted: nat, ok: bool, staged: nat, tr: Transcript)
    returns (acts: seq<Action>)
    requires queue < queues && s.life.status.Running? && s.life.offer == Some(o) && |s.chunks| <= |u.chunks|
    requires WorkedTo(s, u, o, queue, Working(counted, 0, ok), counted, staged)
    ensures var sum := if tr.failed then counted else counted + tr.chunks;
            WorkedTo(s, Then(queues, u, acts), o, queue, Working(sum, 0, ok && !tr.failed), sum, staged + tr.chunks)
  {
    acts := StagesMany(queues, s, u, o, queue, counted, 0, ok, counted, staged, tr.chunks);
    TranscriptCounts(queues, s, Then(queues, u, acts), o, queue, counted, tr.chunks, ok, counted, staged + tr.chunks, tr.failed);
    acts := After(queues, u, acts, TranscriptDone(o, tr.failed));
  }

  lemma OneMoreFailed(ts: seq<Transcript>)
    requires ts != []
    ensures SomeFailed(ts) <==> SomeFailed(ts[..|ts| - 1]) || ts[|ts| - 1].failed
  {
    var front := ts[..|ts| - 1];
    if i :| 0 <= i < |ts| && ts[i].failed { assert i < |front| ==> front[i].failed; }
    if i :| 0 <= i < |front| && front[i].failed { assert ts[i].failed; }
  }

  /** An accepted import that nothing disturbs: the worker is over, all chunks wait in the queue, the record has completed, or failed if
      a transcript did, and counts the chunks of the transcripts that did not. */
  lemma ImportCounts(queues: nat, s: State, o: nat, queue: nat, ts: seq<Transcript>) returns (acts: seq<Action>)
    requires queue < queues && o < |s.workers| && s.workers[o].Awaiting?
    requires s.life.status.Running? && s.life.offer == Some(o) && s.life.queued == 0
    ensures var t := Then(queues, s, acts);
            && t.workers == s.workers[o := Over]
            && t.life == s.life.(status := if SomeFailed(ts) then Failed else Completed, completedAt := true, queued := WholeOf(ts))
            && |t.chunks| == |s.chunks| + StagedOf(ts) && t.chunks[..|s.chunks|] == s.chunks && Fresh(t.chunks, |s.chunks|, o, queue)
  {
    var started := Apply(queues, s, WorkerStarts(o));
    assert s.life == s.life.(queued := 0);
    assert WorkedTo(s, started, o, queue, Working(0, 0, true), 0, 0);
    var working := Imports(queues, s, started, o, queue, ts);
    var acts1 := After(queues, started, working, WorkerFinishes(o));
    FinishCounts(queues, s, Then(queues, started, working), o, queue, ts);
    acts := Before(queues, s, WorkerStarts(o), started, acts1);
  }

  lemma FinishCounts(queues: nat, s: State, t: State, o: nat, queue: nat, ts: seq<Transcript>)
    requires s.life.status.Running? && s.life.offer == Some(o)
    requires WorkedTo(s, t, o, queue, Working(WholeOf(ts), 0, !SomeFailed(ts)), WholeOf(ts), StagedOf(ts))
    ensures var u := Apply(queues, t, WorkerFinishes(o));
            && u.workers == s.workers[o := Over] && u.chunks == t.chunks
            && u.life == s.life.(status := if SomeFailed(ts) then Failed else Completed, completedAt := true, queued := WholeOf(ts))
  {
  }

  /** A run whose worker is over without an end is ended as failed, with what it had counted; a worker that still lives is not
      touched by that. */
  lemma DeadRunEnds(queues: nat, s: State, o: nat)
    requires s.life.status.Running? && s.life.offer == Some(o) && o < |s.workers|
    ensures Apply(queues, s, Demote) ==
            if s.workers[o].Over? then s.(life := s.life.(status := Failed, completedAt := true)) else s
  {
  }

  /** A worker that throws ends its run as failed, with what it had counted; one that dies leaves the record running. */
  lemma WorkerEnds(queues: nat, s: State, o: nat)
    requires s.life.status.Running? && s.life.offer == Some(o) && o < |s.workers| && s.workers[o].Working?
    ensures var t := Apply(queues, s, WorkerThrows(o));
            t.workers == s.workers[o := Over] && t.life == s.life.(status := Failed, completedAt := true) && t.chunks == s.chunks
    ensures Apply(queues, s, WorkerDies(o)) == s.(workers := s.workers[o := Over])
  {
  }

  /** A worker of an offer that no longer runs stops before it stages anything. */
  lemma LateWorkerStops(queues: nat, s: State, o: nat)
    requires o < |s.workers| && s.workers[o].Awaiting? && !(s.life.status.Running? && s.life.offer == Some(o))
    ensures Apply(queues, s, WorkerStarts(o)) == s.(workers := s.workers[o := Over])
  {
  }
}
