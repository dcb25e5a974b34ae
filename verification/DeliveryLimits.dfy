/** When end-to-end delivery holds, exactly: a step that does not keep the count breaks it in some later run, and two runs
    in which it breaks. */
module DeliveryLimits {
  import opened Options
  import opened TurnRouting
  import opened ChunkSplit
  import opened ChunkPlan
  import opened Staging
  import opened Delivery
  import opened Seqs

  // ---------------------------------------------------------------------------------------------
  // Staging one record
  // ---------------------------------------------------------------------------------------------

  ghost predicate AlwaysKeep(keep: nat -> bool) {
    forall k :: keep(k)
  }

  lemma KeptOne(objs: seq<Record>, n: nat, keep: nat -> bool, x: Record)
    requires |objs| == n + 1 && objs[n] == x && x.uuid != "" && AlwaysKeep(keep)
    ensures Kept(objs, n, keep) == [x] && objs[n..] == [x] && LastContentUuid(objs[n..]) == x.uuid
  {
    assert Kept(objs[..n], n, keep) == [];
  }

  lemma CutOfOne(cfg: Config, x: Record)
    requires Accepted(cfg.sizes, cfg.envelope, [x])
    ensures Cut(cfg, [x]) == Split([[x]], 0) && Flatten(Cut(cfg, [x]).groups) == [x]
  {
    GreedyOfOne(cfg, x);
    GreedyNonEmpty(cfg, [x]);
    assert [[x]][..0] == [];
    assert SplitAll(cfg, []) == Split([], 0);
    assert SplitByEnvelope(cfg.sizes, cfg.envelope, [x]) == Split([[x]], 0);
    assert Flatten([[x]]) == [x] + Flatten([]);
  }

  lemma GreedyOfOne(cfg: Config, x: Record)
    ensures Greedy(cfg.sizes, cfg.budget, [], [x]) == [[x]]
  {
    var none: seq<Record> := [];
    assert [x][1..] == none && none + [x] == [x];
    assert Greedy(cfg.sizes, cfg.budget, [x], none) == [[x]];
    assert Greedy(cfg.sizes, cfg.budget, [], [x]) == Greedy(cfg.sizes, cfg.budget, none + [x], [x][1..]);
  }

  lemma PlannedOne(cursor: Option<Cursor>, seqStart: nat, reset: bool, x: Record)
    requires x.uuid != ""
    ensures var baseline := NewBaseline(cursor, seqStart, reset);
            Planned(cursor, seqStart, reset, Split([[x]], 0), x.uuid) ==
            Plan([Chunk([x], seqStart + 1, reset, baseline)], Some(Cursor(x.uuid, seqStart + 1, baseline)), 0)
  {
    var baseline := NewBaseline(cursor, seqStart, reset);
    assert Numbered([[x]], seqStart, reset, baseline) == [Chunk([x], seqStart + 1, reset, baseline)];
  }

  /** A transcript whose delta is its last record, which is kept and fits. */
  ghost predicate OneLeft(cfg: Config, objs: seq<Record>, cursor: Option<Cursor>, keep: nat -> bool, x: Record) {
    && objs != [] && objs[|objs| - 1] == x && x.uuid != "" && AlwaysKeep(keep) && Accepted(cfg.sizes, cfg.envelope, [x])
    && ComputeDelta(objs, cursor).start == |objs| - 1
  }

  lemma PlanOfOne(cfg: Config, objs: seq<Record>, cursor: Option<Cursor>, seqStart: nat, keep: nat -> bool, x: Record)
    requires OneLeft(cfg, objs, cursor, keep, x)
    ensures var reset := ComputeDelta(objs, cursor).reset;
            var baseline := NewBaseline(cursor, seqStart, reset);
            PlanOf(cfg, objs, cursor, seqStart, keep) ==
            Plan([Chunk([x], seqStart + 1, reset, baseline)], Some(Cursor(x.uuid, seqStart + 1, baseline)), 0)
  {
    KeptOne(objs, |objs| - 1, keep, x);
    CutOfOne(cfg, x);
    PlannedOne(cursor, seqStart, ComputeDelta(objs, cursor).reset, x);
  }

  lemma TakenOne(cfg: Config, f: Files, objs: seq<Record>, cursor: Option<Cursor>, keep: nat -> bool, x: Record)
    requires OneLeft(cfg, objs, cursor, keep, x) && LiveDeltaStart(f, objs, ALL) == From(cursor)
    ensures Taken(cfg, f, objs, keep, true, ALL) == [x]
  {
    KeptOne(objs, |objs| - 1, keep, x);
    CutIs(cfg, Kept(objs, |objs| - 1, keep), x);
    TakenFrom(cfg, f, objs, cursor, keep, Kept(objs, |objs| - 1, keep));
  }

  lemma CutIs(cfg: Config, kept: seq<Record>, x: Record)
    requires kept == [x] && Accepted(cfg.sizes, cfg.envelope, [x])
    ensures Flatten(Cut(cfg, kept).groups) == kept
  {
    CutOfOne(cfg, x);
  }

  lemma TakenFrom(cfg: Config, f: Files, objs: seq<Record>, cursor: Option<Cursor>, keep: nat -> bool, kept: seq<Record>)
    requires LiveDeltaStart(f, objs, ALL) == From(cursor) && kept == Kept(objs, ComputeDelta(objs, cursor).start, keep)
    ensures Taken(cfg, f, objs, keep, true, ALL) == Flatten(Cut(cfg, kept).groups)
  {
  }

  /** The files after one record was sealed. */
  function SealedOne(f: Files, cursor: Option<Cursor>, reset: bool, x: Record, now: nat): Files {
    var baseline := NewBaseline(cursor, Seqno(cursor), reset);
    f.(stored := Some(Stored(Cursor(x.uuid, Seqno(cursor) + 1, baseline), now, false)),
       queue := f.queue + [Chunk([x], Seqno(cursor) + 1, reset, baseline)])
  }

  /** Staging one new record from the cursor. */
  lemma StageOne(cfg: Config, r: Run, cursor: Option<Cursor>, keep: nat -> bool, x: Record, reset: bool)
    requires cursor == CursorOf(r.state.files, ALL) && LiveDeltaStart(r.state.files, r.state.objs, ALL) == From(cursor)
    requires OneLeft(cfg, r.state.objs, cursor, keep, x) && reset == ComputeDelta(r.state.objs, cursor).reset
    ensures Follow(cfg, r, Stage(keep, true, ALL)) ==
            Run(r.state.(files := SealedOne(r.state.files, cursor, reset, x, r.state.now)), SpecStage(r.spec, reset, [x]))
  {
    var f, objs := r.state.files, r.state.objs;
    assert !NeverRecorded(f, objs, true, ALL) && StartOf(f, objs, true, ALL) == From(cursor);
    StagedOne(cfg, f, objs, cursor, keep, x, r.state.now);
    TakenOne(cfg, f, objs, cursor, keep, x);
  }

  lemma StagedOne(cfg: Config, f: Files, objs: seq<Record>, cursor: Option<Cursor>, keep: nat -> bool, x: Record, now: nat)
    requires cursor == CursorOf(f, ALL) && StartOf(f, objs, true, ALL) == From(cursor)
    requires OneLeft(cfg, objs, cursor, keep, x)
    ensures Staged(cfg, f, objs, now, keep, true, ALL) == SealedOne(f, cursor, ComputeDelta(objs, cursor).reset, x, now)
  {
    var plan := PlanOf(cfg, objs, cursor, Seqno(cursor), keep);
    PlanOfOne(cfg, objs, cursor, Seqno(cursor), keep, x);
    SealedPlan(f, cursor, ComputeDelta(objs, cursor).reset, x, now, plan);
  }

  lemma SealedPlan(f: Files, cursor: Option<Cursor>, reset: bool, x: Record, now: nat, plan: Plan)
    requires var baseline := NewBaseline(cursor, Seqno(cursor), reset);
             plan == Plan([Chunk([x], Seqno(cursor) + 1, reset, baseline)], Some(Cursor(x.uuid, Seqno(cursor) + 1, baseline)), 0)
    ensures Sealed(f, plan, now) == SealedOne(f, cursor, reset, x, now)
  {
  }

  // ---- Runs step by step ----

  /** A run of steps that keep the count, from `r` to `t`. */
  ghost predicate Leads(cfg: Config, r: Run, acts: seq<Action>, t: Run) {
    FollowAll(cfg, r, acts) == t && AllKeepCount(cfg, r, acts)
  }

  lemma LeadsFrom(cfg: Config, r: Run, act: Action, next: Run, acts: seq<Action>, t: Run)
    requires next == Follow(cfg, r, act) && KeepsCount(r.state, act) && Leads(cfg, next, acts, t)
    ensures Leads(cfg, r, [act] + acts, t)
  {
    assert ([act] + acts)[1..] == acts && ([act] + acts)[0] == act;
  }

  // ---------------------------------------------------------------------------------------------
  // A step that does not keep the count breaks the promise
  // ---------------------------------------------------------------------------------------------

  /** No record and no boundary carries the uuid of `x`, and the collector does not hold `x`. */
  ghost predicate Unseen(r: Run, x: Record) {
    && x.uuid != ""
    && (forall o | o in r.state.objs :: o.uuid != x.uuid)
    && (r.state.files.mark.Some? ==> r.state.files.mark.value.lastUuid != x.uuid)
    && (forall e | e in r.state.files.pending :: e.lastUuid != x.uuid)
    && x !in Collect(EMPTY, r.state.files.queue).lines
  }

  /** A time after everything written so far. */
  function AfterPending(entries: seq<Entry>): nat {
    if entries == [] then 0
    else
      var before, at := AfterPending(entries[..|entries| - 1]), entries[|entries| - 1].at;
      if at >= before then at + 1 else before
  }

  function After(f: Files): nat {
    AfterPending(f.pending) + (if f.stored.Some? then f.stored.value.updatedAt + 1 else 0)
    + (if f.mark.Some? then f.mark.value.updatedAt + 1 else 0)
  }

  lemma {:induction false} PendingBefore(entries: seq<Entry>)
    ensures forall u | u in Unpositioned(entries) :: u < AfterPending(entries)
    decreases |entries|
  {
    if entries != [] { PendingBefore(entries[..|entries| - 1]); }
  }

  lemma {:induction false} PlacesOfPending(entries: seq<Entry>)
    ensures forall b | b in Positioned(entries) :: exists i :: 0 <= i < |entries| && entries[i].lastUuid == b.lastUuid
    decreases |entries|
  {
    if entries != [] {
      var n := |entries| - 1;
      PlacesOfPending(entries[..n]);
      forall b | b in Positioned(entries) ensures exists i :: 0 <= i < |entries| && entries[i].lastUuid == b.lastUuid {
        if b in Positioned(entries[..n]) {
          var i :| 0 <= i < n && entries[..n][i].lastUuid == b.lastUuid;
          assert entries[i].lastUuid == b.lastUuid;
        } else {
          assert entries[n].lastUuid == b.lastUuid;
        }
      }
    }
  }

  /** The state before that last staging. */
  function Probed(r: Run, h: nat, x0: Record, x: Record): Run {
    var s, f := r.state, r.state.files;
    var now := s.now + After(f);
    var cursor := Cursor(x0.uuid, StoredCursor(f).seqno, StoredCursor(f).baseline);
    Run(State(s.objs + [x0] + [x], now, s.found[h := ReadOf(f, true)], s.looks[h := Look(now, s.objs + [x0])],
              f.(stored := Some(Stored(cursor, now, true)))), r.spec)
  }

  lemma LeadsQuietly(cfg: Config, r: Run, act: Action, next: Run, acts: seq<Action>, t: Run)
    requires act.Append? || act.Tick? || act.ReadCursor? || act.TakeLook?
    requires next == Run(Apply(cfg, r.state, act), r.spec) && Leads(cfg, next, acts, t)
    ensures Leads(cfg, r, [act] + acts, t)
  {
    LeadsFrom(cfg, r, act, next, acts, t);
  }

  /** A hook that reads, looks and writes undisturbed, after everything else, puts the cursor at the tail; then one record is added. */
  lemma ProbeSteps(cfg: Config, r: Run, h: nat, x0: Record, x: Record) returns (acts: seq<Action>)
    requires x0.uuid != ""
    ensures Leads(cfg, r, acts, Probed(r, h, x0, x))
  {
    var t, ms := Probed(r, h, x0, x), After(r.state.files);
    var s := r.state;
    var r1 := Run(s.(objs := s.objs + [x0]), r.spec);
    var r2 := Run(s.(objs := s.objs + [x0], now := s.now + ms), r.spec);
    var r3 := Run(r2.state.(found := s.found[h := ReadOf(s.files, true)], looks := s.looks - {h}), r.spec);
    var r4 := Run(r3.state.(looks := s.looks[h := Look(s.now + ms, s.objs + [x0])]), r.spec);
    acts := ProbeWrites(cfg, r, r4, h, x0, x);
    assert (s.looks - {h})[h := Look(s.now + ms, s.objs + [x0])] == s.looks[h := Look(s.now + ms, s.objs + [x0])];
    LeadsQuietly(cfg, r3, TakeLook(h), r4, acts, t);
    acts := [TakeLook(h)] + acts;
    LeadsQuietly(cfg, r2, ReadCursor(h, true), r3, acts, t);
    acts := [ReadCursor(h, true)] + acts;
    LeadsQuietly(cfg, r1, Tick(ms), r2, acts, t);
    acts := [Tick(ms)] + acts;
    LeadsQuietly(cfg, r, Append([x0]), r1, acts, t);
    acts := [Append([x0])] + acts;
  }

  lemma ProbeWrites(cfg: Config, r: Run, r4: Run, h: nat, x0: Record, x: Record) returns (acts: seq<Action>)
    requires x0.uuid != ""
    requires var s, now := r.state, r.state.now + After(r.state.files);
             r4 == Run(State(s.objs + [x0], now, s.found[h := ReadOf(s.files, true)], s.looks[h := Look(now, s.objs + [x0])], s.files), r.spec)
    ensures Leads(cfg, r4, acts, Probed(r, h, x0, x))
  {
    var t := Probed(r, h, x0, x);
    var r5 := HookWrites(cfg, r, r4, h, x0);
    assert FollowAll(cfg, t, []) == t;
    LeadsQuietly(cfg, r5, Append([x]), t, [], t);
    acts := [Append([x])] + [];
    LeadsFrom(cfg, r4, Advance(h, false, true), r5, acts, t);
    acts := [Advance(h, false, true)] + acts;
  }

  lemma {:induction false} LeadsOn(cfg: Config, r: Run, acts: seq<Action>, t: Run, act: Action)
    requires Leads(cfg, r, acts, t) && KeepsCount(t.state, act)
    ensures Leads(cfg, r, acts + [act], Follow(cfg, t, act))
    decreases |acts|
  {
    if acts == [] {
      assert [] + [act] == [act] + [];
      assert FollowAll(cfg, Follow(cfg, t, act), []) == Follow(cfg, t, act);
      LeadsFrom(cfg, r, act, Follow(cfg, t, act), [], Follow(cfg, t, act));
    } else {
      LeadsOn(cfg, Follow(cfg, r, acts[0]), acts[1..], t, act);
      assert acts + [act] == [acts[0]] + (acts[1..] + [act]);
      LeadsFrom(cfg, r, acts[0], Follow(cfg, r, acts[0]), acts[1..] + [act], Follow(cfg, t, act));
    }
  }

  lemma HookWrites(cfg: Config, r: Run, r4: Run, h: nat, x0: Record) returns (r5: Run)
    requires x0.uuid != ""
    requires var s, now := r.state, r.state.now + After(r.state.files);
             && r4.state.objs == s.objs + [x0] && r4.state.now == now && r4.state.files == s.files && r4.spec == r.spec
             && h in r4.state.found && r4.state.found[h] == ReadOf(s.files, true)
             && h in r4.state.looks && r4.state.looks[h] == Look(now, s.objs + [x0])
    ensures r5 == Follow(cfg, r4, Advance(h, false, true)) && KeepsCount(r4.state, Advance(h, false, true))
    ensures var f := r.state.files;
            r5 == Run(r4.state.(files := f.(stored := Some(Stored(Cursor(x0.uuid, StoredCursor(f).seqno, StoredCursor(f).baseline), r4.state.now, true)))), r.spec)
  {
    r5 := Follow(cfg, r4, Advance(h, false, true));
    DropLast(r.state.objs, [x0]);
    assert LastContentUuid(r.state.objs + [x0]) == x0.uuid;
  }

  /** There the delta is exactly the added record. */
  lemma ProbedDelta(r: Run, h: nat, x0: Record, x: Record)
    requires Unseen(r, x0) && Unseen(r, x) && x0.uuid != x.uuid
    ensures var p := Probed(r, h, x0, x);
            var cursor := CursorOf(p.state.files, ALL);
            && LiveDeltaStart(p.state.files, p.state.objs, ALL) == From(cursor)
            && ComputeDelta(p.state.objs, cursor) == Delta(|p.state.objs| - 1, false)
  {
    var p := Probed(r, h, x0, x);
    var f, objs := p.state.files, p.state.objs;
    var n := |r.state.objs|;
    PlaceOfProbe(r, x0, x, objs);
    var known := Known(f, ALL);
    ProbedNeverHolds(r, h, x0, x);
    ProbedFurthest(r, f, objs, x0, x, known);
  }

  lemma PlaceOfProbe(r: Run, x0: Record, x: Record, objs: seq<Record>)
    requires Unseen(r, x0) && Unseen(r, x) && x0.uuid != x.uuid && objs == r.state.objs + [x0] + [x]
    ensures PlaceOf(objs, x0.uuid) == |r.state.objs|
    ensures forall uuid | uuid != x.uuid :: PlaceOf(objs, uuid) <= |r.state.objs|
  {
    var n := |r.state.objs|;
    assert objs[n] == x0 && objs[n + 1] == x;
    assert forall j | 0 <= j < n :: objs[j] == r.state.objs[j] && r.state.objs[j] in r.state.objs;
  }

  lemma ProbedNeverHolds(r: Run, h: nat, x0: Record, x: Record)
    ensures !Holds(Probed(r, h, x0, x).state.files, ALL)
  {
    var f := Probed(r, h, x0, x).state.files;
    var known, unplaced := Known(f, ALL), Unplaced(f, ALL);
    PendingBefore(f.pending);
    assert unplaced == Unpositioned(f.pending);
    assert known[0].at == r.state.now + After(r.state.files);
    LatestAtLeast(known, 0);
    forall i | 0 <= i < |unplaced| ensures unplaced[i] < Latest(known) { assert unplaced[i] in Unpositioned(f.pending); }
  }

  lemma ProbedFurthest(r: Run, f: Files, objs: seq<Record>, x0: Record, x: Record, known: seq<Boundary>)
    requires Unseen(r, x) && f.stored.Some? && f.stored.value.cursor.lastUuid == x0.uuid
    requires f.mark == r.state.files.mark && f.pending == r.state.files.pending && known == Known(f, ALL)
    requires x0.uuid != x.uuid && PlaceOf(objs, x0.uuid) == |r.state.objs| < |objs|
    requires forall uuid | uuid != x.uuid :: PlaceOf(objs, uuid) <= |r.state.objs|
    ensures Furthest(objs, known) == |r.state.objs|
  {
    PlacesOfPending(f.pending);
    forall b | b in known ensures b.lastUuid != x.uuid {
      if b in Positioned(f.pending) {
        var i :| 0 <= i < |f.pending| && f.pending[i].lastUuid == b.lastUuid;
        assert f.pending[i] in f.pending;
      }
    }
    assert known[0].lastUuid == x0.uuid;
    FurthestIs(objs, known, 0, |r.state.objs|);
  }

  lemma {:induction false} FurthestIs(objs: seq<Record>, known: seq<Boundary>, i: nat, place: nat)
    requires i < |known| && PlaceOf(objs, known[i].lastUuid) == place
    requires forall j | 0 <= j < |known| :: PlaceOf(objs, known[j].lastUuid) <= place
    ensures Furthest(objs, known) == place
    decreases |known|
  {
    var n := |known| - 1;
    FurthestAtMost(objs, known[..n], place);
    if i < n { FurthestIs(objs, known[..n], i, place); }
  }

  lemma {:induction false} FurthestAtMost(objs: seq<Record>, known: seq<Boundary>, place: nat)
    requires forall j | 0 <= j < |known| :: PlaceOf(objs, known[j].lastUuid) <= place
    ensures Furthest(objs, known) <= place
    decreases |known|
  {
    if known != [] { FurthestAtMost(objs, known[..|known| - 1], place); }
  }

  /** After the probe the promise holds exactly when number and baseline agreed with the queue before it. */
  lemma ProbeTells(r: Run, f: Files, x: Record, t: Run)
    requires Promise(r) && x !in Collect(EMPTY, r.state.files.queue).lines
    requires f.queue == r.state.files.queue && f.stored.Some? && t.spec == SpecStage(r.spec, false, [x])
    requires StoredCursor(f).seqno == StoredCursor(r.state.files).seqno && StoredCursor(f).baseline == StoredCursor(r.state.files).baseline
    requires t.state.files.queue == f.queue + [Chunk([x], StoredCursor(f).seqno + 1, false, StoredCursor(f).baseline)]
    requires Promise(t)
    ensures RunInv(r)
  {
    var queue, c := f.queue, Chunk([x], StoredCursor(f).seqno + 1, false, StoredCursor(f).baseline);
    var held := Collect(EMPTY, queue);
    HeldBounded(queue);
    assert t.state.files.queue[|queue|] == c;
    assert t.state.files.queue[..|queue|] == queue;
    assert Collect(EMPTY, t.state.files.queue) == Receive(held, c);
    AppendedTells(held, r.spec, c.baseline, x, queue == []);
  }

  lemma AppendedTells(held: Object, spec: Spec, baseline: nat, x: Record, first: bool)
    requires held.lines == spec.lines && x !in held.lines && (held.lines == [] ==> first)
    requires (if baseline > held.baseline then [x] else if baseline == held.baseline then held.lines + [x] else held.lines)
             == SpecStage(spec, false, [x]).lines
    ensures first || if spec.rewritten then baseline > held.baseline else baseline == held.baseline
  {
    if !first {
      assert |held.lines + [x]| == |held.lines| + 1;
      assert x in [x];
    }
  }

  /** The promise, now and after every further run whose steps keep the count. */
  ghost predicate Promised(cfg: Config, r: Run) {
    forall acts :: AllKeepCount(cfg, r, acts) ==> Promise(FollowAll(cfg, r, acts))
  }

  /** It holds from now on exactly when number and baseline agree with the queue. */
  lemma PromisedExactly(cfg: Config, r: Run, x0: Record, x: Record, keep: nat -> bool)
    requires GzipBounded(cfg.sizes) && AlwaysKeep(keep) && Accepted(cfg.sizes, cfg.envelope, [x])
    requires Unseen(r, x0) && Unseen(r, x) && x0.uuid != x.uuid
    ensures Promised(cfg, r) <==> RunInv(r)
  {
    if RunInv(r) {
      forall acts | AllKeepCount(cfg, r, acts) ensures Promise(FollowAll(cfg, r, acts)) { RunKeepsInv(cfg, r, acts); }
    }
    if Promised(cfg, r) {
      assert AllKeepCount(cfg, r, []) && FollowAll(cfg, r, []) == r;
      PromisedThenInv(cfg, r, x0, x, keep);
    }
  }

  lemma PromisedThenInv(cfg: Config, r: Run, x0: Record, x: Record, keep: nat -> bool)
    requires AlwaysKeep(keep) && Accepted(cfg.sizes, cfg.envelope, [x])
    requires Unseen(r, x0) && Unseen(r, x) && x0.uuid != x.uuid
    requires Promised(cfg, r) && Promise(r)
    ensures RunInv(r)
  {
    var h, p := 0, Probed(r, 0, x0, x);
    var stage := Stage(keep, true, ALL);
    var acts := ProbeSteps(cfg, r, h, x0, x);
    LeadsOn(cfg, r, acts, p, stage);
    var t := Follow(cfg, p, stage);
    PromisedAt(cfg, r, acts + [stage], t);
    ProbedReady(r, h, x0, x);
    ProbedStaged(cfg, p, x, keep);
    ProbeTells(r, p.state.files, x, t);
  }

  lemma PromisedAt(cfg: Config, r: Run, acts: seq<Action>, t: Run)
    requires Promised(cfg, r) && Leads(cfg, r, acts, t)
    ensures Promise(t)
  {
  }

  /** The delta of this transcript is one new record, and the cursor says how its chunk is numbered. */
  ghost predicate ReadyToTell(p: Run, x: Record) {
    var cursor := CursorOf(p.state.files, ALL);
    && x.uuid != "" && cursor.Some? && p.state.objs != [] && p.state.objs[|p.state.objs| - 1] == x
    && LiveDeltaStart(p.state.files, p.state.objs, ALL) == From(cursor)
    && ComputeDelta(p.state.objs, cursor) == Delta(|p.state.objs| - 1, false)
  }

  lemma ProbedReady(r: Run, h: nat, x0: Record, x: Record)
    requires Unseen(r, x0) && Unseen(r, x) && x0.uuid != x.uuid
    ensures ReadyToTell(Probed(r, h, x0, x), x)
  {
    ProbedDelta(r, h, x0, x);
  }

  lemma ProbedStaged(cfg: Config, p: Run, x: Record, keep: nat -> bool)
    requires ReadyToTell(p, x) && AlwaysKeep(keep) && Accepted(cfg.sizes, cfg.envelope, [x])
    ensures var t, c := Follow(cfg, p, Stage(keep, true, ALL)), StoredCursor(p.state.files);
            && t.state.files.queue == p.state.files.queue + [Chunk([x], c.seqno + 1, false, c.baseline)]
            && t.spec == SpecStage(p.spec, false, [x])
  {
    var cursor := CursorOf(p.state.files, ALL);
    StageOne(cfg, p, cursor, keep, x, false);
    CountsOn(p, cursor, x, Follow(cfg, p, Stage(keep, true, ALL)));
  }

  /** Without a reset the chunk goes on with number and baseline of the cursor. */
  lemma CountsOn(p: Run, cursor: Option<Cursor>, x: Record, t: Run)
    requires cursor == CursorOf(p.state.files, ALL) && cursor.Some?
    requires t == Run(p.state.(files := SealedOne(p.state.files, cursor, false, x, p.state.now)), SpecStage(p.spec, false, [x]))
    ensures var c := StoredCursor(p.state.files);
            && t.state.files.queue == p.state.files.queue + [Chunk([x], c.seqno + 1, false, c.baseline)]
            && t.spec == SpecStage(p.spec, false, [x])
  {
  }

  /** From a state in good order, the promise survives a step and everything after it exactly when the step keeps the count:
      what `KeepsCount` judges by the cursor file is the exact condition. */
  lemma StepPromisedExactly(cfg: Config, r: Run, act: Action, x0: Record, x: Record, keep: nat -> bool)
    requires RunInv(r) && GzipBounded(cfg.sizes) && AlwaysKeep(keep) && Accepted(cfg.sizes, cfg.envelope, [x])
    requires var t := Follow(cfg, r, act); Unseen(t, x0) && Unseen(t, x) && x0.uuid != x.uuid
    ensures Promised(cfg, Follow(cfg, r, act)) <==> KeepsCount(r.state, act)
  {
    StepKeepsInv(cfg, r, act);
    PromisedExactly(cfg, Follow(cfg, r, act), x0, x, keep);
  }

  // ---------------------------------------------------------------------------------------------
  // Two runs that break it
  // ---------------------------------------------------------------------------------------------

  const AT_FIRST: Run := Run(State([], 0, map[], map[], NO_FILES), Spec([], false))

  /** Where nothing but the cursor tells where to start. */
  lemma OnlyCursor(f: Files, objs: seq<Record>)
    requires f.mark.None? && f.pending == []
    ensures LiveDeltaStart(f, objs, ALL) == From(CursorOf(f, ALL))
  {
    OnlyCursorKnown(f, objs, ALL);
  }

  /** The first record ever is staged. */
  lemma FirstStaging(cfg: Config, r: Run, a: Record, keep: nat -> bool)
    requires a.uuid != "" && AlwaysKeep(keep) && Accepted(cfg.sizes, cfg.envelope, [a])
    requires r.state.objs == [a] && r.state.files == NO_FILES && r.spec == Spec([], false)
    ensures Follow(cfg, r, Stage(keep, true, ALL)) ==
            Run(r.state.(files := Files(Some(Stored(Cursor(a.uuid, 1, 0), r.state.now, false)), None, [], [Chunk([a], 1, false, 0)])), Spec([a], false))
  {
    OnlyCursor(r.state.files, r.state.objs);
    StageOne(cfg, r, None, keep, a, false);
    assert [] + [Chunk([a], 1, false, 0)] == [Chunk([a], 1, false, 0)];
    assert [] + [a] == [a];
  }

  /** A rewritten transcript of one record is staged as a new generation. */
  lemma RewrittenStaging(cfg: Config, r: Run, was: Cursor, at: nat, discarded: bool, b: Record, keep: nat -> bool)
    requires b.uuid != "" && was.lastUuid != "" && b.uuid != was.lastUuid && AlwaysKeep(keep) && Accepted(cfg.sizes, cfg.envelope, [b])
    requires r.state.objs == [b] && r.state.files.stored == Some(Stored(was, at, discarded))
    requires r.state.files.mark.None? && r.state.files.pending == []
    ensures var n := was.seqno + 1;
            Follow(cfg, r, Stage(keep, true, ALL)) ==
            Run(r.state.(files := r.state.files.(stored := Some(Stored(Cursor(b.uuid, n, n), r.state.now, false)),
                                                 queue := r.state.files.queue + [Chunk([b], n, true, n)])), Spec([b], false))
  {
    OnlyCursor(r.state.files, r.state.objs);
    assert IndexOf([b], was.lastUuid) == -1;
    StageOne(cfg, r, Some(was), keep, b, true);
    NewGeneration(r.state.files, was, b, r.state.now);
  }

  lemma NewGeneration(f: Files, was: Cursor, b: Record, now: nat)
    ensures var n := was.seqno + 1;
            SealedOne(f, Some(was), true, b, now) ==
            f.(stored := Some(Stored(Cursor(b.uuid, n, n), now, false)), queue := f.queue + [Chunk([b], n, true, n)])
  {
  }

  /** Every store can be read, by stagings and by hooks, and hooks end unrecorded periods as usual. */
  predicate Ordinary(act: Action) {
    && !act.Begin?
    && (act.Stage? ==> act.ok == ALL)
    && (act.ReadCursor? ==> act.readable)
    && (act.Advance? ==> !act.onlyWhenMissing && act.readable)
  }

  predicate AllOrdinary(acts: seq<Action>) {
    forall i | 0 <= i < |acts| :: Ordinary(acts[i])
  }

  /** No hook does anything. */
  predicate Silent(act: Action) {
    act.Append? || act.Rewrite? || act.Stage?
  }

  predicate HooksSilent(acts: seq<Action>) {
    forall i | 0 <= i < |acts| :: Silent(acts[i])
  }

  /** A run from its second state on, and its first step. */
  lemma Prepend(cfg: Config, r: Run, act: Action, next: Run, rest: seq<Action>, t: Run) returns (acts: seq<Action>)
    requires next == Follow(cfg, r, act) && FollowAll(cfg, next, rest) == t
    ensures FollowAll(cfg, r, acts) == t
    ensures Ordinary(act) && AllOrdinary(rest) ==> AllOrdinary(acts)
    ensures Silent(act) && HooksSilent(rest) ==> HooksSilent(acts)
  {
    acts := [act] + rest;
    assert acts[1..] == rest && acts[0] == act;
  }

  lemma LastStep(cfg: Config, r: Run, act: Action, t: Run) returns (acts: seq<Action>)
    requires t == Follow(cfg, r, act)
    ensures FollowAll(cfg, r, acts) == t
    ensures Ordinary(act) ==> AllOrdinary(acts)
    ensures Silent(act) ==> HooksSilent(acts)
  {
    acts := Prepend(cfg, r, act, t, [], t);
  }

  /** A hook reads the cursor, the transcript is rewritten and staged before it writes, and it writes the old number with the
      new baseline: after the next rewrite two chunks have one number, and the collector takes the new generation for more of
      the one before. */
  lemma LateHookRepeatsNumber(cfg: Config, a: Record, b: Record, c: Record, keep: nat -> bool) returns (acts: seq<Action>)
    requires AlwaysKeep(keep) && a.uuid != "" && b.uuid != "" && c.uuid != "" && a.uuid != b.uuid && b.uuid != c.uuid
    requires Accepted(cfg.sizes, cfg.envelope, [a]) && Accepted(cfg.sizes, cfg.envelope, [b]) && Accepted(cfg.sizes, cfg.envelope, [c])
    ensures AllOrdinary(acts)
    ensures var t := FollowAll(cfg, AT_FIRST, acts);
            && t.spec.lines == [c]
            && t.state.files.queue == [Chunk([a], 1, false, 0)] + [Chunk([b], 2, true, 2)] + [Chunk([c], 2, true, 2)]
            && Collect(EMPTY, t.state.files.queue).lines == [b, c]
  {
    var r2 := FirstStaged(cfg, a, keep);
    var r6 := HookOverlaps(cfg, r2, a, b, keep);
    var rest, r9 := LateEnd(cfg, r6, b, c, keep);
    acts := OverlapFollows(cfg, r2, r6, b, keep, rest, r9);
    acts := TwoFollow(cfg, AT_FIRST, Append([a]), Stage(keep, true, ALL), r2, acts, r9);
    TwoTwos(a, b, c, r9.state.files.queue);
  }

  lemma FirstStaged(cfg: Config, a: Record, keep: nat -> bool) returns (r: Run)
    requires AlwaysKeep(keep) && a.uuid != "" && Accepted(cfg.sizes, cfg.envelope, [a])
    ensures r == Follow(cfg, Follow(cfg, AT_FIRST, Append([a])), Stage(keep, true, ALL))
    ensures r == Run(State([a], 0, map[], map[], Files(Some(Stored(Cursor(a.uuid, 1, 0), 0, false)), None, [], [Chunk([a], 1, false, 0)])), Spec([a], false))
  {
    var r1 := Follow(cfg, AT_FIRST, Append([a]));
    assert [] + [a] == [a];
    FirstStaging(cfg, r1, a, keep);
    r := Follow(cfg, r1, Stage(keep, true, ALL));
  }

  lemma TwoFollow(cfg: Config, r: Run, a1: Action, a2: Action, next: Run, rest: seq<Action>, t: Run) returns (acts: seq<Action>)
    requires next == Follow(cfg, Follow(cfg, r, a1), a2) && FollowAll(cfg, next, rest) == t
    ensures FollowAll(cfg, r, acts) == t
    ensures Ordinary(a1) && Ordinary(a2) && AllOrdinary(rest) ==> AllOrdinary(acts)
    ensures Silent(a1) && Silent(a2) && HooksSilent(rest) ==> HooksSilent(acts)
  {
    acts := Prepend(cfg, Follow(cfg, r, a1), a2, next, rest, t);
    acts := Prepend(cfg, r, a1, Follow(cfg, r, a1), acts, t);
  }

  lemma LateEnd(cfg: Config, r: Run, b: Record, c: Record, keep: nat -> bool) returns (acts: seq<Action>, t: Run)
    requires AlwaysKeep(keep) && b.uuid != "" && c.uuid != "" && b.uuid != c.uuid && Accepted(cfg.sizes, cfg.envelope, [c])
    requires 0 in r.state.found && r.state.found[0].Found? && r.state.found[0].cursor.seqno == 1
    requires 0 in r.state.looks && r.state.looks[0] == Look(0, [b]) && r.state.now == 0
    requires r.state.files == Files(Some(Stored(Cursor(b.uuid, 2, 2), 0, false)), None, [], r.state.files.queue)
    ensures FollowAll(cfg, r, acts) == t && AllOrdinary(acts)
    ensures t.spec == Spec([c], false) && t.state.files.queue == r.state.files.queue + [Chunk([c], 2, true, 2)]
  {
    t := LateStates(cfg, r, b, c, keep);
    acts := ThreeFollow(cfg, r, Advance(0, false, true), Rewrite([c]), Stage(keep, true, ALL), t);
  }

  lemma LateStates(cfg: Config, r: Run, b: Record, c: Record, keep: nat -> bool) returns (t: Run)
    requires AlwaysKeep(keep) && b.uuid != "" && c.uuid != "" && b.uuid != c.uuid && Accepted(cfg.sizes, cfg.envelope, [c])
    requires 0 in r.state.found && r.state.found[0].Found? && r.state.found[0].cursor.seqno == 1
    requires 0 in r.state.looks && r.state.looks[0] == Look(0, [b]) && r.state.now == 0
    requires r.state.files == Files(Some(Stored(Cursor(b.uuid, 2, 2), 0, false)), None, [], r.state.files.queue)
    ensures t == Follow(cfg, Follow(cfg, Follow(cfg, r, Advance(0, false, true)), Rewrite([c])), Stage(keep, true, ALL))
    ensures t.spec == Spec([c], false) && t.state.files.queue == r.state.files.queue + [Chunk([c], 2, true, 2)]
  {
    var r7 := Follow(cfg, r, Advance(0, false, true));
    LateWrite(cfg, r, r7, b);
    var r8 := Follow(cfg, r7, Rewrite([c]));
    RewrittenStaging(cfg, r8, Cursor(b.uuid, 1, 2), 0, true, c, keep);
    t := Follow(cfg, r8, Stage(keep, true, ALL));
  }

  lemma ThreeFollow(cfg: Config, r: Run, a1: Action, a2: Action, a3: Action, t: Run) returns (acts: seq<Action>)
    requires t == Follow(cfg, Follow(cfg, Follow(cfg, r, a1), a2), a3)
    ensures FollowAll(cfg, r, acts) == t
    ensures Ordinary(a1) && Ordinary(a2) && Ordinary(a3) ==> AllOrdinary(acts)
    ensures Silent(a1) && Silent(a2) && Silent(a3) ==> HooksSilent(acts)
  {
    acts := LastStep(cfg, Follow(cfg, Follow(cfg, r, a1), a2), a3, t);
    acts := TwoFollow(cfg, r, a1, a2, Follow(cfg, Follow(cfg, r, a1), a2), acts, t);
  }

  /** A hook has read the cursor before a rewrite and the transcript after it; then the rewritten transcript is staged. */
  function Overlapped(cfg: Config, r: Run, b: Record, keep: nat -> bool): Run {
    Follow(cfg, Follow(cfg, Follow(cfg, Follow(cfg, r, ReadCursor(0, true)), Rewrite([b])), TakeLook(0)), Stage(keep, true, ALL))
  }

  lemma HookOverlaps(cfg: Config, r: Run, a: Record, b: Record, keep: nat -> bool) returns (t: Run)
    requires AlwaysKeep(keep) && a.uuid != "" && b.uuid != "" && a.uuid != b.uuid && Accepted(cfg.sizes, cfg.envelope, [b])
    requires r == Run(State([a], 0, map[], map[], Files(Some(Stored(Cursor(a.uuid, 1, 0), 0, false)), None, [], [Chunk([a], 1, false, 0)])), Spec([a], false))
    ensures t == Overlapped(cfg, r, b, keep)
    ensures t == Run(State([b], 0, map[0 := Found(Cursor(a.uuid, 1, 0))], map[0 := Look(0, [b])],
                           Files(Some(Stored(Cursor(b.uuid, 2, 2), 0, false)), None, [], [Chunk([a], 1, false, 0)] + [Chunk([b], 2, true, 2)])),
                     Spec([b], false))
  {
    var r1 := Follow(cfg, r, ReadCursor(0, true));
    assert r1.state.looks == map[];
    var r3 := Follow(cfg, Follow(cfg, r1, Rewrite([b])), TakeLook(0));
    RewrittenStaging(cfg, r3, Cursor(a.uuid, 1, 0), 0, false, b, keep);
    t := Follow(cfg, r3, Stage(keep, true, ALL));
  }

  lemma OverlapFollows(cfg: Config, r: Run, t: Run, b: Record, keep: nat -> bool, rest: seq<Action>, last: Run) returns (acts: seq<Action>)
    requires t == Overlapped(cfg, r, b, keep) && FollowAll(cfg, t, rest) == last && AllOrdinary(rest)
    ensures FollowAll(cfg, r, acts) == last && AllOrdinary(acts)
  {
    var r2 := Follow(cfg, Follow(cfg, r, ReadCursor(0, true)), Rewrite([b]));
    acts := TwoFollow(cfg, r2, TakeLook(0), Stage(keep, true, ALL), t, rest, last);
    acts := TwoFollow(cfg, r, ReadCursor(0, true), Rewrite([b]), r2, acts, last);
  }

  lemma LateWrite(cfg: Config, r: Run, t: Run, b: Record)
    requires b.uuid != "" && 0 in r.state.found && r.state.found[0].Found? && r.state.found[0].cursor.seqno == 1
    requires 0 in r.state.looks && r.state.looks[0] == Look(0, [b]) && r.state.now == 0
    requires r.state.files.stored == Some(Stored(Cursor(b.uuid, 2, 2), 0, false))
    requires t == Follow(cfg, r, Advance(0, false, true))
    ensures t == Run(r.state.(files := r.state.files.(stored := Some(Stored(Cursor(b.uuid, 1, 2), 0, true)))), r.spec)
  {
    assert LastContentUuid([b]) == b.uuid;
    assert IndexOf([b], b.uuid) == 0;
  }

  lemma TwoTwos(a: Record, b: Record, c: Record, queue: seq<Chunk>)
    requires queue == [Chunk([a], 1, false, 0)] + [Chunk([b], 2, true, 2)] + [Chunk([c], 2, true, 2)]
    ensures Collect(EMPTY, queue) == Object(2, [b, c])
  {
    assert queue[..2][..1] == queue[..1] && queue[..1][..0] == [];
    assert Collect(EMPTY, queue[..1]) == Object(0, [] + [a]);
    assert Collect(EMPTY, queue[..2]) == Object(2, [b]);
    assert [b] + [c] == [b, c];
  }

  /** A staging that cannot read the cursor writes one that has forgotten number and baseline. */
  lemma StageUnreadable(cfg: Config, r: Run, keep: nat -> bool, x: Record)
    requires r.state.files.stored.Some? && r.state.files.mark.None? && r.state.files.pending == []
    requires r.state.objs == [x] && x.uuid != ""
    ensures Follow(cfg, r, Stage(keep, true, ALL.(cursor := false))) ==
            Run(r.state.(files := r.state.files.(stored := Some(Stored(Cursor(x.uuid, 0, 0), r.state.now, true)))), r.spec)
  {
    var f, ok := r.state.files, ALL.(cursor := false);
    assert Known(f, ok) == [] && Unplaced(f, ok) == [f.stored.value.updatedAt];
    assert Unplaced(f, ok)[0] >= Latest(Known(f, ok));
    assert LastContentUuid([x]) == x.uuid;
  }

  /** After a rewrite, one staging that cannot read the cursor makes the next chunk carry baseline 0 again: the collector
      ignores it, and its line, though sealed, never arrives. */
  lemma UnreadableCursorLosesLines(cfg: Config, a: Record, b: Record, c: Record, keep: nat -> bool) returns (acts: seq<Action>)
    requires AlwaysKeep(keep) && a.uuid != "" && b.uuid != "" && c.uuid != "" && a.uuid != b.uuid && b.uuid != c.uuid
    requires Accepted(cfg.sizes, cfg.envelope, [a]) && Accepted(cfg.sizes, cfg.envelope, [b]) && Accepted(cfg.sizes, cfg.envelope, [c])
    ensures HooksSilent(acts)
    ensures var t := FollowAll(cfg, AT_FIRST, acts);
            && t.spec.lines == [b, c]
            && t.state.files.queue == [Chunk([a], 1, false, 0)] + [Chunk([b], 2, true, 2)] + [Chunk([c], 1, false, 0)]
            && Collect(EMPTY, t.state.files.queue).lines == [b]
  {
    var r2 := FirstStaged(cfg, a, keep);
    var rest, t := RewrittenThenBlind(cfg, r2, a, b, c, keep);
    acts := TwoFollow(cfg, AT_FIRST, Append([a]), Stage(keep, true, ALL), r2, rest, t);
    OnlySecondHeld(a, b, c, t.state.files.queue);
  }

  lemma RewrittenThenBlind(cfg: Config, r: Run, a: Record, b: Record, c: Record, keep: nat -> bool) returns (acts: seq<Action>, t: Run)
    requires AlwaysKeep(keep) && a.uuid != "" && b.uuid != "" && c.uuid != "" && a.uuid != b.uuid && b.uuid != c.uuid
    requires Accepted(cfg.sizes, cfg.envelope, [b]) && Accepted(cfg.sizes, cfg.envelope, [c])
    requires r == Run(State([a], 0, map[], map[], Files(Some(Stored(Cursor(a.uuid, 1, 0), 0, false)), None, [], [Chunk([a], 1, false, 0)])), Spec([a], false))
    ensures FollowAll(cfg, r, acts) == t && HooksSilent(acts)
    ensures t.spec.lines == [b, c]
    ensures t.state.files.queue == [Chunk([a], 1, false, 0)] + [Chunk([b], 2, true, 2)] + [Chunk([c], 1, false, 0)]
  {
    var r3 := Follow(cfg, r, Rewrite([b]));
    RewrittenStaging(cfg, r3, Cursor(a.uuid, 1, 0), 0, false, b, keep);
    var r4 := Follow(cfg, r3, Stage(keep, true, ALL));
    acts, t := BlindEnd(cfg, r4, b, c, keep);
    assert [b] + [c] == [b, c];
    acts := TwoFollow(cfg, r, Rewrite([b]), Stage(keep, true, ALL), r4, acts, t);
  }

  lemma BlindEnd(cfg: Config, r: Run, b: Record, c: Record, keep: nat -> bool) returns (acts: seq<Action>, t: Run)
    requires AlwaysKeep(keep) && b.uuid != "" && c.uuid != "" && b.uuid != c.uuid && Accepted(cfg.sizes, cfg.envelope, [c])
    requires r.state.objs == [b] && !r.spec.rewritten
    requires r.state.files == Files(Some(Stored(Cursor(b.uuid, 2, 2), 0, false)), None, [], r.state.files.queue)
    ensures FollowAll(cfg, r, acts) == t && HooksSilent(acts)
    ensures t.spec.lines == r.spec.lines + [c] && t.state.files.queue == r.state.files.queue + [Chunk([c], 1, false, 0)]
  {
    t := BlindStates(cfg, r, b, c, keep);
    acts := ThreeFollow(cfg, r, Stage(keep, true, ALL.(cursor := false)), Append([c]), Stage(keep, true, ALL), t);
  }

  lemma BlindStates(cfg: Config, r: Run, b: Record, c: Record, keep: nat -> bool) returns (t: Run)
    requires AlwaysKeep(keep) && b.uuid != "" && c.uuid != "" && b.uuid != c.uuid && Accepted(cfg.sizes, cfg.envelope, [c])
    requires r.state.objs == [b] && !r.spec.rewritten
    requires r.state.files == Files(Some(Stored(Cursor(b.uuid, 2, 2), 0, false)), None, [], r.state.files.queue)
    ensures t == Follow(cfg, Follow(cfg, Follow(cfg, r, Stage(keep, true, ALL.(cursor := false))), Append([c])), Stage(keep, true, ALL))
    ensures t.spec.lines == r.spec.lines + [c] && t.state.files.queue == r.state.files.queue + [Chunk([c], 1, false, 0)]
  {
    StageUnreadable(cfg, r, keep, b);
    var r1 := Follow(cfg, r, Stage(keep, true, ALL.(cursor := false)));
    var r2 := Follow(cfg, r1, Append([c]));
    NumberedAnew(cfg, r2, b, c, keep);
    t := Follow(cfg, r2, Stage(keep, true, ALL));
  }

  lemma NumberedAnew(cfg: Config, r: Run, b: Record, c: Record, keep: nat -> bool)
    requires AlwaysKeep(keep) && b.uuid != "" && c.uuid != "" && b.uuid != c.uuid && Accepted(cfg.sizes, cfg.envelope, [c])
    requires r.state.objs == [b] + [c] && r.state.files.mark.None? && r.state.files.pending == []
    requires r.state.files.stored.Some? && r.state.files.stored.value.cursor == Cursor(b.uuid, 0, 0)
    ensures var t := Follow(cfg, r, Stage(keep, true, ALL));
            t.state.files.queue == r.state.files.queue + [Chunk([c], 1, false, 0)] && t.spec == SpecStage(r.spec, false, [c])
  {
    assert [b] + [c] == [b, c];
    assert IndexOf([b, c], b.uuid) == 0;
    OnlyCursor(r.state.files, r.state.objs);
    ProbedStaged(cfg, r, c, keep);
  }

  lemma OnlySecondHeld(a: Record, b: Record, c: Record, queue: seq<Chunk>)
    requires queue == [Chunk([a], 1, false, 0)] + [Chunk([b], 2, true, 2)] + [Chunk([c], 1, false, 0)]
    ensures Collect(EMPTY, queue) == Object(2, [b])
  {
    assert queue[..2][..1] == queue[..1] && queue[..1][..0] == [];
    assert Collect(EMPTY, queue[..1]) == Object(0, [] + [a]);
    assert Collect(EMPTY, queue[..2]) == Object(2, [b]);
  }
}
