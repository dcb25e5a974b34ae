/** From transcript to collector: what the chunks of a whole run of stagings add up to. */
module Delivery {
  import opened Options
  import opened TurnRouting
  import opened ChunkSplit
  import opened ChunkPlan
  import opened Staging
  import opened Seqs

  // ---------------------------------------------------------------------------------------------
  // The collector
  // ---------------------------------------------------------------------------------------------

  /** The collector's object for a transcript. */
  datatype Object = Object(baseline: nat, lines: seq<Record>)

  const EMPTY := Object(0, [])

  /** A higher baseline discards the object, an equal one appends to it, a lower one is ignored. */
  function Receive(o: Object, c: Chunk): Object {
    if c.baseline > o.baseline then Object(c.baseline, c.lines)
    else if c.baseline == o.baseline then o.(lines := o.lines + c.lines)
    else o
  }

  function Collect(o: Object, chunks: seq<Chunk>): Object
    decreases |chunks|
  {
    if chunks == [] then o else Receive(Collect(o, chunks[..|chunks| - 1]), chunks[|chunks| - 1])
  }

  lemma {:induction false} CollectConcat(o: Object, a: seq<Chunk>, b: seq<Chunk>)
    ensures Collect(o, a + b) == Collect(Collect(o, a), b)
    decreases |b|
  {
    if b == [] {
      assert a + b == a;
    } else {
      CollectConcat(o, a, b[..|b| - 1]);
      assert (a + b)[..|a + b| - 1] == a + b[..|b| - 1];
    }
  }

  /** The chunks of one generation, in order. */
  function Generation(chunks: seq<Chunk>, baseline: nat): seq<Chunk>
    decreases |chunks|
  {
    if chunks == [] then []
    else
      var last := chunks[|chunks| - 1];
      Generation(chunks[..|chunks| - 1], baseline) + (if last.baseline == baseline then [last] else [])
  }

  function Newest(o: Object, chunks: seq<Chunk>): nat
    decreases |chunks|
  {
    if chunks == [] then o.baseline
    else
      var before, last := Newest(o, chunks[..|chunks| - 1]), chunks[|chunks| - 1].baseline;
      if last > before then last else before
  }

  /** All lines of the newest generation that arrived, in the order its chunks arrived. */
  function NewestObject(o: Object, chunks: seq<Chunk>): Object {
    var newest := Newest(o, chunks);
    Object(newest, (if newest == o.baseline then o.lines else []) + LinesOf(Generation(chunks, newest)))
  }

  /** Whatever arrives in whatever order, the object holds the newest generation that arrived, and nothing
      of another generation. */
  lemma {:induction false} CollectorHoldsNewest(o: Object, chunks: seq<Chunk>)
    ensures Collect(o, chunks) == NewestObject(o, chunks)
    decreases |chunks|
  {
    if chunks != [] {
      CollectorHoldsNewest(o, chunks[..|chunks| - 1]);
      ReceiveNewest(o, chunks);
    } else {
      assert o.lines + LinesOf([]) == o.lines;
    }
  }

  lemma ReceiveNewest(o: Object, chunks: seq<Chunk>)
    requires chunks != []
    ensures Receive(NewestObject(o, chunks[..|chunks| - 1]), chunks[|chunks| - 1]) == NewestObject(o, chunks)
  {
    var n := |chunks| - 1;
    var b, before := chunks[n].baseline, Newest(o, chunks[..n]);
    NewestArrived(o, chunks[..n]);
    if b > before { ReceiveNewer(o, chunks); }
    else { ReceiveNotNewer(o, chunks); }
  }

  lemma ReceiveNewer(o: Object, chunks: seq<Chunk>)
    requires chunks != [] && o.baseline <= Newest(o, chunks[..|chunks| - 1]) < chunks[|chunks| - 1].baseline
    ensures NewestObject(o, chunks) == Object(chunks[|chunks| - 1].baseline, chunks[|chunks| - 1].lines)
  {
    var n := |chunks| - 1;
    NothingNewer(o, chunks[..n], chunks[n].baseline);
    GenerationGrows(chunks, chunks[n].baseline);
    assert [] + ([] + chunks[n].lines) == chunks[n].lines;
  }

  lemma ReceiveNotNewer(o: Object, chunks: seq<Chunk>)
    requires chunks != [] && Newest(o, chunks[..|chunks| - 1]) >= chunks[|chunks| - 1].baseline
    ensures Receive(NewestObject(o, chunks[..|chunks| - 1]), chunks[|chunks| - 1]) == NewestObject(o, chunks)
  {
    var n := |chunks| - 1;
    var newest := Newest(o, chunks[..n]);
    GenerationGrows(chunks, newest);
    var base := if newest == o.baseline then o.lines else [];
    var held := LinesOf(Generation(chunks[..n], newest));
    assert base + (held + chunks[n].lines) == (base + held) + chunks[n].lines;
    assert held + [] == held;
  }

  lemma {:induction false} NothingNewer(o: Object, chunks: seq<Chunk>, b: nat)
    requires b > Newest(o, chunks)
    ensures Generation(chunks, b) == []
    decreases |chunks|
  {
    if chunks != [] { NothingNewer(o, chunks[..|chunks| - 1], b); }
  }

  lemma GenerationGrows(chunks: seq<Chunk>, b: nat)
    requires chunks != []
    ensures var n := |chunks| - 1;
            LinesOf(Generation(chunks, b)) ==
            LinesOf(Generation(chunks[..n], b)) + (if chunks[n].baseline == b then chunks[n].lines else [])
  {
    var n := |chunks| - 1;
    var before := Generation(chunks[..n], b);
    if chunks[n].baseline == b {
      assert (before + [chunks[n]])[..|before|] == before;
    } else {
      assert before + [] == before;
    }
  }

  /** Arrival orders that agree within each generation leave the same object: a late chunk of an older
      generation cannot disturb a newer one. */
  lemma GenerationsMayOvertake(a: seq<Chunk>, b: seq<Chunk>)
    requires forall g :: Generation(a, g) == Generation(b, g)
    ensures Collect(EMPTY, a) == Collect(EMPTY, b)
  {
    CollectorHoldsNewest(EMPTY, a);
    CollectorHoldsNewest(EMPTY, b);
    NewestNoLater(a, b);
    NewestNoLater(b, a);
    assert Generation(a, Newest(EMPTY, a)) == Generation(b, Newest(EMPTY, a));
  }

  lemma NewestNoLater(a: seq<Chunk>, b: seq<Chunk>)
    requires forall g :: Generation(a, g) == Generation(b, g)
    ensures Newest(EMPTY, a) <= Newest(EMPTY, b)
  {
    var newest := Newest(EMPTY, a);
    NewestArrived(EMPTY, a);
    NewestArrived(EMPTY, b);
    assert Generation(a, newest) == Generation(b, newest);
    if newest > Newest(EMPTY, b) { NothingNewer(EMPTY, b, newest); }
  }

  lemma {:induction false} NewestArrived(o: Object, chunks: seq<Chunk>)
    ensures Newest(o, chunks) >= o.baseline
    ensures Newest(o, chunks) > o.baseline ==> Generation(chunks, Newest(o, chunks)) != []
    decreases |chunks|
  {
    if chunks != [] { NewestArrived(o, chunks[..|chunks| - 1]); }
  }

  // ---------------------------------------------------------------------------------------------
  // End to end
  // ---------------------------------------------------------------------------------------------

  /** The simple form: the lines of the current generation. `rewritten` tells that the transcript was rewritten
      and nothing of the new generation has been sealed yet. No numbers, no baselines. */
  datatype Spec = Spec(lines: seq<Record>, rewritten: bool)

  function SpecStage(spec: Spec, lost: bool, sealed: seq<Record>): Spec {
    var renewed := spec.rewritten || lost;
    if sealed == [] then Spec(spec.lines, renewed)
    else if renewed then Spec(sealed, false)
    else Spec(spec.lines + sealed, false)
  }

  datatype Run = Run(state: State, spec: Spec)

  /** The record staging would start after is no longer in the transcript. */
  predicate Rewritten(f: Files, objs: seq<Record>, prompted: bool, ok: Readable) {
    && !NeverRecorded(f, objs, prompted, ok)
    && var start := LiveDeltaStart(f, objs, ok);
       && start.From? && start.cursor.Some? && start.cursor.value.lastUuid != "" && objs != []
       && forall i | 0 <= i < |objs| :: objs[i].uuid != start.cursor.value.lastUuid
  }

  /** The lines a staging takes: the kept records after the anchor, less those no upload could carry. */
  function Taken(cfg: Config, f: Files, objs: seq<Record>, keep: nat -> bool, prompted: bool, ok: Readable): seq<Record> {
    var start := LiveDeltaStart(f, objs, ok);
    if NeverRecorded(f, objs, prompted, ok) || start.Hold? then []
    else Flatten(Cut(cfg, Kept(objs, ComputeDelta(objs, start.cursor).start, keep)).groups)
  }

  function Follow(cfg: Config, r: Run, act: Action): Run {
    var next := Apply(cfg, r.state, act);
    match act
    case Stage(keep, prompted, ok) =>
      var f, objs := r.state.files, r.state.objs;
      Run(next, SpecStage(r.spec, Rewritten(f, objs, prompted, ok), Taken(cfg, f, objs, keep, prompted, ok)))
    case _ => Run(next, r.spec)
  }

  function FollowAll(cfg: Config, r: Run, acts: seq<Action>): Run
    decreases |acts|
  {
    if acts == [] then r else FollowAll(cfg, Follow(cfg, r, acts[0]), acts[1..])
  }

  function StoredCursor(f: Files): Cursor {
    if f.stored.Some? then f.stored.value.cursor else Cursor("", 0, 0)
  }

  ghost predicate NumberedFromOne(chunks: seq<Chunk>) {
    forall i | 0 <= i < |chunks| :: chunks[i].seqno == i + 1 && chunks[i].baseline <= i + 1 && chunks[i].lines != []
  }

  /** What a run promises: numbers without a gap from 1, and at the collector the lines of the simple form. */
  ghost predicate Promise(r: Run) {
    NumberedFromOne(r.state.files.queue) && Collect(EMPTY, r.state.files.queue).lines == r.spec.lines
  }

  /** Number and baseline of the cursor agree with the queue. Before anything is sealed any first baseline will do. */
  ghost predicate RunInv(r: Run) {
    var f := r.state.files;
    var held, cursor := Collect(EMPTY, f.queue), StoredCursor(f);
    && Promise(r)
    && cursor.seqno == |f.queue|
    && cursor.baseline <= |f.queue| + 1
    && (f.queue != [] ==> if r.spec.rewritten then cursor.baseline > held.baseline else cursor.baseline == held.baseline)
  }

  /** What the collector holds of chunks numbered from 1: something, of a generation no later than their number. */
  lemma {:induction false} HeldBounded(queue: seq<Chunk>)
    requires NumberedFromOne(queue)
    ensures Collect(EMPTY, queue).baseline <= |queue|
    ensures queue != [] ==> Collect(EMPTY, queue).lines != []
    decreases |queue|
  {
    if queue != [] { HeldBounded(queue[..|queue| - 1]); }
  }

  /** All chunks of one plan carry one baseline: if any arrives, the object moves to it. */
  lemma {:induction false} CollectPlan(o: Object, chunks: seq<Chunk>, baseline: nat)
    requires forall i | 0 <= i < |chunks| :: chunks[i].baseline == baseline
    requires baseline >= o.baseline
    ensures Collect(o, chunks) ==
            if chunks == [] then o
            else if baseline == o.baseline then o.(lines := o.lines + LinesOf(chunks))
            else Object(baseline, LinesOf(chunks))
    decreases |chunks|
  {
    if chunks != [] {
      var n := |chunks| - 1;
      CollectPlan(o, chunks[..n], baseline);
      assert LinesOf(chunks) == LinesOf(chunks[..n]) + chunks[n].lines;
    }
  }

  lemma LinesOfNonEmpty(chunks: seq<Chunk>)
    requires forall i | 0 <= i < |chunks| :: chunks[i].lines != []
    ensures LinesOf(chunks) == [] <==> chunks == []
  {
    if chunks != [] { assert chunks[|chunks| - 1].lines != []; }
  }

  /** Against what the collector holds of the queue, a baseline stands where the cursor's does: above it, or at it. */
  ghost predicate SameSide(f: Files, baseline: nat) {
    var newest := Collect(EMPTY, f.queue).baseline;
    if StoredCursor(f).baseline > newest then baseline > newest else baseline == newest
  }

  /** The generation's baseline tells the collector exactly what `rewritten` tells the simple form. */
  lemma SealingKeepsInv(r: Run, t: Run, chunks: seq<Chunk>, baseline: nat, lost: bool)
    requires RunInv(r)
    requires t.state.files.queue == r.state.files.queue + chunks
    requires t.state.files.stored.Some?
    requires StoredCursor(t.state.files).seqno == |r.state.files.queue| + |chunks|
    requires StoredCursor(t.state.files).baseline == baseline
    requires if r.state.files.queue == [] then baseline <= 1
             else if lost then baseline == |r.state.files.queue| + 1
             else baseline <= |r.state.files.queue| + 1 && SameSide(r.state.files, baseline)
    requires forall i | 0 <= i < |chunks| ::
               chunks[i].lines != [] && chunks[i].baseline == baseline && chunks[i].seqno == |r.state.files.queue| + 1 + i
    requires t.spec == SpecStage(r.spec, lost, LinesOf(chunks))
    ensures RunInv(t)
  {
    var queue := r.state.files.queue;
    var held := Collect(EMPTY, queue);
    HeldBounded(queue);
    LinesOfNonEmpty(chunks);
    NumberedOn(queue, chunks, baseline);
    CollectConcat(EMPTY, queue, chunks);
    CollectPlan(held, chunks, baseline);
    SealedLines(held, r.spec, lost, baseline, chunks, queue == []);
  }

  lemma NumberedOn(queue: seq<Chunk>, chunks: seq<Chunk>, baseline: nat)
    requires NumberedFromOne(queue) && baseline <= |queue| + 1
    requires forall i | 0 <= i < |chunks| ::
               chunks[i].lines != [] && chunks[i].baseline == baseline && chunks[i].seqno == |queue| + 1 + i
    ensures NumberedFromOne(queue + chunks)
  {
  }

  /** What the collector holds after one plan, against the simple form. */
  lemma SealedLines(held: Object, spec: Spec, lost: bool, baseline: nat, chunks: seq<Chunk>, first: bool)
    requires held.lines == spec.lines && (LinesOf(chunks) == [] <==> chunks == [])
    requires if first then held == EMPTY
             else if spec.rewritten || lost then baseline > held.baseline
             else baseline == held.baseline
    ensures var after := if chunks == [] then held
                         else if baseline == held.baseline then held.(lines := held.lines + LinesOf(chunks))
                         else Object(baseline, LinesOf(chunks));
            && after.lines == SpecStage(spec, lost, LinesOf(chunks)).lines
            && (!first || chunks != [] ==>
                  if SpecStage(spec, lost, LinesOf(chunks)).rewritten then baseline > after.baseline else baseline == after.baseline)
  {
    if first { assert [] + LinesOf(chunks) == LinesOf(chunks); }
  }

  /** Whether a staging writes the cursor: a held one when there is content, another when there is a delta. */
  predicate Writes(f: Files, objs: seq<Record>, prompted: bool, ok: Readable) {
    match StartOf(f, objs, prompted, ok)
    case Hold => LastContentUuid(objs) != ""
    case From(cursor) => ComputeDelta(objs, cursor).start < |objs|
  }

  /** The condition on a step, judged by the cursor file as it is then: a staging reads it, or has nothing to lose; a hook
      writes the number that is there, and, once anything was sealed, the baseline that is there. */
  predicate KeepsCount(s: State, act: Action) {
    var cursor := StoredCursor(s.files);
    match act
    case Stage(_, prompted, ok) =>
      ok.cursor || s.files.stored.None? || cursor.seqno == 0 || !Writes(s.files, s.objs, prompted, ok)
    case Advance(h, onlyWhenMissing, readable) =>
      Ready(s, h) && Advances(s.files, s.found[h], s.looks[h], onlyWhenMissing, readable) ==>
        && Seqno(Existing(s.found[h])) == cursor.seqno
        && (cursor.seqno == 0 || Baseline(Existing(ReadOf(s.files, readable))) == cursor.baseline)
    case Begin(h, prompt, _) => Ready(s, h) && Begins(s.found[h], s.looks[h], prompt) ==> cursor.seqno == 0
    case _ => true
  }

  lemma PlannedKeepsInv(cfg: Config, r: Run, keep: nat -> bool, prompted: bool, ok: Readable)
    requires RunInv(r) && GzipBounded(cfg.sizes)
    requires ok.cursor || r.state.files.stored.None? || r.state.files.queue == []
    requires StartOf(r.state.files, r.state.objs, prompted, ok).From?
    ensures RunInv(Follow(cfg, r, Stage(keep, prompted, ok)))
  {
    var f, objs := r.state.files, r.state.objs;
    var start := StartOf(f, objs, prompted, ok).cursor;
    var seqno := Seqno(CursorOf(f, ok));
    var plan := PlanOf(cfg, objs, start, seqno, keep);
    assert seqno == |f.queue|;
    if plan.newCursor.Some? {
      PlanCarries(cfg, objs, start, seqno, keep);
      var lost := ComputeDelta(objs, start).reset;
      var t := Follow(cfg, r, Stage(keep, prompted, ok));
      FollowPlanned(cfg, r, keep, prompted, ok, start, plan, lost);
      assert f.queue != [] ==> Baseline(start) == StoredCursor(f).baseline;
      SealingKeepsInv(r, t, plan.chunks, NewBaseline(start, seqno, lost), lost);
    } else {
      FollowNothing(cfg, r, keep, prompted, ok, start);
    }
  }

  lemma FollowPlanned(cfg: Config, r: Run, keep: nat -> bool, prompted: bool, ok: Readable, start: Option<Cursor>, plan: Plan, lost: bool)
    requires GzipBounded(cfg.sizes) && StartOf(r.state.files, r.state.objs, prompted, ok) == From(start)
    requires plan == PlanOf(cfg, r.state.objs, start, Seqno(CursorOf(r.state.files, ok)), keep) && plan.newCursor.Some?
    requires lost == ComputeDelta(r.state.objs, start).reset
    requires LinesOf(plan.chunks) == Flatten(Cut(cfg, Kept(r.state.objs, ComputeDelta(r.state.objs, start).start, keep)).groups)
    ensures var t := Follow(cfg, r, Stage(keep, prompted, ok));
            && t.state.files.queue == r.state.files.queue + plan.chunks && t.state.files.stored.Some?
            && StoredCursor(t.state.files) == plan.newCursor.value
            && t.spec == SpecStage(r.spec, lost, LinesOf(plan.chunks))
  {
    assert r.state.objs != [];
  }

  lemma FollowNothing(cfg: Config, r: Run, keep: nat -> bool, prompted: bool, ok: Readable, start: Option<Cursor>)
    requires StartOf(r.state.files, r.state.objs, prompted, ok) == From(start) && ComputeDelta(r.state.objs, start).start == |r.state.objs|
    ensures var t := Follow(cfg, r, Stage(keep, prompted, ok)); t.state.files == r.state.files && t.spec == r.spec
  {
    assert Kept(r.state.objs, |r.state.objs|, keep) == [];
    assert Cut(cfg, []).groups == [];
  }

  /** Exactly the steps that meet the condition keep number and baseline in agreement with the queue. */
  lemma StepKeepsInv(cfg: Config, r: Run, act: Action)
    requires RunInv(r) && GzipBounded(cfg.sizes)
    ensures RunInv(Follow(cfg, r, act)) <==> KeepsCount(r.state, act)
  {
    match act
    case Stage(keep, prompted, ok) => StageKeepsInv(cfg, r, keep, prompted, ok);
    case Advance(h, onlyWhenMissing, readable) => AdvanceKeepsInv(cfg, r, h, onlyWhenMissing, readable);
    case Begin(h, prompt, readable) => BeginKeepsInv(cfg, r, h, prompt, readable);
    case _ =>
  }

  lemma AdvanceKeepsInv(cfg: Config, r: Run, h: nat, onlyWhenMissing: bool, readable: bool)
    requires RunInv(r)
    ensures RunInv(Follow(cfg, r, Advance(h, onlyWhenMissing, readable))) <==> KeepsCount(r.state, Advance(h, onlyWhenMissing, readable))
  {
    HeldBounded(r.state.files.queue);
  }

  lemma BeginKeepsInv(cfg: Config, r: Run, h: nat, prompt: string, readable: bool)
    requires RunInv(r)
    ensures RunInv(Follow(cfg, r, Begin(h, prompt, readable))) <==> KeepsCount(r.state, Begin(h, prompt, readable))
  {
  }

  lemma StageKeepsInv(cfg: Config, r: Run, keep: nat -> bool, prompted: bool, ok: Readable)
    requires RunInv(r) && GzipBounded(cfg.sizes)
    ensures RunInv(Follow(cfg, r, Stage(keep, prompted, ok))) <==> KeepsCount(r.state, Stage(keep, prompted, ok))
  {
    var f, objs := r.state.files, r.state.objs;
    var delta := StartOf(f, objs, prompted, ok);
    if delta.Hold? {
      HeldKeepsInv(cfg, r, keep, prompted, ok);
    } else if ok.cursor || f.stored.None? || f.queue == [] {
      PlannedKeepsInv(cfg, r, keep, prompted, ok);
    } else if ComputeDelta(objs, delta.cursor).start == |objs| {
      FollowNothing(cfg, r, keep, prompted, ok, delta.cursor);
    } else {
      BlindPlanBreaks(cfg, r, keep, prompted, ok, delta.cursor);
    }
  }

  lemma HeldKeepsInv(cfg: Config, r: Run, keep: nat -> bool, prompted: bool, ok: Readable)
    requires RunInv(r) && StartOf(r.state.files, r.state.objs, prompted, ok).Hold?
    ensures RunInv(Follow(cfg, r, Stage(keep, prompted, ok))) <==> KeepsCount(r.state, Stage(keep, prompted, ok))
  {
    var t := Follow(cfg, r, Stage(keep, prompted, ok));
    HeldStage(cfg, r, keep, prompted, ok);
  }

  lemma HeldStage(cfg: Config, r: Run, keep: nat -> bool, prompted: bool, ok: Readable)
    requires StartOf(r.state.files, r.state.objs, prompted, ok).Hold?
    ensures var t := Follow(cfg, r, Stage(keep, prompted, ok));
            var cursor := CursorOf(r.state.files, ok);
            && t.spec == r.spec && t.state.files == HeldBack(r.state.files, Seqno(cursor), Baseline(cursor), LastContentUuid(r.state.objs), r.state.now)
  {
  }

  /** A plan made without the cursor starts to number anew. */
  lemma BlindPlanBreaks(cfg: Config, r: Run, keep: nat -> bool, prompted: bool, ok: Readable, start: Option<Cursor>)
    requires GzipBounded(cfg.sizes) && StartOf(r.state.files, r.state.objs, prompted, ok) == From(start)
    requires !ok.cursor && r.state.files.queue != [] && ComputeDelta(r.state.objs, start).start < |r.state.objs|
    ensures !RunInv(Follow(cfg, r, Stage(keep, prompted, ok)))
  {
    var plan := PlanOf(cfg, r.state.objs, start, 0, keep);
    PlanCarries(cfg, r.state.objs, start, 0, keep);
    FollowPlanned(cfg, r, keep, prompted, ok, start, plan, ComputeDelta(r.state.objs, start).reset);
  }

  ghost predicate AllKeepCount(cfg: Config, r: Run, acts: seq<Action>)
    decreases |acts|
  {
    acts == [] || (KeepsCount(r.state, acts[0]) && AllKeepCount(cfg, Follow(cfg, r, acts[0]), acts[1..]))
  }

  lemma {:induction false} RunKeepsInv(cfg: Config, r: Run, acts: seq<Action>)
    requires RunInv(r) && GzipBounded(cfg.sizes) && AllKeepCount(cfg, r, acts)
    ensures RunInv(FollowAll(cfg, r, acts))
    decreases |acts|
  {
    if acts != [] {
      StepKeepsInv(cfg, r, acts[0]);
      RunKeepsInv(cfg, Follow(cfg, r, acts[0]), acts[1..]);
    }
  }

  /** Over any run of appends, rewrites, hooks that look and write in any interleaving, and stagings, each step of which
      keeps the count: the chunks are numbered on from 1, and a collector that receives them in that order holds the lines
      of the newest generation that sealed any, as the simple form says. */
  lemma EndToEnd(cfg: Config, r: Run, acts: seq<Action>)
    requires GzipBounded(cfg.sizes) && r.state.files == NO_FILES && r.spec == Spec([], false)
    requires AllKeepCount(cfg, r, acts)
    ensures Promise(FollowAll(cfg, r, acts))
  {
    RunKeepsInv(cfg, r, acts);
  }

  // ---------------------------------------------------------------------------------------------
  // Exactly once
  // ---------------------------------------------------------------------------------------------

  /** The content lines: those that carry a uuid. */
  function Content(lines: seq<Record>): seq<Record>
    decreases |lines|
  {
    if lines == [] then []
    else if lines[0].uuid != "" then [lines[0]] + Content(lines[1..])
    else Content(lines[1..])
  }

  lemma ContentFirst(r: Record, lines: seq<Record>)
    ensures Content([r] + lines) == (if r.uuid != "" then [r] else []) + Content(lines)
  {
    assert ([r] + lines)[1..] == lines;
  }

  lemma {:induction false} ContentConcat(a: seq<Record>, b: seq<Record>)
    ensures Content(a + b) == Content(a) + Content(b)
    decreases |a|
  {
    if a == [] {
      assert a + b == b;
    } else {
      ContentConcat(a[1..], b);
      ContentFirst(a[0], a[1..]);
      ContentFirst(a[0], a[1..] + b);
      assert a == [a[0]] + a[1..] && a + b == [a[0]] + (a[1..] + b);
    }
  }

  lemma {:induction false} ContentThinned(cfg: Config, full: seq<Record>, got: seq<Record>, n: nat) returns (m: nat)
    requires Thinned(cfg.sizes, cfg.envelope, full, got, n)
    ensures m <= n && Thinned(cfg.sizes, cfg.envelope, Content(full), Content(got), m)
    decreases |full|
  {
    if full == [] {
      m := 0;
    } else if got != [] && got[0] == full[0] && Thinned(cfg.sizes, cfg.envelope, full[1..], got[1..], n) {
      m := ContentThinned(cfg, full[1..], got[1..], n);
      if full[0].uuid != "" {
        assert Content(full)[1..] == Content(full[1..]) && Content(got)[1..] == Content(got[1..]);
      }
    } else {
      m := ContentThinned(cfg, full[1..], got, n - 1);
      if full[0].uuid != "" {
        assert Content(full)[1..] == Content(full[1..]);
        m := m + 1;
      }
    }
  }

  /** What should be sent: each staging owes the kept content it is the first to reach. `reached` is the
      length of the transcript at the last staging; a staging that holds takes nothing and skips what is there. */
  datatype Due = Due(state: State, reached: nat, owed: seq<Record>)

  function Owe(cfg: Config, d: Due, act: Action): Due {
    var next := Apply(cfg, d.state, act);
    match act
    case Stage(keep, prompted, ok) =>
      if d.reached > |d.state.objs| || NeverRecorded(d.state.files, d.state.objs, prompted, ok) then Due(next, |d.state.objs|, d.owed)
      else Due(next, |d.state.objs|, d.owed + Content(Kept(d.state.objs, d.reached, keep)))
    case _ => Due(next, d.reached, d.owed)
  }

  function OweAll(cfg: Config, d: Due, acts: seq<Action>): Due
    decreases |acts|
  {
    if acts == [] then d else OweAll(cfg, Owe(cfg, d, acts[0]), acts[1..])
  }

  ghost predicate NoContent(objs: seq<Record>, from: int, to: int) {
    forall k | from <= k < to && 0 <= k < |objs| :: objs[k].uuid == ""
  }

  /** Staging will start after the anchor, and no content lies between it and `reached`. */
  ghost predicate Anchored(objs: seq<Record>, lastUuid: string, reached: nat) {
    && reached <= |objs|
    && (lastUuid != "" ==> IndexOf(objs, lastUuid) >= 0)
    && PlaceOf(objs, lastUuid) < reached + (if lastUuid == "" then 1 else 0)
    && NoContent(objs, PlaceOf(objs, lastUuid) + 1, reached)
  }

  ghost predicate DueInv(cfg: Config, d: Due) {
    && d.state.files.mark.None? && d.state.files.pending == []
    && Anchored(d.state.objs, StoredCursor(d.state.files).lastUuid, d.reached)
    && (exists n :: Thinned(cfg.sizes, cfg.envelope, d.owed, Content(LinesOf(d.state.files.queue)), n))
  }

  /** Leaving out records without content at the front changes nothing of the content kept. */
  lemma {:induction false} KeptContent(objs: seq<Record>, from: nat, to: nat, keep: nat -> bool)
    requires from <= to <= |objs| && NoContent(objs, from, to)
    ensures Content(Kept(objs, from, keep)) == Content(Kept(objs, to, keep))
    decreases |objs|
  {
    if to < |objs| {
      var n := |objs| - 1;
      var last := if keep(n) then [objs[n]] else [];
      KeptContent(objs[..n], from, to, keep);
      ContentConcat(Kept(objs[..n], from, keep), last);
      ContentConcat(Kept(objs[..n], to, keep), last);
    } else if from < to {
      var n := |objs| - 1;
      KeptContent(objs[..n], from, n, keep);
      ContentConcat(Kept(objs[..n], from, keep), if keep(n) then [objs[n]] else []);
      assert Content(Kept(objs[..n], n, keep)) == [];
    }
  }

  /** After a staging the anchor is the newest content record there is. */
  lemma NewAnchor(objs: seq<Record>, start: nat, was: string, next: string)
    requires Unique(objs) && start <= |objs|
    requires was == "" ==> start == 0
    requires was != "" ==> IndexOf(objs, was) == start - 1 >= 0
    requires next == if LastContentUuid(objs[start..]) != "" then LastContentUuid(objs[start..]) else was
    ensures Anchored(objs, next, |objs|)
  {
    if LastContentUuid(objs[start..]) != "" {
      AnchorInDelta(objs, start);
    } else {
      forall j | start <= j < |objs| ensures objs[j].uuid == "" { assert objs[j] in objs[start..]; }
    }
  }

  lemma AnchorInDelta(objs: seq<Record>, start: nat)
    requires Unique(objs) && start <= |objs| && LastContentUuid(objs[start..]) != ""
    ensures Anchored(objs, LastContentUuid(objs[start..]), |objs|)
  {
    var delta := objs[start..];
    var last := LastContentUuid(delta);
    var k :| 0 <= k < |delta| && delta[k].uuid == last && forall j | k < j < |delta| :: delta[j].uuid == "";
    assert objs[start + k].uuid == last;
    assert IndexOf(objs, last) == start + k;
    forall j | start + k < j < |objs| ensures objs[j].uuid == "" { assert objs[j] == delta[j - start]; }
  }

  lemma StageKeepsDue(cfg: Config, d: Due, keep: nat -> bool, prompted: bool, ok: Readable)
    requires DueInv(cfg, d) && Unique(d.state.objs) && GzipBounded(cfg.sizes) && ok.cursor
    ensures DueInv(cfg, Owe(cfg, d, Stage(keep, prompted, ok)))
  {
    var f, objs := d.state.files, d.state.objs;
    if NeverRecorded(f, objs, prompted, ok) {
      assert objs[0..] == objs;
      NewAnchor(objs, 0, "", LastContentUuid(objs));
    } else {
      assert Positioned([]) == [] && Unpositioned([]) == [];
      assert Unplaced(f, ok) == [];
      OnlyCursorKnown(f, objs, ok);
      LiveKeepsDue(cfg, d, keep, prompted, ok);
    }
  }

  lemma LiveKeepsDue(cfg: Config, d: Due, keep: nat -> bool, prompted: bool, ok: Readable)
    requires DueInv(cfg, d) && Unique(d.state.objs) && GzipBounded(cfg.sizes) && ok.cursor
    requires StartOf(d.state.files, d.state.objs, prompted, ok) == From(CursorOf(d.state.files, ok))
    requires !NeverRecorded(d.state.files, d.state.objs, prompted, ok)
    ensures DueInv(cfg, Owe(cfg, d, Stage(keep, prompted, ok)))
  {
    var f, objs := d.state.files, d.state.objs;
    var cursor := CursorOf(f, ok);
    var plan := PlanOf(cfg, objs, cursor, Seqno(cursor), keep);
    LiveOwes(cfg, d, keep, prompted, ok, plan);
    KeptContent(objs, ComputeDelta(objs, cursor).start, d.reached, keep);
    if plan.newCursor.Some? {
      PlannedDue(cfg, d, cursor, keep, plan);
    } else {
      assert Kept(objs, |objs|, keep) == [];
      assert d.owed + [] == d.owed;
    }
  }

  lemma LiveOwes(cfg: Config, d: Due, keep: nat -> bool, prompted: bool, ok: Readable, plan: Plan)
    requires d.reached <= |d.state.objs| && !NeverRecorded(d.state.files, d.state.objs, prompted, ok)
    requires StartOf(d.state.files, d.state.objs, prompted, ok) == From(CursorOf(d.state.files, ok))
    requires plan == PlanOf(cfg, d.state.objs, CursorOf(d.state.files, ok), Seqno(CursorOf(d.state.files, ok)), keep)
    ensures Owe(cfg, d, Stage(keep, prompted, ok)) ==
            Due(d.state.(files := Sealed(d.state.files, plan, d.state.now)), |d.state.objs|, d.owed + Content(Kept(d.state.objs, d.reached, keep)))
  {
  }

  lemma PlannedDue(cfg: Config, d: Due, cursor: Option<Cursor>, keep: nat -> bool, plan: Plan)
    requires DueInv(cfg, d) && Unique(d.state.objs) && GzipBounded(cfg.sizes)
    requires cursor == if d.state.files.stored.Some? then Some(d.state.files.stored.value.cursor) else None
    requires plan == PlanOf(cfg, d.state.objs, cursor, Seqno(cursor), keep) && plan.newCursor.Some?
    requires d.reached <= |d.state.objs|
    requires Content(Kept(d.state.objs, ComputeDelta(d.state.objs, cursor).start, keep)) == Content(Kept(d.state.objs, d.reached, keep))
    ensures DueInv(cfg, Due(d.state.(files := Sealed(d.state.files, plan, d.state.now)), |d.state.objs|, d.owed + Content(Kept(d.state.objs, d.reached, keep))))
  {
    var f, objs := d.state.files, d.state.objs;
    var start := ComputeDelta(objs, cursor).start;
    PlanCarries(cfg, objs, cursor, Seqno(cursor), keep);
    OwedOn(cfg, d.owed, f.queue, Kept(objs, start, keep), plan);
    NewAnchor(objs, start, StoredCursor(f).lastUuid, plan.newCursor.value.lastUuid);
  }

  /** The owed lines and those a plan takes up are thinned to the lines of the longer queue. */
  lemma OwedOn(cfg: Config, owed: seq<Record>, queue: seq<Chunk>, kept: seq<Record>, plan: Plan)
    requires exists n :: Thinned(cfg.sizes, cfg.envelope, owed, Content(LinesOf(queue)), n)
    requires Thinned(cfg.sizes, cfg.envelope, kept, LinesOf(plan.chunks), plan.oversized)
    ensures exists n :: Thinned(cfg.sizes, cfg.envelope, owed + Content(kept), Content(LinesOf(queue + plan.chunks)), n)
  {
    var n0 :| Thinned(cfg.sizes, cfg.envelope, owed, Content(LinesOf(queue)), n0);
    var m := ContentThinned(cfg, kept, LinesOf(plan.chunks), plan.oversized);
    LinesOfConcat(queue, plan.chunks);
    ContentConcat(LinesOf(queue), LinesOf(plan.chunks));
    ThinnedConcat(cfg.sizes, cfg.envelope, owed, Content(LinesOf(queue)), n0, Content(kept), Content(LinesOf(plan.chunks)), m);
  }

  lemma OnlyCursorKnown(f: Files, objs: seq<Record>, ok: Readable)
    requires f.mark.None? && f.pending == [] && ok.cursor
    ensures LiveDeltaStart(f, objs, ok) == From(CursorOf(f, ok))
  {
    assert Unplaced(f, ok) == [];
    if f.stored.Some? {
      var known := Known(f, ok);
      assert known == [Boundary(f.stored.value.cursor.lastUuid, f.stored.value.updatedAt)];
      assert known[..0] == [];
      assert Furthest(objs, known) == PlaceOf(objs, f.stored.value.cursor.lastUuid);
    } else {
      assert Known(f, ok) == [];
    }
  }

  lemma {:induction false} DueAlong(cfg: Config, d: Due, acts: seq<Action>)
    requires GzipBounded(cfg.sizes) && DueInv(cfg, d) && Unique(OweAll(cfg, d, acts).state.objs)
    requires forall i | 0 <= i < |acts| :: acts[i].Append? || acts[i].Tick? || (acts[i].Stage? && acts[i].ok.cursor)
    ensures DueInv(cfg, OweAll(cfg, d, acts))
    decreases |acts|
  {
    if acts != [] {
      var next := Owe(cfg, d, acts[0]);
      OnlyGrows(cfg, next, acts[1..]);
      if acts[0].Append? {
        AppendKeepsDue(cfg, d, acts[0].more);
      } else if acts[0].Stage? {
        assert Unique(d.state.objs);
        StageKeepsDue(cfg, d, acts[0].keep, acts[0].prompted, acts[0].ok);
      }
      DueAlong(cfg, next, acts[1..]);
    }
  }

  lemma AppendKeepsDue(cfg: Config, d: Due, more: seq<Record>)
    requires DueInv(cfg, d)
    ensures DueInv(cfg, Owe(cfg, d, Append(more)))
  {
    var last := StoredCursor(d.state.files).lastUuid;
    if last != "" { IndexOfAppend(d.state.objs, more, last); }
  }

  lemma {:induction false} OnlyGrows(cfg: Config, d: Due, acts: seq<Action>)
    requires forall i | 0 <= i < |acts| :: acts[i].Append? || acts[i].Tick? || acts[i].Stage?
    ensures d.state.objs <= OweAll(cfg, d, acts).state.objs
    decreases |acts|
  {
    if acts != [] { OnlyGrows(cfg, Owe(cfg, d, acts[0]), acts[1..]); }
  }

  /** On a transcript that only grows, its uuids distinct, over any number of stagings: the content lines of
      all sealed chunks are, in order and once each, the records kept when first reached, less only records
      no upload could carry. */
  lemma ExactlyOnce(cfg: Config, d: Due, acts: seq<Action>)
    requires GzipBounded(cfg.sizes)
    requires d.state.files == NO_FILES && d.reached == 0 && d.owed == []
    requires forall i | 0 <= i < |acts| :: acts[i].Append? || acts[i].Tick? || (acts[i].Stage? && acts[i].ok.cursor)
    requires Unique(OweAll(cfg, d, acts).state.objs)
    ensures SentOnce(cfg, OweAll(cfg, d, acts))
  {
    assert Thinned(cfg.sizes, cfg.envelope, d.owed, Content(LinesOf(d.state.files.queue)), 0);
    DueAlong(cfg, d, acts);
    SentIsOwed(cfg, OweAll(cfg, d, acts));
  }

  ghost predicate SentOnce(cfg: Config, t: Due) {
    var sent := Content(LinesOf(t.state.files.queue));
    && (exists n :: Thinned(cfg.sizes, cfg.envelope, t.owed, sent, n))
    && ((forall l | l in t.owed :: Accepted(cfg.sizes, cfg.envelope, [l])) ==> sent == t.owed)
  }

  lemma SentIsOwed(cfg: Config, t: Due)
    requires DueInv(cfg, t)
    ensures SentOnce(cfg, t)
  {
    var sent := Content(LinesOf(t.state.files.queue));
    var n :| Thinned(cfg.sizes, cfg.envelope, t.owed, sent, n);
    if forall l | l in t.owed :: Accepted(cfg.sizes, cfg.envelope, [l]) {
      NothingLeftOut(cfg.sizes, cfg.envelope, t.owed, sent, n);
    }
  }
}
