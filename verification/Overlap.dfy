/** Stagings that overlap: a staging reads the transcript and the three stores in one step, and seals its chunks and writes the
    cursor in another; anything may happen in between, other stagings included (`stageRepositoryTurns` in transfer.js). */
module Overlap {
  import opened Options
  import opened TurnRouting
  import opened ChunkSplit
  import opened ChunkPlan
  import opened Staging
  import opened Delivery
  import Limits = DeliveryLimits

  /** What a staging has read. */
  datatype Opened = Opened(files: Files, objs: seq<Record>, keep: nat -> bool, prompted: bool, ok: Readable)

  /** A run, and the stagings that have read but not written yet. */
  datatype Session = Session(run: Run, open: map<nat, Opened>)

  /** `readable` tells whether a held staging can read the cursor file again when it writes. */
  datatype Act =
    | Whole(act: Action)
    | Open(staging: nat, keep: nat -> bool, prompted: bool, ok: Readable)
    | Close(staging: nat, readable: bool)

  function CursorRead(o: Opened): Option<Cursor> {
    CursorOf(o.files, o.ok)
  }

  function Start(o: Opened): DeltaStart {
    StartOf(o.files, o.objs, o.prompted, o.ok)
  }

  function PlanFor(cfg: Config, o: Opened): Plan
    requires Start(o).From?
  {
    PlanOf(cfg, o.objs, Start(o).cursor, Seqno(CursorRead(o)), o.keep)
  }

  /** The files after the staging has written: what it read decides, except for the baseline a held one writes. */
  function Closed(cfg: Config, f: Files, o: Opened, now: nat, readable: bool): Files {
    if Start(o).Hold? then HeldBack(f, Seqno(CursorRead(o)), Baseline(Existing(ReadOf(f, readable))), LastContentUuid(o.objs), now)
    else Sealed(f, PlanFor(cfg, o), now)
  }

  function Step(cfg: Config, x: Session, act: Act): Session {
    match act
    case Whole(a) => x.(run := Follow(cfg, x.run, a))
    case Open(h, keep, prompted, ok) => x.(open := x.open[h := Opened(x.run.state.files, x.run.state.objs, keep, prompted, ok)])
    case Close(h, readable) => if h in x.open then Session(Written(cfg, x.run, x.open[h], readable), x.open - {h}) else x
  }

  /** A staging that writes: the files, and for the simple form the lines taken when it read. */
  function Written(cfg: Config, r: Run, o: Opened, readable: bool): Run {
    Run(r.state.(files := Closed(cfg, r.state.files, o, r.state.now, readable)),
        SpecStage(r.spec, Rewritten(o.files, o.objs, o.prompted, o.ok), Taken(cfg, o.files, o.objs, o.keep, o.prompted, o.ok)))
  }

  function StepAll(cfg: Config, x: Session, acts: seq<Act>): Session
    decreases |acts|
  {
    if acts == [] then x else StepAll(cfg, Step(cfg, x, acts[0]), acts[1..])
  }

  /** A staging that nothing comes between is the one step it is elsewhere. */
  lemma UndisturbedIsWhole(cfg: Config, x: Session, h: nat, keep: nat -> bool, prompted: bool, ok: Readable)
    requires h !in x.open
    ensures Step(cfg, Step(cfg, x, Open(h, keep, prompted, ok)), Close(h, ok.cursor)) == Step(cfg, x, Whole(Stage(keep, prompted, ok)))
  {
    var f := x.run.state.files;
    assert Existing(ReadOf(f, ok.cursor)) == CursorOf(f, ok);
    assert x.open[h := Opened(f, x.run.state.objs, keep, prompted, ok)] - {h} == x.open;
  }

  // ---------------------------------------------------------------------------------------------
  // When a step keeps the count
  // ---------------------------------------------------------------------------------------------

  /** The baseline a staging writes. */
  function BaselineWritten(f: Files, o: Opened, readable: bool): nat {
    if Start(o).Hold? then Baseline(Existing(ReadOf(f, readable)))
    else NewBaseline(Start(o).cursor, Seqno(CursorRead(o)), ComputeDelta(o.objs, Start(o).cursor).reset)
  }

  predicate Restarts(o: Opened) {
    Start(o).From? && ComputeDelta(o.objs, Start(o).cursor).reset
  }

  /** The condition on a staging's write, judged by the files as they are then: the number it read is the one that is there, and,
      once anything was sealed, it starts a generation or its baseline stands where the cursor's does. */
  ghost predicate ClosesInTurn(f: Files, o: Opened, readable: bool) {
    Writes(o.files, o.objs, o.prompted, o.ok) ==>
      && Seqno(CursorRead(o)) == StoredCursor(f).seqno
      && (StoredCursor(f).seqno == 0 || Restarts(o) || SameSide(f, BaselineWritten(f, o, readable)))
  }

  ghost predicate Keeps(x: Session, act: Act) {
    match act
    case Whole(a) => KeepsCount(x.run.state, a)
    case Open(_, _, _, _) => true
    case Close(h, readable) => h in x.open ==> ClosesInTurn(x.run.state.files, x.open[h], readable)
  }

  /** A cursor that was read had a baseline within its number. */
  ghost predicate Sound(o: Opened) {
    var cursor := StoredCursor(o.files); cursor.baseline <= cursor.seqno + 1
  }

  ghost predicate SessionInv(x: Session) {
    RunInv(x.run) && forall h | h in x.open :: Sound(x.open[h])
  }

  /** Chunks sealed with a number that may be stale: good order is kept exactly when number and baseline are right. */
  lemma SealKeepsExactly(r: Run, t: Run, chunks: seq<Chunk>, number: nat, baseline: nat, lost: bool)
    requires RunInv(r) && t.state.files.queue == r.state.files.queue + chunks && t.state.files.stored.Some?
    requires StoredCursor(t.state.files).seqno == number + |chunks| && StoredCursor(t.state.files).baseline == baseline
    requires baseline <= number + 1 && (lost ==> baseline == number + 1)
    requires forall i | 0 <= i < |chunks| :: chunks[i].lines != [] && chunks[i].baseline == baseline && chunks[i].seqno == number + 1 + i
    requires t.spec == SpecStage(r.spec, lost, LinesOf(chunks))
    ensures RunInv(t) <==> number == |r.state.files.queue| && (r.state.files.queue == [] || lost || SameSide(r.state.files, baseline))
  {
    var queue := r.state.files.queue;
    if number == |queue| {
      if queue == [] || lost || SameSide(r.state.files, baseline) { SealingKeepsInv(r, t, chunks, baseline, lost); }
      else { WrongSideBreaks(r, t, chunks, baseline); }
    }
  }

  lemma WrongSideBreaks(r: Run, t: Run, chunks: seq<Chunk>, baseline: nat)
    requires RunInv(r) && t.state.files.queue == r.state.files.queue + chunks && StoredCursor(t.state.files).baseline == baseline
    requires r.state.files.queue != [] && !SameSide(r.state.files, baseline)
    requires forall i | 0 <= i < |chunks| :: chunks[i].lines != [] && chunks[i].baseline == baseline
    requires t.spec == SpecStage(r.spec, false, LinesOf(chunks))
    ensures !RunInv(t)
  {
    var queue := r.state.files.queue;
    var held := Collect(EMPTY, queue);
    HeldBounded(queue);
    LinesOfNonEmpty(chunks);
    CollectConcat(EMPTY, queue, chunks);
    if baseline >= held.baseline {
      CollectPlan(held, chunks, baseline);
      WrongLines(held, r.spec, baseline, chunks);
    } else {
      Ignored(held, chunks, baseline);
    }
  }

  lemma {:induction false} Ignored(o: Object, chunks: seq<Chunk>, baseline: nat)
    requires (forall i | 0 <= i < |chunks| :: chunks[i].baseline == baseline) && baseline < o.baseline
    ensures Collect(o, chunks) == o
    decreases |chunks|
  {
    if chunks != [] { Ignored(o, chunks[..|chunks| - 1], baseline); }
  }

  /** On the wrong side the collector appends what should replace, or replaces with what should be appended. */
  lemma WrongLines(held: Object, spec: Spec, baseline: nat, chunks: seq<Chunk>)
    requires held.lines == spec.lines && held.lines != [] && (LinesOf(chunks) == [] <==> chunks == [])
    requires if spec.rewritten then baseline == held.baseline else baseline > held.baseline
    ensures var after := if chunks == [] then held
                         else if baseline == held.baseline then held.(lines := held.lines + LinesOf(chunks))
                         else Object(baseline, LinesOf(chunks));
            var next := SpecStage(spec, false, LinesOf(chunks));
            || after.lines != next.lines
            || (if next.rewritten then baseline <= after.baseline else baseline != after.baseline)
  {
    var more := LinesOf(chunks);
    assert |held.lines + more| == |held.lines| + |more|;
  }

  lemma OpenedSound(o: Opened)
    requires Sound(o)
    ensures Baseline(CursorRead(o)) <= Seqno(CursorRead(o)) + 1
    ensures Start(o).From? ==> Baseline(Start(o).cursor) == Baseline(CursorRead(o))
  {
  }

  lemma PlanCloses(cfg: Config, r: Run, o: Opened, readable: bool)
    requires RunInv(r) && Sound(o) && GzipBounded(cfg.sizes) && Start(o).From? && PlanFor(cfg, o).newCursor.Some?
    ensures RunInv(Written(cfg, r, o, readable)) <==> ClosesInTurn(r.state.files, o, readable)
  {
    var start, number := Start(o).cursor, Seqno(CursorRead(o));
    var plan := PlanFor(cfg, o);
    PlanCarries(cfg, o.objs, start, number, o.keep);
    OpenedSound(o);
    PlanWritten(cfg, r, o, readable, plan);
    SealKeepsExactly(r, Written(cfg, r, o, readable), plan.chunks, number, BaselineWritten(r.state.files, o, readable), Restarts(o));
  }

  lemma PlanWritten(cfg: Config, r: Run, o: Opened, readable: bool, plan: Plan)
    requires Start(o).From? && plan == PlanFor(cfg, o) && plan.newCursor.Some?
    requires LinesOf(plan.chunks) == Flatten(Cut(cfg, Kept(o.objs, ComputeDelta(o.objs, Start(o).cursor).start, o.keep)).groups)
    ensures var t := Written(cfg, r, o, readable);
            && t.state.files.queue == r.state.files.queue + plan.chunks && t.state.files.stored.Some?
            && StoredCursor(t.state.files) == plan.newCursor.value
            && plan.newCursor.value.baseline == BaselineWritten(r.state.files, o, readable)
            && t.spec == SpecStage(r.spec, Restarts(o), LinesOf(plan.chunks))
            && Writes(o.files, o.objs, o.prompted, o.ok)
  {
    assert o.objs != [];
  }

  lemma NothingWritten(cfg: Config, r: Run, o: Opened, readable: bool)
    requires !Writes(o.files, o.objs, o.prompted, o.ok)
    ensures Written(cfg, r, o, readable).state == r.state && Written(cfg, r, o, readable).spec == r.spec
  {
    if Start(o).From? {
      assert Kept(o.objs, |o.objs|, o.keep) == [];
      assert Cut(cfg, []).groups == [];
    }
  }

  /** A held staging writes no chunk. */
  lemma HeldCloses(cfg: Config, r: Run, o: Opened, readable: bool)
    requires RunInv(r) && Start(o).Hold? && Writes(o.files, o.objs, o.prompted, o.ok)
    ensures RunInv(Written(cfg, r, o, readable)) <==> ClosesInTurn(r.state.files, o, readable)
  {
    var t := Written(cfg, r, o, readable);
    HeldBounded(r.state.files.queue);
    assert t.spec == r.spec;
    assert t.state.files.queue == r.state.files.queue;
  }

  /** Exactly the steps that meet the condition keep number and baseline in agreement with the queue. */
  lemma StepKeepsExactly(cfg: Config, x: Session, act: Act)
    requires SessionInv(x) && GzipBounded(cfg.sizes)
    ensures SessionInv(Step(cfg, x, act)) <==> Keeps(x, act)
  {
    match act
    case Whole(a) => StepKeepsInv(cfg, x.run, a);
    case Open(_, _, _, _) =>
    case Close(h, readable) => if h in x.open { ClosesExactly(cfg, x.run, x.open[h], readable); }
  }

  lemma ClosesExactly(cfg: Config, r: Run, o: Opened, readable: bool)
    requires RunInv(r) && Sound(o) && GzipBounded(cfg.sizes)
    ensures RunInv(Written(cfg, r, o, readable)) <==> ClosesInTurn(r.state.files, o, readable)
  {
    if !Writes(o.files, o.objs, o.prompted, o.ok) {
      NothingWritten(cfg, r, o, readable);
      assert Written(cfg, r, o, readable) == r;
    } else if Start(o).Hold? {
      HeldCloses(cfg, r, o, readable);
    } else {
      PlanCloses(cfg, r, o, readable);
    }
  }

  // ---------------------------------------------------------------------------------------------
  // Runs
  // ---------------------------------------------------------------------------------------------

  ghost predicate AllKeep(cfg: Config, x: Session, acts: seq<Act>)
    decreases |acts|
  {
    acts == [] || (Keeps(x, acts[0]) && AllKeep(cfg, Step(cfg, x, acts[0]), acts[1..]))
  }

  lemma {:induction false} RunsKeepInv(cfg: Config, x: Session, acts: seq<Act>)
    requires SessionInv(x) && GzipBounded(cfg.sizes) && AllKeep(cfg, x, acts)
    ensures SessionInv(StepAll(cfg, x, acts))
    decreases |acts|
  {
    if acts != [] {
      StepKeepsExactly(cfg, x, acts[0]);
      RunsKeepInv(cfg, Step(cfg, x, acts[0]), acts[1..]);
    }
  }

  /** Over any run in which stagings overlap each other, hooks, appends and rewrites in any way, and each step keeps the count:
      the chunks are numbered on from 1, and a collector that receives them in that order holds the lines of the simple form. */
  lemma OverlapEndToEnd(cfg: Config, x: Session, acts: seq<Act>)
    requires GzipBounded(cfg.sizes) && x.run.state.files == NO_FILES && x.run.spec == Spec([], false) && x.open == map[]
    requires AllKeep(cfg, x, acts)
    ensures Promise(StepAll(cfg, x, acts).run)
  {
    RunsKeepInv(cfg, x, acts);
  }

  /** From a state in good order, the promise survives a staging's write for good exactly when it meets the condition. */
  lemma ClosePromisedExactly(cfg: Config, r: Run, o: Opened, readable: bool, x0: Record, x: Record, keep: nat -> bool)
    requires RunInv(r) && Sound(o) && GzipBounded(cfg.sizes) && Limits.AlwaysKeep(keep) && Accepted(cfg.sizes, cfg.envelope, [x])
    requires var t := Written(cfg, r, o, readable); Limits.Unseen(t, x0) && Limits.Unseen(t, x) && x0.uuid != x.uuid
    ensures Limits.Promised(cfg, Written(cfg, r, o, readable)) <==> ClosesInTurn(r.state.files, o, readable)
  {
    ClosesExactly(cfg, r, o, readable);
    Limits.PromisedExactly(cfg, Written(cfg, r, o, readable), x0, x, keep);
  }

  // ---------------------------------------------------------------------------------------------
  // A run that breaks it
  // ---------------------------------------------------------------------------------------------

  lemma StepsFrom(cfg: Config, x: Session, act: Act, next: Session, rest: seq<Act>, t: Session) returns (acts: seq<Act>)
    requires next == Step(cfg, x, act) && StepAll(cfg, next, rest) == t
    ensures StepAll(cfg, x, acts) == t
  {
    acts := [act] + rest;
    assert acts[1..] == rest && acts[0] == act;
  }

  /** Two stagings read the same first record before either writes: both seal it, under one number. */
  lemma OverlapRepeatsNumber(cfg: Config, a: Record, keep: nat -> bool) returns (acts: seq<Act>)
    requires Limits.AlwaysKeep(keep) && a.uuid != "" && Accepted(cfg.sizes, cfg.envelope, [a])
    ensures var t := StepAll(cfg, Session(Limits.AT_FIRST, map[]), acts);
            t.run.state.files.queue == [Chunk([a], 1, false, 0)] + [Chunk([a], 1, false, 0)] && !Promise(t.run)
  {
    var x0 := Session(Limits.AT_FIRST, map[]);
    var x1 := Step(cfg, x0, Whole(Append([a])));
    assert [] + [a] == [a] && x1.run.state.objs == [a] && x1.run.state.files == NO_FILES;
    var x2 := Step(cfg, x1, Open(0, keep, true, ALL));
    var x3 := Step(cfg, x2, Open(1, keep, true, ALL));
    SealsFirst(cfg, x3, 0, a);
    var x4 := Step(cfg, x3, Close(0, true));
    SealsFirst(cfg, x4, 1, a);
    var x5 := Step(cfg, x4, Close(1, true));
    acts := FiveSteps(cfg, x0, Whole(Append([a])), x1, Open(0, keep, true, ALL), x2, Open(1, keep, true, ALL), x3,
                      Close(0, true), x4, Close(1, true), x5);
  }

  lemma FiveSteps(cfg: Config, x0: Session, a1: Act, x1: Session, a2: Act, x2: Session, a3: Act, x3: Session, a4: Act, x4: Session, a5: Act, x5: Session)
    returns (acts: seq<Act>)
    requires x1 == Step(cfg, x0, a1) && x2 == Step(cfg, x1, a2) && x3 == Step(cfg, x2, a3) && x4 == Step(cfg, x3, a4) && x5 == Step(cfg, x4, a5)
    ensures StepAll(cfg, x0, acts) == x5
  {
    acts := StepsFrom(cfg, x4, a5, x5, [], x5);
    acts := StepsFrom(cfg, x3, a4, x4, acts, x5);
    acts := StepsFrom(cfg, x2, a3, x3, acts, x5);
    acts := StepsFrom(cfg, x1, a2, x2, acts, x5);
    acts := StepsFrom(cfg, x0, a1, x1, acts, x5);
  }

  lemma SealsFirst(cfg: Config, x: Session, h: nat, a: Record)
    requires h in x.open && Limits.AlwaysKeep(x.open[h].keep) && a.uuid != "" && Accepted(cfg.sizes, cfg.envelope, [a])
    requires x.open[h].files == NO_FILES && x.open[h].objs == [a] && x.open[h].prompted && x.open[h].ok == ALL
    ensures Step(cfg, x, Close(h, true)).run.state.files.queue == x.run.state.files.queue + [Chunk([a], 1, false, 0)]
    ensures Step(cfg, x, Close(h, true)).open == x.open - {h}
  {
    var o := x.open[h];
    Limits.OnlyCursor(o.files, o.objs);
    Limits.PlanOfOne(cfg, o.objs, None, 0, o.keep, a);
  }
}
