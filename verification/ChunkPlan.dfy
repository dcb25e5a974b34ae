/** The chunk planner: `lastContentUuid`, `computeDelta` and `buildChunkPlan` of
    clients/claude-code/skillmeter/scripts/lib/transcript-delta.js. A line is identified with the record it
    serializes; its size and the size of a compressed body are parameters. */
module ChunkPlan {
  import opened Options
  import opened TurnRouting
  import opened ChunkSplit
  import opened Seqs

  /** The newest content uuid, "" when there is none. */
  function LastContentUuid(objs: seq<Record>): (uuid: string)
    ensures uuid == "" <==> forall o | o in objs :: o.uuid == ""
    ensures uuid != "" ==> exists k | 0 <= k < |objs| :: objs[k].uuid == uuid && forall j | k < j < |objs| :: objs[j].uuid == ""
    decreases |objs|
  {
    if objs == [] then ""
    else if objs[|objs| - 1].uuid != "" then objs[|objs| - 1].uuid
    else LastContentUuid(objs[..|objs| - 1])
  }

  method FindLastContentUuid(objs: seq<Record>) returns (uuid: string)
    ensures uuid == LastContentUuid(objs)
  {
    var i := |objs|;
    Whole(objs);
    while i > 0
      invariant 0 <= i <= |objs|
      invariant LastContentUuid(objs[..i]) == LastContentUuid(objs)
    {
      i := i - 1;
      Snoc(objs, i);
      if objs[i].uuid != "" { return objs[i].uuid; }
    }
    uuid := "";
  }

  /** `findIndex`: the first record with this uuid, or -1. */
  function IndexOf(objs: seq<Record>, uuid: string): (i: int)
    ensures -1 <= i < |objs|
    ensures i >= 0 ==> objs[i].uuid == uuid && forall j | 0 <= j < i :: objs[j].uuid != uuid
    ensures i == -1 ==> forall j | 0 <= j < |objs| :: objs[j].uuid != uuid
    decreases |objs|
  {
    if objs == [] then -1
    else
      var i := IndexOf(objs[..|objs| - 1], uuid);
      if i >= 0 then i else if objs[|objs| - 1].uuid == uuid then |objs| - 1 else -1
  }

  /** Content uuids are distinct. */
  ghost predicate Unique(objs: seq<Record>) {
    forall i, j | 0 <= i < j < |objs| :: objs[i].uuid == "" || objs[i].uuid != objs[j].uuid
  }

  lemma IndexOfAppend(objs: seq<Record>, more: seq<Record>, uuid: string)
    requires IndexOf(objs, uuid) >= 0
    ensures IndexOf(objs + more, uuid) == IndexOf(objs, uuid)
  {
    var i, j := IndexOf(objs, uuid), IndexOf(objs + more, uuid);
    assert (objs + more)[i] == objs[i];
    assert j >= 0;
    assert forall k | 0 <= k < i :: (objs + more)[k] == objs[k];
  }

  /** What staging remembers: the anchor ("" for null), the last chunk number, the generation's baseline. */
  datatype Cursor = Cursor(lastUuid: string, seqno: nat, baseline: nat)

  /** `baseline` 0 stands for a null `resetBaselineSeq`. */
  datatype Chunk = Chunk(lines: seq<Record>, seqno: nat, reset: bool, baseline: nat)

  datatype Plan = Plan(chunks: seq<Chunk>, newCursor: Option<Cursor>, oversized: nat)

  datatype Config = Config(sizes: Sizes<Record>, budget: nat, envelope: nat)

  datatype Delta = Delta(start: nat, reset: bool)

  function ComputeDelta(objs: seq<Record>, cursor: Option<Cursor>): (d: Delta)
    ensures d.start <= |objs|
  {
    if cursor.None? || cursor.value.lastUuid == "" then Delta(0, false)
    else
      var i := IndexOf(objs, cursor.value.lastUuid);
      if i == -1 then Delta(0, true) else Delta(i + 1, false)
  }

  /** The delta records `keep` selects. */
  function Kept(objs: seq<Record>, start: nat, keep: nat -> bool): seq<Record>
    requires start <= |objs|
    decreases |objs|
  {
    if start == |objs| then []
    else
      var n := |objs| - 1;
      Kept(objs[..n], start, keep) + (if keep(n) then [objs[n]] else [])
  }

  predicate NonEmpty(groups: seq<seq<Record>>) {
    forall i | 0 <= i < |groups| :: groups[i] != []
  }

  /** Every budget group split by the envelope, in order. */
  function SplitAll(cfg: Config, groups: seq<seq<Record>>): Split<Record>
    requires NonEmpty(groups)
    decreases |groups|
  {
    if groups == [] then Split([], 0)
    else
      var n := |groups| - 1;
      var before := SplitAll(cfg, groups[..n]);
      var last := SplitByEnvelope(cfg.sizes, cfg.envelope, groups[n]);
      Split(before.groups + last.groups, before.oversized + last.oversized)
  }

  lemma GreedyNonEmpty(cfg: Config, kept: seq<Record>)
    ensures NonEmpty(Greedy(cfg.sizes, cfg.budget, [], kept))
  {
    var groups := Greedy(cfg.sizes, cfg.budget, [], kept);
    GreedyAdmissible(cfg.sizes, cfg.budget, [], kept);
    forall i | 0 <= i < |groups| ensures groups[i] != [] { assert groups[i] in groups; }
  }

  function Cut(cfg: Config, kept: seq<Record>): Split<Record> {
    GreedyNonEmpty(cfg, kept);
    SplitAll(cfg, Greedy(cfg.sizes, cfg.budget, [], kept))
  }

  function Numbered(groups: seq<seq<Record>>, seqStart: nat, reset: bool, baseline: nat): seq<Chunk> {
    seq(|groups|, i requires 0 <= i < |groups| => Chunk(groups[i], seqStart + 1 + i, reset, baseline))
  }

  function NewBaseline(cursor: Option<Cursor>, seqStart: nat, reset: bool): nat {
    if reset then seqStart + 1 else if cursor.Some? then cursor.value.baseline else 0
  }

  /** The plan for a delta: its cut lines numbered on, and the cursor moved past it. */
  function Planned(cursor: Option<Cursor>, seqStart: nat, reset: bool, split: Split<Record>, last: string): Plan {
    var baseline := NewBaseline(cursor, seqStart, reset);
    var anchor := if last != "" then last else if cursor.Some? then cursor.value.lastUuid else "";
    Plan(Numbered(split.groups, seqStart, reset, baseline),
         Some(Cursor(anchor, seqStart + |split.groups|, baseline)),
         split.oversized)
  }

  function PlanOf(cfg: Config, objs: seq<Record>, cursor: Option<Cursor>, seqStart: nat, keep: nat -> bool): Plan {
    var delta := ComputeDelta(objs, cursor);
    if delta.start == |objs| then Plan([], None, 0)
    else Planned(cursor, seqStart, delta.reset, Cut(cfg, Kept(objs, delta.start, keep)), LastContentUuid(objs[delta.start..]))
  }

  method KeepDelta(objs: seq<Record>, start: nat, keep: nat -> bool) returns (kept: seq<Record>)
    requires start <= |objs|
    ensures kept == Kept(objs, start, keep)
  {
    kept := [];
    for i := start to |objs|
      invariant kept == Kept(objs[..i], start, keep)
    {
      assert objs[..i + 1][..i] == objs[..i];
      if keep(i) { kept := kept + [objs[i]]; }
    }
    assert objs[..|objs|] == objs;
  }

  method CutLines(cfg: Config, kept: seq<Record>) returns (groups: seq<seq<Record>>, oversized: nat)
    ensures Split(groups, oversized) == Cut(cfg, kept)
  {
    var budgeted := SplitLinesByBudget(cfg.sizes, kept, cfg.budget);
    GreedyNonEmpty(cfg, kept);
    groups, oversized := [], 0;
    for i := 0 to |budgeted|
      invariant NonEmpty(budgeted[..i])
      invariant Split(groups, oversized) == SplitAll(cfg, budgeted[..i])
    {
      assert budgeted[..i + 1][..i] == budgeted[..i];
      var split := SplitByEnvelope(cfg.sizes, cfg.envelope, budgeted[i]);
      groups := groups + split.groups;
      oversized := oversized + split.oversized;
    }
    assert budgeted[..|budgeted|] == budgeted;
  }

  /** `buildChunkPlan`: filter the delta, cut it by the budget and by the envelope, number the chunks. */
  method BuildChunkPlan(cfg: Config, objs: seq<Record>, cursor: Option<Cursor>, seqStart: nat, keep: nat -> bool)
    returns (plan: Plan)
    ensures plan == PlanOf(cfg, objs, cursor, seqStart, keep)
  {
    var delta := ComputeDelta(objs, cursor);
    if delta.start == |objs| { return Plan([], None, 0); }
    var kept := KeepDelta(objs, delta.start, keep);
    var groups, oversized := CutLines(cfg, kept);
    var last := FindLastContentUuid(objs[delta.start..]);
    plan := AssemblePlan(cursor, seqStart, delta.reset, groups, oversized, last);
  }

  method AssemblePlan(cursor: Option<Cursor>, seqStart: nat, reset: bool, groups: seq<seq<Record>>, oversized: nat, last: string)
    returns (plan: Plan)
    ensures plan == Planned(cursor, seqStart, reset, Split(groups, oversized), last)
  {
    var baseline := if reset then seqStart + 1 else if cursor.Some? then cursor.value.baseline else 0;
    var chunks := NumberChunks(groups, seqStart, reset, baseline);
    var anchor := if last != "" then last else if cursor.Some? then cursor.value.lastUuid else "";
    plan := Plan(chunks, Some(Cursor(anchor, seqStart + |chunks|, baseline)), oversized);
  }

  /** The loop that numbers the chunks on from `seqStart`. */
  method NumberChunks(groups: seq<seq<Record>>, seqStart: nat, reset: bool, baseline: nat) returns (chunks: seq<Chunk>)
    ensures chunks == Numbered(groups, seqStart, reset, baseline)
  {
    var seqno := seqStart;
    chunks := [];
    for i := 0 to |groups|
      invariant seqno == seqStart + i && |chunks| == i
      invariant forall k | 0 <= k < i :: chunks[k] == Chunk(groups[k], seqStart + 1 + k, reset, baseline)
    {
      seqno := seqno + 1;
      chunks := chunks + [Chunk(groups[i], seqno, reset, baseline)];
    }
  }

  // ---------------------------------------------------------------------------------------------
  // What a plan carries
  // ---------------------------------------------------------------------------------------------

  /** The lines of chunks, in order. */
  function LinesOf(chunks: seq<Chunk>): seq<Record>
    decreases |chunks|
  {
    if chunks == [] then [] else LinesOf(chunks[..|chunks| - 1]) + chunks[|chunks| - 1].lines
  }

  lemma {:induction false} LinesOfConcat(a: seq<Chunk>, b: seq<Chunk>)
    ensures LinesOf(a + b) == LinesOf(a) + LinesOf(b)
    decreases |b|
  {
    if b == [] {
      assert a + b == a;
    } else {
      LinesOfConcat(a, b[..|b| - 1]);
      DropLast(a, b);
      Assoc(LinesOf(a), LinesOf(b[..|b| - 1]), b[|b| - 1].lines);
    }
  }

  lemma {:induction false} LinesOfNumbered(groups: seq<seq<Record>>, seqStart: nat, reset: bool, baseline: nat)
    ensures LinesOf(Numbered(groups, seqStart, reset, baseline)) == Flatten(groups)
    decreases |groups|
  {
    if groups != [] {
      var n := |groups| - 1;
      LinesOfNumbered(groups[..n], seqStart, reset, baseline);
      assert Numbered(groups, seqStart, reset, baseline)[..n] == Numbered(groups[..n], seqStart, reset, baseline);
      FlattenLast(groups);
    }
  }

  lemma {:induction false} SplitAllSound(cfg: Config, groups: seq<seq<Record>>)
    requires GzipBounded(cfg.sizes) && NonEmpty(groups)
    ensures SplitOk(cfg.sizes, cfg.envelope, Flatten(groups), SplitAll(cfg, groups))
    decreases |groups|
  {
    if groups != [] {
      var n := |groups| - 1;
      SplitAllSound(cfg, groups[..n]);
      EnvelopeSplitSound(cfg.sizes, cfg.envelope, groups[n]);
      JoinSound(cfg.sizes, cfg.envelope, Flatten(groups[..n]), groups[n], SplitAll(cfg, groups[..n]),
                SplitByEnvelope(cfg.sizes, cfg.envelope, groups[n]));
      FlattenLast(groups);
    } else {
      assert Flatten(groups) == [] && SplitAll(cfg, groups) == Split([], 0);
    }
  }

  lemma FlattenLast<T>(groups: seq<seq<T>>)
    requires groups != []
    ensures Flatten(groups) == Flatten(groups[..|groups| - 1]) + groups[|groups| - 1]
  {
    var n := |groups| - 1;
    assert groups == groups[..n] + [groups[n]];
    FlattenSnoc(groups[..n], [groups[n]], groups[n]);
  }

  lemma FlattenSnoc<T>(front: seq<seq<T>>, last: seq<seq<T>>, group: seq<T>)
    requires last == [group]
    ensures Flatten(front + last) == Flatten(front) + group
  {
    FlattenConcat(front, last);
    FlattenOne(last, group);
  }

  lemma FlattenOne<T>(groups: seq<seq<T>>, group: seq<T>)
    requires groups == [group]
    ensures Flatten(groups) == group
  {
    assert groups[1..] == [];
    assert Flatten(groups) == group + Flatten(groups[1..]);
  }

  /** A plan's chunks carry the kept delta in order, less what no upload could carry, in non-empty groups
      within the envelope, numbered on from `seqStart`, all with the new cursor's baseline. */
  lemma PlanCarries(cfg: Config, objs: seq<Record>, cursor: Option<Cursor>, seqStart: nat, keep: nat -> bool)
    requires GzipBounded(cfg.sizes) && PlanOf(cfg, objs, cursor, seqStart, keep).newCursor.Some?
    ensures var plan := PlanOf(cfg, objs, cursor, seqStart, keep);
            var delta := ComputeDelta(objs, cursor);
            && LinesOf(plan.chunks) == Flatten(Cut(cfg, Kept(objs, delta.start, keep)).groups)
            && Thinned(cfg.sizes, cfg.envelope, Kept(objs, delta.start, keep), LinesOf(plan.chunks), plan.oversized)
            && plan.newCursor.value.seqno == seqStart + |plan.chunks|
            && forall i | 0 <= i < |plan.chunks| ::
                 && plan.chunks[i].lines != []
                 && EnvelopeBytes(cfg.sizes.gzip(plan.chunks[i].lines)) <= cfg.envelope
                 && plan.chunks[i].seqno == seqStart + 1 + i
                 && plan.chunks[i].baseline == plan.newCursor.value.baseline
  {
    var delta := ComputeDelta(objs, cursor);
    var kept := Kept(objs, delta.start, keep);
    CutSound(cfg, kept);
    var split := Cut(cfg, kept);
    assert forall i | 0 <= i < |split.groups| :: split.groups[i] in split.groups;
    LinesOfNumbered(split.groups, seqStart, delta.reset, NewBaseline(cursor, seqStart, delta.reset));
  }

  lemma CutSound(cfg: Config, kept: seq<Record>)
    requires GzipBounded(cfg.sizes)
    ensures SplitOk(cfg.sizes, cfg.envelope, kept, Cut(cfg, kept))
  {
    GreedyNonEmpty(cfg, kept);
    GreedyKeepsLines(cfg.sizes, cfg.budget, [], kept);
    assert [] + kept == kept;
    SplitAllSound(cfg, Greedy(cfg.sizes, cfg.budget, [], kept));
  }
}
