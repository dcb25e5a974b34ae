/** Once a hook has ended an unrecorded period, no later staging sends a record from before its end, whichever
    of the cursor, the signed-out mark and the pending store took the write (transfer.js). */
module Boundary {
  import opened Options
  import opened TurnRouting
  import opened ChunkSplit
  import opened ChunkPlan
  import opened Staging

  /** A boundary a hook placed: when, and the place in the transcript of the newest content it saw. */
  datatype Barrier = Barrier(at: nat, place: int)

  datatype Track = Track(state: State, barriers: seq<Barrier>)

  function Tail(objs: seq<Record>): int {
    PlaceOf(objs, LastContentUuid(objs))
  }

  /** The boundary an action places for this repository. Writing nothing because a later cursor or mark is
      there already counts. */
  function Placed(s: State, act: Action): seq<Barrier> {
    match act
    case Advance(h, onlyWhenMissing, _) =>
      if Ready(s, h) && LastContentUuid(s.looks[h].objs) != "" && !(onlyWhenMissing && s.found[h].Found?) then
        [Barrier(s.now, Tail(s.looks[h].objs))]
      else []
    case SignedOutMark(h) =>
      if h in s.looks && LastContentUuid(s.looks[h].objs) != "" then [Barrier(s.now, Tail(s.looks[h].objs))] else []
    case Pend(h, scope, read) =>
      if h in s.looks && !scope.Elsewhere? && (!read || LastContentUuid(s.looks[h].objs) != "") then
        [Barrier(s.now, Tail(s.looks[h].objs))]
      else []
    case _ => []
  }

  function Follow(cfg: Config, t: Track, act: Action): Track {
    Track(Apply(cfg, t.state, act), t.barriers + Placed(t.state, act))
  }

  function FollowAll(cfg: Config, t: Track, acts: seq<Action>): Track
    decreases |acts|
  {
    if acts == [] then t else FollowAll(cfg, Follow(cfg, t, acts[0]), acts[1..])
  }

  /** The transcript only grows, and its uuids stay distinct. */
  ghost predicate Grows(s: State, act: Action) {
    (act.Append? ==> Unique(s.objs + act.more)) && !act.Rewrite?
  }

  ghost predicate AllGrow(cfg: Config, t: Track, acts: seq<Action>)
    decreases |acts|
  {
    acts == [] || (Grows(t.state, acts[0]) && AllGrow(cfg, Follow(cfg, t, acts[0]), acts[1..]))
  }

  // ---------------------------------------------------------------------------------------------
  // Places
  // ---------------------------------------------------------------------------------------------

  ghost predicate Located(objs: seq<Record>, uuid: string) {
    uuid == "" || IndexOf(objs, uuid) >= 0
  }

  lemma TailIsLast(objs: seq<Record>)
    requires Unique(objs)
    ensures -1 <= Tail(objs) < |objs|
    ensures Located(objs, LastContentUuid(objs))
    ensures LastContentUuid(objs) != "" ==> Tail(objs) >= 0
    ensures forall k | Tail(objs) < k < |objs| :: objs[k].uuid == ""
    ensures forall uuid :: PlaceOf(objs, uuid) <= Tail(objs)
  {
    var last := LastContentUuid(objs);
    if last != "" {
      var k :| 0 <= k < |objs| && objs[k].uuid == last && forall j | k < j < |objs| :: objs[j].uuid == "";
      assert IndexOf(objs, last) == k;
    } else {
      forall k | 0 <= k < |objs| ensures objs[k].uuid == "" { assert objs[k] in objs; }
    }
  }

  /** Content found in a transcript keeps its place when the transcript grows. */
  lemma PlaceStays(objs: seq<Record>, longer: seq<Record>, uuid: string)
    requires objs <= longer && Located(objs, uuid)
    ensures PlaceOf(longer, uuid) == PlaceOf(objs, uuid) && Located(longer, uuid)
  {
    assert longer == objs + longer[|objs|..];
    if uuid != "" { IndexOfAppend(objs, longer[|objs|..], uuid); }
  }

  lemma PrefixUnique(objs: seq<Record>, longer: seq<Record>)
    requires objs <= longer && Unique(longer)
    ensures Unique(objs)
  {
  }

  lemma {:induction false} FurthestBounds(objs: seq<Record>, known: seq<Boundary>, i: nat)
    requires i < |known|
    ensures Furthest(objs, known) >= PlaceOf(objs, known[i].lastUuid)
    decreases |known|
  {
    if i < |known| - 1 { FurthestBounds(objs, known[..|known| - 1], i); }
  }

  lemma {:induction false} LatestBounds(known: seq<Boundary>) returns (i: int)
    ensures -1 <= i < |known|
    ensures if i >= 0 then known[i].at == Latest(known) else Latest(known) == 0
    decreases |known|
  {
    if known == [] {
      i := -1;
    } else {
      i := LatestBounds(known[..|known| - 1]);
      if known[|known| - 1].at > Latest(known[..|known| - 1]) { i := |known| - 1; }
    }
  }

  ghost predicate Counts(e: Entry) {
    !e.scope.Elsewhere?
  }

  lemma {:induction false} PositionedHas(entries: seq<Entry>, i: nat)
    requires i < |entries| && Counts(entries[i]) && entries[i].lastUuid != ""
    ensures Boundary(entries[i].lastUuid, entries[i].at) in Positioned(entries)
    decreases |entries|
  {
    if i < |entries| - 1 { PositionedHas(entries[..|entries| - 1], i); }
  }

  lemma {:induction false} UnpositionedHas(entries: seq<Entry>, i: nat)
    requires i < |entries| && Counts(entries[i]) && entries[i].lastUuid == ""
    ensures entries[i].at in Unpositioned(entries)
    decreases |entries|
  {
    if i < |entries| - 1 { UnpositionedHas(entries[..|entries| - 1], i); }
  }

  lemma {:induction false} PositionedFrom(entries: seq<Entry>, b: Boundary) returns (i: nat)
    requires b in Positioned(entries)
    ensures i < |entries| && Counts(entries[i]) && b == Boundary(entries[i].lastUuid, entries[i].at) && b.lastUuid != ""
    decreases |entries|
  {
    var n := |entries| - 1;
    if b in Positioned(entries[..n]) { i := PositionedFrom(entries[..n], b); } else { i := n; }
  }

  // ---------------------------------------------------------------------------------------------
  // Invariants
  // ---------------------------------------------------------------------------------------------

  /** What holds in both modes. */
  ghost predicate Base(t: Track) {
    var s, f := t.state, t.state.files;
    && Unique(s.objs)
    && (forall h | h in s.looks :: s.looks[h].objs <= s.objs && s.looks[h].at <= s.now)
    && (f.stored.Some? ==> Located(s.objs, f.stored.value.cursor.lastUuid) && f.stored.value.updatedAt <= s.now)
    && (f.mark.Some? ==>
          && f.mark.value.lastUuid != "" && Located(s.objs, f.mark.value.lastUuid)
          && PlaceOf(s.objs, f.mark.value.lastUuid) < f.mark.value.size <= |s.objs|
          && (forall k | PlaceOf(s.objs, f.mark.value.lastUuid) < k < f.mark.value.size :: s.objs[k].uuid == "")
          && f.mark.value.updatedAt <= s.now)
    && (forall i | 0 <= i < |f.pending| :: Located(s.objs, f.pending[i].lastUuid) && f.pending[i].at <= s.now)
    && (forall i, j | 0 <= i <= j < |f.pending| :: f.pending[i].at <= f.pending[j].at)
    && (forall i | 0 <= i < |t.barriers| :: Standing(s, t.barriers[i]))
  }

  /** A boundary lies at content, or before the first. */
  ghost predicate Standing(s: State, b: Barrier) {
    b.at <= s.now && -1 <= b.place <= Tail(s.objs) && b.place < |s.objs| && (b.place >= 0 ==> s.objs[b.place].uuid != "")
  }

  function StoredPlace(s: State): int {
    if s.files.stored.Some? then PlaceOf(s.objs, s.files.stored.value.cursor.lastUuid) else -1
  }

  function MarkPlace(s: State): int {
    if s.files.mark.Some? then PlaceOf(s.objs, s.files.mark.value.lastUuid) else -1
  }

  ghost predicate EntryCovers(s: State, i: int, b: Barrier) {
    && 0 <= i < |s.files.pending| && Counts(s.files.pending[i])
    && s.files.pending[i].at >= b.at
    && (s.files.pending[i].lastUuid == "" || PlaceOf(s.objs, s.files.pending[i].lastUuid) >= b.place)
  }

  /** Some store accounts for the boundary: by a place that far, or, in the pending store, by its time. */
  ghost predicate Covered(s: State, b: Barrier) {
    || (s.files.stored.Some? && s.files.stored.value.updatedAt >= b.at && StoredPlace(s) >= b.place)
    || (s.files.mark.Some? && s.files.mark.value.updatedAt >= b.at && MarkPlace(s) >= b.place)
    || (exists i :: EntryCovers(s, i, b))
  }

  /** Everything written after a boundary lies at least as far. */
  ghost predicate LaterIsFurther(s: State, b: Barrier) {
    && (s.files.stored.Some? && s.files.stored.value.updatedAt > b.at ==> StoredPlace(s) >= b.place)
    && (s.files.mark.Some? && s.files.mark.value.updatedAt > b.at ==> MarkPlace(s) >= b.place)
    && (forall i | 0 <= i < |s.files.pending| ::
          s.files.pending[i].at > b.at && s.files.pending[i].lastUuid != "" ==>
            PlaceOf(s.objs, s.files.pending[i].lastUuid) >= b.place)
  }

  ghost predicate PromptInv(t: Track) {
    forall i | 0 <= i < |t.barriers| :: Covered(t.state, t.barriers[i]) && LaterIsFurther(t.state, t.barriers[i])
  }

  ghost predicate EntryReaches(s: State, i: int, place: int) {
    && 0 <= i < |s.files.pending| && Counts(s.files.pending[i]) && s.files.pending[i].lastUuid != ""
    && PlaceOf(s.objs, s.files.pending[i].lastUuid) >= place
  }

  /** The mark or a pending entry reaches this far. */
  ghost predicate OtherReaches(s: State, place: int) {
    MarkPlace(s) >= place || exists i :: EntryReaches(s, i, place)
  }

  ghost predicate Reached(s: State, place: int) {
    StoredPlace(s) >= place || OtherReaches(s, place)
  }

  /** A hook that looked after the cursor or the mark was written saw at least as far as they reach. */
  ghost predicate LateInv(t: Track) {
    var s, f := t.state, t.state.files;
    && (forall h | h in s.looks ::
          && (f.stored.Some? && f.stored.value.updatedAt < s.looks[h].at ==> StoredPlace(s) < |s.looks[h].objs|)
          && (f.mark.Some? && f.mark.value.updatedAt < s.looks[h].at ==> f.mark.value.size <= |s.looks[h].objs|))
    && (forall i | 0 <= i < |f.pending| && Counts(f.pending[i]) :: f.pending[i].lastUuid != "")
    && (forall i | 0 <= i < |t.barriers| :: Reached(s, t.barriers[i].place))
  }

  /** The anchor a plan leaves: the newest content of the delta, or what it started from. */
  function Anchor(objs: seq<Record>, start: Option<Cursor>): string {
    var last := LastContentUuid(objs[ComputeDelta(objs, start).start..]);
    if last != "" then last else if start.Some? then start.value.lastUuid else ""
  }

  lemma TailIs(objs: seq<Record>, k: int)
    requires Unique(objs) && -1 <= k < |objs| && (k >= 0 ==> objs[k].uuid != "")
    requires forall j | k < j < |objs| :: objs[j].uuid == ""
    ensures Tail(objs) == k
    ensures k >= 0 ==> IndexOf(objs, objs[k].uuid) == k
  {
    TailIsLast(objs);
    if k >= 0 { assert PlaceOf(objs, objs[k].uuid) == k; }
  }

  /** Where the first newest content of a suffix lies. */
  lemma SuffixTail(objs: seq<Record>, from: nat) returns (k: int)
    requires from <= |objs|
    ensures LastContentUuid(objs[from..]) != "" ==> from <= k < |objs| && objs[k].uuid == LastContentUuid(objs[from..])
    ensures LastContentUuid(objs[from..]) == "" ==> k == from - 1
    ensures forall j | k < j < |objs| :: objs[j].uuid == ""
  {
    var delta := objs[from..];
    if LastContentUuid(delta) != "" {
      var i :| 0 <= i < |delta| && delta[i].uuid == LastContentUuid(delta) && forall j | i < j < |delta| :: delta[j].uuid == "";
      k := from + i;
      forall j | k < j < |objs| ensures objs[j].uuid == "" { assert objs[j] == delta[j - from]; }
    } else {
      k := from - 1;
      forall j | k < j < |objs| ensures objs[j].uuid == "" { assert objs[j] == delta[j - from] && delta[j - from] in delta; }
    }
  }

  lemma AnchorIsTail(objs: seq<Record>, start: Option<Cursor>)
    requires Unique(objs) && (start.Some? ==> Located(objs, start.value.lastUuid))
    ensures Located(objs, Anchor(objs, start)) && PlaceOf(objs, Anchor(objs, start)) == Tail(objs)
  {
    var from := ComputeDelta(objs, start).start;
    var k := SuffixTail(objs, from);
    TailIs(objs, k);
  }

  /** What staging does to the cursor: nothing, or it moves to the newest content. */
  lemma StageStored(cfg: Config, s: State, keep: nat -> bool, prompted: bool, ok: Readable)
    requires Unique(s.objs)
    requires s.files.stored.Some? ==> Located(s.objs, s.files.stored.value.cursor.lastUuid)
    ensures var f := Staged(cfg, s.files, s.objs, s.now, keep, prompted, ok);
            && f.mark == s.files.mark && f.pending == s.files.pending
            && (f == s.files
                || (f.stored.Some? && f.stored.value.updatedAt == s.now
                    && Located(s.objs, f.stored.value.cursor.lastUuid)
                    && PlaceOf(s.objs, f.stored.value.cursor.lastUuid) == Tail(s.objs)))
  {
    TailIsLast(s.objs);
    var start := StartOf(s.files, s.objs, prompted, ok);
    if start.From? {
      StartLocated(s.files, s.objs, ok);
      AnchorIsTail(s.objs, start.cursor);
      PlanEndsAtAnchor(cfg, s.objs, start.cursor, Seqno(CursorOf(s.files, ok)), keep);
    }
  }

  lemma PlanEndsAtAnchor(cfg: Config, objs: seq<Record>, start: Option<Cursor>, seqno: nat, keep: nat -> bool)
    ensures var plan := PlanOf(cfg, objs, start, seqno, keep);
            plan.newCursor.Some? ==> plan.newCursor.value.lastUuid == Anchor(objs, start)
  {
  }

  lemma StartLocated(f: Files, objs: seq<Record>, ok: Readable)
    requires Unique(objs) && LiveDeltaStart(f, objs, ok).From?
    requires f.stored.Some? ==> Located(objs, f.stored.value.cursor.lastUuid)
    ensures var start := LiveDeltaStart(f, objs, ok).cursor;
            start.Some? ==> Located(objs, start.value.lastUuid) && PlaceOf(objs, start.value.lastUuid) >= Furthest(objs, Known(f, ok))
    ensures LiveDeltaStart(f, objs, ok).cursor.None? ==> Furthest(objs, Known(f, ok)) == -1
  {
    var furthest := Furthest(objs, Known(f, ok));
    if furthest >= 0 {
      FurthestIsContent(objs, Known(f, ok));
      assert IndexOf(objs, objs[furthest].uuid) == furthest;
    }
  }

  lemma {:induction false} FurthestIsContent(objs: seq<Record>, known: seq<Boundary>)
    requires Furthest(objs, known) >= 0
    ensures objs[Furthest(objs, known)].uuid != ""
    decreases |known|
  {
    if PlaceOf(objs, known[|known| - 1].lastUuid) != Furthest(objs, known) { FurthestIsContent(objs, known[..|known| - 1]); }
  }

  // ---- The transcript grows ----

  /** Every place a store holds stays where it is. */
  lemma AppendPlaces(t: Track, more: seq<Record>)
    requires Base(t) && Unique(t.state.objs + more)
    ensures var s := t.state; var u := s.(objs := s.objs + more);
            && Base(t.(state := u))
            && StoredPlace(u) == StoredPlace(s) && MarkPlace(u) == MarkPlace(s)
            && forall i | 0 <= i < |s.files.pending| ::
                 PlaceOf(u.objs, s.files.pending[i].lastUuid) == PlaceOf(s.objs, s.files.pending[i].lastUuid)
  {
    var s, f := t.state, t.state.files;
    var longer := s.objs + more;
    TailIsLast(longer);
    PlaceStays(s.objs, longer, LastContentUuid(s.objs)) by { TailIsLast(s.objs); }
    if f.stored.Some? { PlaceStays(s.objs, longer, f.stored.value.cursor.lastUuid); }
    if f.mark.Some? { PlaceStays(s.objs, longer, f.mark.value.lastUuid); }
    forall i | 0 <= i < |f.pending|
      ensures PlaceOf(longer, f.pending[i].lastUuid) == PlaceOf(s.objs, f.pending[i].lastUuid) && Located(longer, f.pending[i].lastUuid)
    {
      PlaceStays(s.objs, longer, f.pending[i].lastUuid);
    }
  }

  /** Facts about boundaries depend only on the files and on the places in them. */
  lemma SamePlaces(s: State, u: State)
    requires u.files == s.files && StoredPlace(u) == StoredPlace(s) && MarkPlace(u) == MarkPlace(s)
    requires forall i | 0 <= i < |s.files.pending| ::
               PlaceOf(u.objs, s.files.pending[i].lastUuid) == PlaceOf(s.objs, s.files.pending[i].lastUuid)
    ensures forall b :: Covered(s, b) ==> Covered(u, b)
    ensures forall b :: LaterIsFurther(s, b) ==> LaterIsFurther(u, b)
    ensures forall place :: Reached(s, place) ==> Reached(u, place)
  {
    forall b, i | EntryCovers(s, i, b) ensures EntryCovers(u, i, b) {}
    forall place | Reached(s, place) ensures Reached(u, place) {
      if i :| EntryReaches(s, i, place) { assert EntryReaches(u, i, place); }
    }
    forall b | Covered(s, b) ensures Covered(u, b) {
      if i :| EntryCovers(s, i, b) { assert EntryCovers(u, i, b); }
    }
  }

  // ---- A hook writes the cursor ----

  /** The tail a hook saw is no further than the tail there is, and keeps its place. */
  lemma LookTail(t: Track, h: nat)
    requires Base(t) && h in t.state.looks
    ensures var last := LastContentUuid(t.state.looks[h].objs);
            && Located(t.state.objs, last)
            && PlaceOf(t.state.objs, last) == Tail(t.state.looks[h].objs)
            && -1 <= Tail(t.state.looks[h].objs) <= Tail(t.state.objs)
            && Tail(t.state.looks[h].objs) < |t.state.looks[h].objs|
            && (last != "" ==> Tail(t.state.looks[h].objs) >= 0)
  {
    var look := t.state.looks[h];
    PrefixUnique(look.objs, t.state.objs);
    TailIsLast(look.objs);
    TailIsLast(t.state.objs);
    PlaceStays(look.objs, t.state.objs, LastContentUuid(look.objs));
  }

  /** Content missing in what a hook saw was written after it; content within it is no further than its tail. */
  lemma SeenOrLater(t: Track, h: nat, uuid: string)
    requires Base(t) && h in t.state.looks && uuid != "" && IndexOf(t.state.objs, uuid) >= 0
    ensures var look := t.state.looks[h].objs;
            if IndexOf(look, uuid) == -1 then PlaceOf(t.state.objs, uuid) >= |look| else PlaceOf(t.state.objs, uuid) <= Tail(look)
  {
    var look := t.state.looks[h].objs;
    var i := IndexOf(t.state.objs, uuid);
    PrefixUnique(look, t.state.objs);
    TailIsLast(look);
    assert forall j | 0 <= j < |look| :: look[j] == t.state.objs[j];
    if IndexOf(look, uuid) >= 0 { PlaceStays(look, t.state.objs, uuid); }
  }

  /** Where a step of a hook writes the cursor, when it does. */
  predicate WritesCursor(s: State, act: Action) {
    match act
    case Advance(h, onlyWhenMissing, readable) => Ready(s, h) && Advances(s.files, s.found[h], s.looks[h], onlyWhenMissing, readable)
    case Begin(h, prompt, _) => Ready(s, h) && Begins(s.found[h], s.looks[h], prompt)
    case _ => false
  }

  function WrittenPlace(s: State, act: Action): int
    requires WritesCursor(s, act)
  {
    PlaceOf(s.objs, if act.Advance? then LastContentUuid(s.looks[act.hook].objs) else BeginAnchor(s.looks[act.hook].objs, act.prompt).value)
  }

  /** Only the cursor differs, and it was written now. */
  ghost predicate CursorNow(s: State, u: State) {
    && u == s.(files := s.files.(stored := u.files.stored)) && u.files.stored.Some?
    && u.files.stored.value.updatedAt == s.now && Located(s.objs, u.files.stored.value.cursor.lastUuid)
  }

  /** What a hook writes lies in the transcript: at the tail it saw, or before a turn it saw. */
  lemma HookCursor(cfg: Config, t: Track, act: Action)
    requires Base(t) && WritesCursor(t.state, act)
    ensures var u := Apply(cfg, t.state, act); CursorNow(t.state, u) && StoredPlace(u) == WrittenPlace(t.state, act)
  {
    LookTail(t, act.hook);
    if act.Begin? { AnchorLocated(t, act.hook, act.prompt); }
  }

  lemma AnchorLocated(t: Track, h: nat, prompt: string)
    requires Base(t) && h in t.state.looks && BeginAnchor(t.state.looks[h].objs, prompt).Some?
    ensures Located(t.state.objs, BeginAnchor(t.state.looks[h].objs, prompt).value)
  {
    var look := t.state.looks[h].objs;
    var before := BeforePrompt(look, prompt);
    assert before <= look;
    PrefixUnique(look, t.state.objs);
    PrefixUnique(before, look);
    TailIsLast(before);
    PlaceStays(before, t.state.objs, LastContentUuid(before));
  }

  // ---- Base ----

  lemma CursorKeepsBase(t: Track, u: Track)
    requires Base(t) && CursorNow(t.state, u.state)
    requires forall i | 0 <= i < |u.barriers| :: Standing(u.state, u.barriers[i])
    ensures Base(u)
  {
  }

  lemma BarriersWithinTail(t: Track, u: Track)
    requires Base(t) && u.state.objs == t.state.objs && u.state.now == t.state.now
    requires t.barriers <= u.barriers
    requires forall i | |t.barriers| <= i < |u.barriers| :: Standing(t.state, u.barriers[i])
    ensures forall i | 0 <= i < |u.barriers| :: Standing(u.state, u.barriers[i])
  {
    forall i | 0 <= i < |u.barriers| ensures Standing(u.state, u.barriers[i]) {
      assert i < |t.barriers| ==> u.barriers[i] == t.barriers[i];
    }
  }

  /** The boundary a hook places is the tail it saw. */
  lemma PlacedNow(cfg: Config, t: Track, act: Action)
    requires Base(t) && (act.Advance? || act.SignedOutMark? || act.Pend? || act.Begin?)
    ensures var u := Follow(cfg, t, act);
            && t.barriers <= u.barriers
            && forall i | |t.barriers| <= i < |u.barriers| ::
                 act.hook in t.state.looks && u.barriers[i] == Barrier(t.state.now, Tail(t.state.looks[act.hook].objs))
                 && Standing(t.state, u.barriers[i])
  {
    if act.hook in t.state.looks { LookStands(t, act.hook); }
    assert forall b | b in Placed(t.state, act) :: b == Barrier(t.state.now, Tail(t.state.looks[act.hook].objs));
  }

  lemma LookStands(t: Track, h: nat)
    requires Base(t) && h in t.state.looks
    ensures Standing(t.state, Barrier(t.state.now, Tail(t.state.looks[h].objs)))
  {
    LookTail(t, h);
  }

  lemma HookKeepsBase(cfg: Config, t: Track, act: Action)
    requires Base(t) && (act.Advance? || act.Begin?)
    ensures Base(Follow(cfg, t, act))
  {
    var u := Follow(cfg, t, act);
    PlacedNow(cfg, t, act);
    if WritesCursor(t.state, act) {
      HookCursor(cfg, t, act);
      BarriersWithinTail(t, u);
      CursorKeepsBase(t, u);
    } else {
      assert u.state == t.state;
      BarriersWithinTail(t, u);
    }
  }

  lemma StageKeepsBase(cfg: Config, t: Track, keep: nat -> bool, prompted: bool, ok: Readable)
    requires Base(t)
    ensures Base(Follow(cfg, t, Stage(keep, prompted, ok)))
  {
    StageStored(cfg, t.state, keep, prompted, ok);
    CursorMoved(t, Follow(cfg, t, Stage(keep, prompted, ok)));
  }

  lemma CursorMoved(t: Track, u: Track)
    requires Base(t) && u.barriers == t.barriers
    requires u.state == t.state.(files := u.state.files) && u.state.files.mark == t.state.files.mark && u.state.files.pending == t.state.files.pending
    requires u.state.files.stored.Some? ==>
               Located(u.state.objs, u.state.files.stored.value.cursor.lastUuid) && u.state.files.stored.value.updatedAt <= u.state.now
    ensures Base(u)
  {
  }

  /** A mark written lies in the transcript, and nothing with content follows it within the size it records. */
  lemma MarkPlaced(t: Track, h: nat)
    requires Base(t) && h in t.state.looks && LastContentUuid(t.state.looks[h].objs) != ""
    ensures var s := t.state;
            var u := s.(files := SignedOutMarked(s.files, s.looks[h], s.now));
            && u.files.mark.Some?
            && (u.files == s.files || (u.files.mark.value.updatedAt == s.now && MarkPlace(u) == Tail(s.looks[h].objs)
                                       && u.files.mark.value.size == |s.looks[h].objs|))
            && u.files.mark.value.lastUuid != "" && Located(s.objs, u.files.mark.value.lastUuid)
            && MarkPlace(u) < u.files.mark.value.size <= |s.objs|
            && forall k | MarkPlace(u) < k < u.files.mark.value.size :: s.objs[k].uuid == ""
  {
    var s := t.state;
    var look := s.looks[h].objs;
    LookTail(t, h);
    PrefixUnique(look, s.objs);
    TailIsLast(look);
    assert forall k | 0 <= k < |look| :: look[k] == s.objs[k];
  }

  lemma MarkKeepsBase(cfg: Config, t: Track, h: nat)
    requires Base(t) && h in t.state.looks && LastContentUuid(t.state.looks[h].objs) != ""
    ensures Base(Follow(cfg, t, SignedOutMark(h)))
  {
    PlacedNow(cfg, t, SignedOutMark(h));
    MarkPlaced(t, h);
    BarriersWithinTail(t, Follow(cfg, t, SignedOutMark(h)));
  }

  lemma PendIs(cfg: Config, t: Track, h: nat, scope: Scope, read: bool, last: string)
    requires h in t.state.looks && last == LastContentUuid(t.state.looks[h].objs) && (!read || last != "")
    ensures var s := t.state;
            var u := Follow(cfg, t, Pend(h, scope, read));
            && u.state == s.(files := s.files.(pending := s.files.pending + [Entry(scope, s.now, if read then last else "")]))
            && u.barriers == t.barriers + (if Counts(Entry(scope, 0, "")) then [Barrier(s.now, Tail(s.looks[h].objs))] else [])
  {
  }

  lemma EntryKeepsBase(t: Track, u: Track, e: Entry)
    requires Base(t) && e.at == t.state.now && Located(t.state.objs, e.lastUuid)
    requires u.state == t.state.(files := t.state.files.(pending := t.state.files.pending + [e]))
    requires forall i | 0 <= i < |u.barriers| :: Standing(u.state, u.barriers[i])
    ensures Base(u)
  {
  }

  lemma PendKeepsBase(cfg: Config, t: Track, h: nat, scope: Scope, read: bool)
    requires Base(t) && h in t.state.looks && (!read || LastContentUuid(t.state.looks[h].objs) != "")
    ensures Base(Follow(cfg, t, Pend(h, scope, read)))
  {
    var u := Follow(cfg, t, Pend(h, scope, read));
    var last := LastContentUuid(t.state.looks[h].objs);
    PendIs(cfg, t, h, scope, read, last);
    LookTail(t, h);
    PlacedNow(cfg, t, Pend(h, scope, read));
    BarriersWithinTail(t, u);
    EntryKeepsBase(t, u, Entry(scope, t.state.now, if read then last else ""));
  }

  /** Whatever hooks and stagings do, places stay within a growing transcript. */
  lemma FollowKeepsBase(cfg: Config, t: Track, act: Action)
    requires Base(t) && Grows(t.state, act)
    ensures Base(Follow(cfg, t, act))
  {
    var u := Follow(cfg, t, act);
    match act {
      case Append(more) => AppendPlaces(t, more);
      case Advance(_, _, _) => HookKeepsBase(cfg, t, act);
      case Begin(_, _, _) => HookKeepsBase(cfg, t, act);
      case Stage(keep, prompted, ok) => StageKeepsBase(cfg, t, keep, prompted, ok);
      case SignedOutMark(h) =>
        if Placed(t.state, act) != [] { MarkKeepsBase(cfg, t, h); } else { assert u == t; }
      case Pend(h, scope, read) =>
        if h in t.state.looks && (!read || LastContentUuid(t.state.looks[h].objs) != "") {
          PendKeepsBase(cfg, t, h, scope, read);
        } else {
          assert u == t;
        }
      case ReadCursor(_, _) => QuietKeepsBase(t, u);
      case TakeLook(h) => QuietKeepsBase(t, u);
      case Tick(_) => QuietKeepsBase(t, u);
      case Rewrite(_) =>
    }
  }

  /** Neither the transcript nor a file changes. */
  lemma QuietKeepsBase(t: Track, u: Track)
    requires Base(t) && u.barriers == t.barriers && u.state.objs == t.state.objs && u.state.files == t.state.files && u.state.now >= t.state.now
    requires forall h | h in u.state.looks ::
               (h in t.state.looks && u.state.looks[h] == t.state.looks[h]) || u.state.looks[h] == Look(t.state.now, t.state.objs)
    ensures Base(u)
  {
    forall i | 0 <= i < |u.barriers| ensures Standing(u.state, u.barriers[i]) { assert Standing(t.state, t.barriers[i]); }
  }

  lemma {:induction false} FollowAllKeepsBase(cfg: Config, t: Track, acts: seq<Action>)
    requires Base(t) && AllGrow(cfg, t, acts)
    ensures Base(FollowAll(cfg, t, acts))
    decreases |acts|
  {
    if acts != [] {
      FollowKeepsBase(cfg, t, acts[0]);
      FollowAllKeepsBase(cfg, Follow(cfg, t, acts[0]), acts[1..]);
    }
  }

  // ---------------------------------------------------------------------------------------------
  // Two ways of keeping every boundary
  // ---------------------------------------------------------------------------------------------

  /** Late: hooks may write long after they looked, but every boundary has a position; what is promised of a staging supposes
      that it can read every store. Prompt: hooks write what they see now, but any store may be unreadable whenever a
      transcript is staged, and a boundary may have no position. */
  datatype Mode = Late | Prompt

  predicate FromHook(act: Action) {
    act.Advance? || act.Begin? || act.SignedOutMark? || act.Pend?
  }

  ghost predicate Inv(mode: Mode, t: Track) {
    Base(t) && (if mode.Prompt? then PromptInv(t) else LateInv(t))
  }

  /** A cursor written at this place leaves no boundary behind: none lies beyond it but those the mark or an entry reaches. */
  ghost predicate LeavesNone(t: Track, place: int) {
    forall i | 0 <= i < |t.barriers| :: t.barriers[i].place <= place || OtherReaches(t.state, t.barriers[i].place)
  }

  /** What a hook sees now: the transcript as it is, and whether there is a cursor. */
  predicate SeesNow(s: State, h: nat) {
    && (h in s.looks ==> s.looks[h] == Look(s.now, s.objs))
    && (h in s.found ==> s.found[h] == ReadOf(s.files, true) || s.found[h] == ReadOf(s.files, false))
  }

  /** A transcript is begun at or beyond every boundary placed before. */
  ghost predicate BeginsBeyond(t: Track, place: int) {
    forall i | 0 <= i < |t.barriers| && t.barriers[i].at < t.state.now :: t.barriers[i].place <= place
  }

  /** The condition on a step. A late write of the cursor is judged where the source checks nothing again: for a cursor judged
      missing before the look, or one that cannot be read. */
  ghost predicate Legal(mode: Mode, t: Track, act: Action) {
    && Grows(t.state, act)
    && match mode
       case Late =>
         && (act.Pend? ==> act.read)
         && (WritesCursor(t.state, act) && (act.Begin? || act.onlyWhenMissing || !act.readable) ==>
               LeavesNone(t, WrittenPlace(t.state, act)))
       case Prompt =>
         && (FromHook(act) ==> SeesNow(t.state, act.hook))
         && (act.Begin? && WritesCursor(t.state, act) ==> BeginsBeyond(t, WrittenPlace(t.state, act)))
  }

  ghost predicate AllLegal(cfg: Config, mode: Mode, t: Track, acts: seq<Action>)
    decreases |acts|
  {
    acts == [] || (Legal(mode, t, acts[0]) && AllLegal(cfg, mode, Follow(cfg, t, acts[0]), acts[1..]))
  }

  lemma AppendKeepsInv(cfg: Config, mode: Mode, t: Track, more: seq<Record>)
    requires Inv(mode, t) && Unique(t.state.objs + more)
    ensures Inv(mode, Follow(cfg, t, Append(more)))
  {
    var u := Follow(cfg, t, Append(more));
    AppendPlaces(t, more);
    SamePlaces(t.state, u.state);
    assert u == t.(state := u.state);
  }

  // ---- The cursor is written ----

  /** A write of the cursor that keeps every boundary of a late run. */
  lemma CursorKeepsLate(t: Track, u: Track)
    requires Inv(Late, t) && CursorNow(t.state, u.state) && LeavesNone(t, StoredPlace(u.state))
    requires t.barriers <= u.barriers
    requires forall i | |t.barriers| <= i < |u.barriers| :: u.barriers[i].place <= StoredPlace(u.state)
    ensures LateInv(u)
  {
    OthersStay(t.state, u.state);
    forall i | 0 <= i < |u.barriers| ensures Reached(u.state, u.barriers[i].place) {
      if i < |t.barriers| {
        assert u.barriers[i] == t.barriers[i];
      }
    }
  }

  lemma OthersStay(s: State, u: State)
    requires u.objs == s.objs && u.files.mark == s.files.mark && u.files.pending == s.files.pending
    ensures forall place :: OtherReaches(s, place) <==> OtherReaches(u, place)
    ensures forall b, i :: EntryCovers(s, i, b) <==> EntryCovers(u, i, b)
  {
    forall place, i ensures EntryReaches(s, i, place) <==> EntryReaches(u, i, place) {}
    forall place ensures OtherReaches(s, place) <==> OtherReaches(u, place) {
      if i :| EntryReaches(s, i, place) { assert EntryReaches(u, i, place); }
      if i :| EntryReaches(u, i, place) { assert EntryReaches(s, i, place); }
    }
  }

  /** A write of the cursor that keeps every boundary of a prompt run. */
  lemma CursorKeepsPrompt(t: Track, u: Track)
    requires Inv(Prompt, t) && CursorNow(t.state, u.state)
    requires StoredPlace(u.state) == Tail(t.state.objs) || (t.state.files.stored.None? && BeginsBeyond(t, StoredPlace(u.state)))
    requires t.barriers <= u.barriers
    requires forall i | |t.barriers| <= i < |u.barriers| :: u.barriers[i].at == t.state.now && u.barriers[i].place <= StoredPlace(u.state)
    ensures PromptInv(u)
  {
    OthersStay(t.state, u.state);
    forall i | 0 <= i < |u.barriers| ensures Covered(u.state, u.barriers[i]) && LaterIsFurther(u.state, u.barriers[i]) {
      if i < |t.barriers| {
        assert u.barriers[i] == t.barriers[i] && Covered(t.state, t.barriers[i]) && LaterIsFurther(t.state, t.barriers[i]);
        if j :| EntryCovers(t.state, j, t.barriers[i]) { assert EntryCovers(u.state, j, u.barriers[i]); }
      }
    }
  }

  /** A tail boundary that checks again at the write never moves the cursor back. */
  lemma CheckedNotBehind(t: Track, h: nat)
    requires Inv(Late, t) && Ready(t.state, h) && LastContentUuid(t.state.looks[h].objs) != ""
    ensures if WrittenSince(t.state.files.stored, t.state.looks[h]) then StoredPlace(t.state) >= Tail(t.state.looks[h].objs)
            else StoredPlace(t.state) <= Tail(t.state.looks[h].objs)
  {
    var s := t.state;
    LookTail(t, h);
    if s.files.stored.Some? && s.files.stored.value.cursor.lastUuid != "" { SeenOrLater(t, h, s.files.stored.value.cursor.lastUuid); }
  }

  lemma HookKeepsLate(cfg: Config, t: Track, act: Action)
    requires Inv(Late, t) && (act.Advance? || act.Begin?) && WritesCursor(t.state, act)
    requires LeavesNone(t, WrittenPlace(t.state, act))
    ensures LateInv(Follow(cfg, t, act))
  {
    PlacedNow(cfg, t, act);
    HookCursor(cfg, t, act);
    if act.Advance? { LookTail(t, act.hook); }
    CursorKeepsLate(t, Follow(cfg, t, act));
  }

  lemma AdvanceKeepsLate(cfg: Config, t: Track, h: nat, onlyWhenMissing: bool, readable: bool)
    requires Inv(Late, t) && Legal(Late, t, Advance(h, onlyWhenMissing, readable))
    ensures LateInv(Follow(cfg, t, Advance(h, onlyWhenMissing, readable)))
  {
    var act := Advance(h, onlyWhenMissing, readable);
    if WritesCursor(t.state, act) {
      if !onlyWhenMissing && readable { CheckedWriteLeavesNone(t, h); }
      HookKeepsLate(cfg, t, act);
    } else {
      StayedKeepsLate(cfg, t, h, onlyWhenMissing, readable);
    }
  }

  lemma CheckedWriteLeavesNone(t: Track, h: nat)
    requires Inv(Late, t) && WritesCursor(t.state, Advance(h, false, true))
    ensures LeavesNone(t, WrittenPlace(t.state, Advance(h, false, true)))
  {
    CheckedNotBehind(t, h);
    LookTail(t, h);
    forall i | 0 <= i < |t.barriers|
      ensures t.barriers[i].place <= WrittenPlace(t.state, Advance(h, false, true)) || OtherReaches(t.state, t.barriers[i].place)
    {
      assert Reached(t.state, t.barriers[i].place);
    }
  }

  lemma StayedKeepsLate(cfg: Config, t: Track, h: nat, onlyWhenMissing: bool, readable: bool)
    requires Inv(Late, t) && !WritesCursor(t.state, Advance(h, onlyWhenMissing, readable))
    ensures LateInv(Follow(cfg, t, Advance(h, onlyWhenMissing, readable)))
  {
    var u := Follow(cfg, t, Advance(h, onlyWhenMissing, readable));
    assert u.state == t.state;
    if Placed(t.state, Advance(h, onlyWhenMissing, readable)) != [] {
      CheckedNotBehind(t, h);
      assert u.barriers == t.barriers + [Barrier(t.state.now, Tail(t.state.looks[h].objs))];
    }
  }

  lemma BeginKeepsLate(cfg: Config, t: Track, h: nat, prompt: string, readable: bool)
    requires Inv(Late, t) && Legal(Late, t, Begin(h, prompt, readable))
    ensures LateInv(Follow(cfg, t, Begin(h, prompt, readable)))
  {
    if WritesCursor(t.state, Begin(h, prompt, readable)) { HookKeepsLate(cfg, t, Begin(h, prompt, readable)); }
    else { assert Follow(cfg, t, Begin(h, prompt, readable)) == t; }
  }

  lemma HookKeepsPrompt(cfg: Config, t: Track, act: Action)
    requires Inv(Prompt, t) && Legal(Prompt, t, act) && (act.Advance? || act.Begin?)
    ensures PromptInv(Follow(cfg, t, act))
  {
    var s, u := t.state, Follow(cfg, t, act);
    PlacedNow(cfg, t, act);
    if WritesCursor(s, act) {
      HookCursor(cfg, t, act);
      CursorKeepsPrompt(t, u);
    } else {
      assert u.state == s;
      if act.Advance? && Ready(s, act.hook) && s.files.stored.Some? && s.files.stored.value.cursor.lastUuid != "" {
        assert IndexOf(s.objs, s.files.stored.value.cursor.lastUuid) >= 0;
      }
      assert u.barriers == t.barriers;
    }
  }

  lemma StageKeepsInv(cfg: Config, mode: Mode, t: Track, keep: nat -> bool, prompted: bool, ok: Readable)
    requires Inv(mode, t)
    ensures Inv(mode, Follow(cfg, t, Stage(keep, prompted, ok)))
  {
    var u := Follow(cfg, t, Stage(keep, prompted, ok));
    StageStored(cfg, t.state, keep, prompted, ok);
    if u.state.files == t.state.files {
      assert u == t;
    } else {
      var v := Track(t.state.(files := t.state.files.(stored := u.state.files.stored)), t.barriers);
      TailKeepsInv(mode, t, v);
      OnlyQueueDiffers(mode, v, u);
    }
  }

  /** The cursor is written at the end of the transcript. */
  lemma TailKeepsInv(mode: Mode, t: Track, u: Track)
    requires Inv(mode, t) && u.barriers == t.barriers && CursorNow(t.state, u.state) && StoredPlace(u.state) == Tail(t.state.objs)
    ensures Inv(mode, u)
  {
    CursorKeepsBase(t, u);
    if mode.Prompt? {
      CursorKeepsPrompt(t, u);
    } else {
      TailLeavesNone(t);
      CursorKeepsLate(t, u);
    }
  }

  lemma TailLeavesNone(t: Track)
    requires Base(t)
    ensures LeavesNone(t, Tail(t.state.objs))
  {
    forall i | 0 <= i < |t.barriers| ensures t.barriers[i].place <= Tail(t.state.objs) { assert Standing(t.state, t.barriers[i]); }
  }

  lemma OnlyQueueDiffers(mode: Mode, v: Track, u: Track)
    requires Inv(mode, v) && u.barriers == v.barriers
    requires u.state == v.state.(files := v.state.files.(queue := u.state.files.queue))
    ensures Inv(mode, u)
  {
    OthersStay(v.state, u.state);
    CursorMoved(v, u);
    if mode.Prompt? {
      forall i | 0 <= i < |u.barriers| ensures Covered(u.state, u.barriers[i]) {
        assert Covered(v.state, v.barriers[i]);
        if j :| EntryCovers(v.state, j, v.barriers[i]) { assert EntryCovers(u.state, j, u.barriers[i]); }
      }
    } else {
      forall i | 0 <= i < |u.barriers| ensures Reached(u.state, u.barriers[i].place) {
        assert Reached(v.state, v.barriers[i].place);
      }
    }
  }

  // ---- The transcript is marked signed out, or a pending boundary recorded ----

  /** The mark never moves back, and accounts for what the hook saw: a longer transcript ends no earlier. */
  lemma MarkMoves(t: Track, h: nat)
    requires Base(t) && h in t.state.looks && LastContentUuid(t.state.looks[h].objs) != ""
    requires LateInv(t) || t.state.looks[h] == Look(t.state.now, t.state.objs)
    ensures var s := t.state;
            var u := s.(files := SignedOutMarked(s.files, s.looks[h], s.now));
            && u.files.mark.Some? && MarkPlace(s) <= MarkPlace(u) && Tail(s.looks[h].objs) <= MarkPlace(u)
            && (u.files != s.files ==> u.files.mark.value.updatedAt == s.now)
            && (s.looks[h] == Look(s.now, s.objs) ==> u.files.mark.value.updatedAt == s.now)
  {
    var s := t.state;
    var look := s.looks[h].objs;
    LookTail(t, h);
    PrefixUnique(look, s.objs);
    TailIsLast(look);
    TailIsLast(s.objs);
    assert forall k | 0 <= k < |look| :: look[k] == s.objs[k];
    var tail := Tail(look);
    assert s.objs[tail].uuid == LastContentUuid(look);
    if s.files.mark.Some? && s.files.mark.value.size <= |look| {
      var uuid := s.files.mark.value.lastUuid;
      assert s.objs[MarkPlace(s)].uuid == uuid;
      assert look[MarkPlace(s)].uuid == uuid;
      assert MarkPlace(s) <= tail;
    }
  }

  /** Entries already there keep doing what they do. */
  lemma MoreEntries(s: State, u: State)
    requires u.objs == s.objs && s.files.pending <= u.files.pending && u.files.stored == s.files.stored
    requires u.files.mark == s.files.mark || (u.files.mark.Some? && MarkPlace(u) >= MarkPlace(s) && u.files.mark.value.updatedAt >= u.now
                                              && (s.files.mark.Some? ==> s.files.mark.value.updatedAt <= u.now))
    ensures forall b :: Covered(s, b) ==> Covered(u, b)
    ensures forall place :: Reached(s, place) ==> Reached(u, place)
  {
    forall b | Covered(s, b) ensures Covered(u, b) {
      if i :| EntryCovers(s, i, b) { assert EntryCovers(u, i, b); }
    }
    forall place | Reached(s, place) ensures Reached(u, place) {
      if i :| EntryReaches(s, i, place) { assert EntryReaches(u, i, place); }
    }
  }

  lemma MarkKeepsPrompt(cfg: Config, t: Track, h: nat)
    requires Inv(Prompt, t) && h in t.state.looks && t.state.looks[h] == Look(t.state.now, t.state.objs)
    requires LastContentUuid(t.state.objs) != ""
    ensures PromptInv(Follow(cfg, t, SignedOutMark(h)))
  {
    var s := t.state;
    var u := Follow(cfg, t, SignedOutMark(h));
    LookTail(t, h);
    MarkMoves(t, h);
    MoreEntries(s, u.state);
    forall i | 0 <= i < |u.barriers| ensures Covered(u.state, u.barriers[i]) && LaterIsFurther(u.state, u.barriers[i]) {
      if i < |t.barriers| { assert Covered(s, t.barriers[i]) && LaterIsFurther(s, t.barriers[i]); }
    }
  }

  lemma MarkKeepsLate(cfg: Config, t: Track, h: nat)
    requires Inv(Late, t) && h in t.state.looks && LastContentUuid(t.state.looks[h].objs) != ""
    ensures LateInv(Follow(cfg, t, SignedOutMark(h)))
  {
    var s := t.state;
    var u := Follow(cfg, t, SignedOutMark(h));
    MarkMoves(t, h);
    MoreEntries(s, u.state);
    forall i | 0 <= i < |u.barriers| ensures Reached(u.state, u.barriers[i].place) {
      if i < |t.barriers| { assert Reached(s, t.barriers[i].place); }
    }
  }

  lemma PendKeepsPrompt(cfg: Config, t: Track, h: nat, scope: Scope, read: bool)
    requires Inv(Prompt, t) && h in t.state.looks && t.state.looks[h] == Look(t.state.now, t.state.objs)
    requires !read || LastContentUuid(t.state.looks[h].objs) != ""
    ensures PromptInv(Follow(cfg, t, Pend(h, scope, read)))
  {
    var s := t.state;
    var u := Follow(cfg, t, Pend(h, scope, read));
    PendIs(cfg, t, h, scope, read, LastContentUuid(s.looks[h].objs));
    LookTail(t, h);
    MoreEntries(s, u.state);
    EntryAddedPrompt(t, u, Entry(scope, s.now, if read then LastContentUuid(s.looks[h].objs) else ""), Tail(s.objs));
  }

  lemma EntryAddedPrompt(t: Track, u: Track, e: Entry, place: int)
    requires Base(t) && PromptInv(t) && e.at == t.state.now && (e.lastUuid == "" || PlaceOf(t.state.objs, e.lastUuid) == place)
    requires place == Tail(t.state.objs)
    requires u.state == t.state.(files := t.state.files.(pending := t.state.files.pending + [e]))
    requires u.barriers == t.barriers + (if Counts(e) then [Barrier(t.state.now, place)] else [])
    requires forall b :: Covered(t.state, b) ==> Covered(u.state, b)
    ensures PromptInv(u)
  {
    var n := |t.state.files.pending|;
    forall i | 0 <= i < |u.barriers| ensures Covered(u.state, u.barriers[i]) && LaterIsFurther(u.state, u.barriers[i]) {
      if i < |t.barriers| {
        assert Covered(t.state, t.barriers[i]) && LaterIsFurther(t.state, t.barriers[i]) && Standing(t.state, t.barriers[i]);
        PendedFurther(t.state, u.state, t.barriers[i], e);
      } else {
        assert EntryCovers(u.state, n, u.barriers[i]);
      }
    }
  }

  lemma PendedFurther(s: State, u: State, b: Barrier, e: Entry)
    requires LaterIsFurther(s, b) && u == s.(files := s.files.(pending := s.files.pending + [e]))
    requires e.lastUuid != "" ==> PlaceOf(s.objs, e.lastUuid) >= b.place
    ensures LaterIsFurther(u, b)
  {
  }

  lemma PendKeepsLate(cfg: Config, t: Track, h: nat, scope: Scope)
    requires Inv(Late, t) && h in t.state.looks && LastContentUuid(t.state.looks[h].objs) != ""
    ensures LateInv(Follow(cfg, t, Pend(h, scope, true)))
  {
    var s := t.state;
    var u := Follow(cfg, t, Pend(h, scope, true));
    PendIs(cfg, t, h, scope, true, LastContentUuid(s.looks[h].objs));
    LookTail(t, h);
    MoreEntries(s, u.state);
    EntryAdded(t, u, Entry(scope, s.now, LastContentUuid(s.looks[h].objs)), Tail(s.looks[h].objs));
  }

  lemma EntryAdded(t: Track, u: Track, e: Entry, place: int)
    requires LateInv(t) && e.lastUuid != "" && PlaceOf(t.state.objs, e.lastUuid) == place
    requires u.state == t.state.(files := t.state.files.(pending := t.state.files.pending + [e]))
    requires u.barriers == t.barriers + (if Counts(e) then [Barrier(t.state.now, place)] else [])
    requires forall p :: Reached(t.state, p) ==> Reached(u.state, p)
    ensures LateInv(u)
  {
    var n := |t.state.files.pending|;
    forall i | 0 <= i < |u.barriers| ensures Reached(u.state, u.barriers[i].place) {
      if i < |t.barriers| { assert Reached(t.state, t.barriers[i].place); }
      else { assert EntryReaches(u.state, n, u.barriers[i].place); }
    }
  }

  // ---- Every legal step ----

  lemma LateStep(cfg: Config, t: Track, act: Action)
    requires Inv(Late, t) && Legal(Late, t, act)
    ensures Inv(Late, Follow(cfg, t, act))
  {
    FollowKeepsBase(cfg, t, act);
    var u := Follow(cfg, t, act);
    match act {
      case Append(more) => AppendKeepsInv(cfg, Late, t, more);
      case Advance(h, onlyWhenMissing, readable) => AdvanceKeepsLate(cfg, t, h, onlyWhenMissing, readable);
      case Begin(h, prompt, readable) => BeginKeepsLate(cfg, t, h, prompt, readable);
      case Stage(keep, prompted, ok) => StageKeepsInv(cfg, Late, t, keep, prompted, ok);
      case SignedOutMark(h) =>
        if Placed(t.state, act) != [] { MarkKeepsLate(cfg, t, h); } else { assert u == t; }
      case Pend(h, scope, read) =>
        if h in t.state.looks && LastContentUuid(t.state.looks[h].objs) != "" { PendKeepsLate(cfg, t, h, scope); } else { assert u == t; }
      case ReadCursor(_, _) => SamePlaces(t.state, u.state);
      case TakeLook(h) => SamePlaces(t.state, u.state);
      case Tick(_) => SamePlaces(t.state, u.state);
      case Rewrite(_) =>
    }
  }

  lemma PromptStep(cfg: Config, t: Track, act: Action)
    requires Inv(Prompt, t) && Legal(Prompt, t, act)
    ensures Inv(Prompt, Follow(cfg, t, act))
  {
    FollowKeepsBase(cfg, t, act);
    var u := Follow(cfg, t, act);
    match act {
      case Append(more) => AppendKeepsInv(cfg, Prompt, t, more);
      case Advance(_, _, _) => HookKeepsPrompt(cfg, t, act);
      case Begin(_, _, _) => HookKeepsPrompt(cfg, t, act);
      case Stage(keep, prompted, ok) => StageKeepsInv(cfg, Prompt, t, keep, prompted, ok);
      case SignedOutMark(h) =>
        if Placed(t.state, act) != [] { MarkKeepsPrompt(cfg, t, h); } else { assert u == t; }
      case Pend(h, scope, read) =>
        if h in t.state.looks && (!read || LastContentUuid(t.state.looks[h].objs) != "") { PendKeepsPrompt(cfg, t, h, scope, read); }
        else { assert u == t; }
      case ReadCursor(_, _) => SamePlaces(t.state, u.state);
      case TakeLook(h) => SamePlaces(t.state, u.state);
      case Tick(_) => SamePlaces(t.state, u.state);
      case Rewrite(_) =>
    }
  }

  lemma {:induction false} FollowAllKeepsInv(cfg: Config, mode: Mode, t: Track, acts: seq<Action>)
    requires Inv(mode, t) && AllLegal(cfg, mode, t, acts)
    ensures Inv(mode, FollowAll(cfg, t, acts))
    decreases |acts|
  {
    if acts != [] {
      if mode.Prompt? { PromptStep(cfg, t, acts[0]); } else { LateStep(cfg, t, acts[0]); }
      FollowAllKeepsInv(cfg, mode, Follow(cfg, t, acts[0]), acts[1..]);
    }
  }
  // ---------------------------------------------------------------------------------------------
  // What staging does with the boundaries
  // ---------------------------------------------------------------------------------------------

  lemma InKnown(objs: seq<Record>, known: seq<Boundary>, b: Boundary)
    requires b in known
    ensures Furthest(objs, known) >= PlaceOf(objs, b.lastUuid)
  {
    var i :| 0 <= i < |known| && known[i] == b;
    FurthestBounds(objs, known, i);
  }

  /** Something written after the boundary can be placed, so the delta starts at least as far. */
  lemma LaterKnown(t: Track, ok: Readable, b: Barrier)
    requires Base(t) && LaterIsFurther(t.state, b) && Latest(Known(t.state.files, ok)) > b.at
    ensures Furthest(t.state.objs, Known(t.state.files, ok)) >= b.place
  {
    var f := t.state.files;
    var known := Known(f, ok);
    var i := LatestBounds(known);
    FurthestBounds(t.state.objs, known, i);
    if known[i] in Positioned(f.pending) {
      var j := PositionedFrom(f.pending, known[i]);
      assert f.pending[j].at > b.at;
    }
  }

  /** A store that accounts for a boundary either is placed that far, or makes staging hold until something
      later is known. */
  lemma CoveredGuards(t: Track, ok: Readable, b: Barrier)
    requires Base(t) && Covered(t.state, b) && LaterIsFurther(t.state, b)
    ensures Holds(t.state.files, ok) || Furthest(t.state.objs, Known(t.state.files, ok)) >= b.place
  {
    var s, f := t.state, t.state.files;
    var known, unplaced := Known(f, ok), Unplaced(f, ok);
    if Latest(known) > b.at {
      LaterKnown(t, ok, b);
    } else if f.stored.Some? && f.stored.value.updatedAt >= b.at && StoredPlace(s) >= b.place {
      if ok.cursor { InKnown(s.objs, known, Boundary(f.stored.value.cursor.lastUuid, f.stored.value.updatedAt)); }
      else { assert unplaced[0] >= Latest(known); }
    } else if f.mark.Some? && f.mark.value.updatedAt >= b.at && MarkPlace(s) >= b.place {
      if ok.mark { InKnown(s.objs, known, Boundary(f.mark.value.lastUuid, f.mark.value.updatedAt)); }
      else { HoldsOn(f, ok, f.mark.value.updatedAt); }
    } else {
      var i :| EntryCovers(s, i, b);
      if !ok.pending {
        HoldsOn(f, ok, f.pending[|f.pending| - 1].at);
      } else if f.pending[i].lastUuid == "" {
        UnpositionedHas(f.pending, i);
        HoldsOn(f, ok, f.pending[i].at);
      } else {
        PositionedHas(f.pending, i);
        InKnown(s.objs, known, Boundary(f.pending[i].lastUuid, f.pending[i].at));
      }
    }
  }

  lemma HoldsOn(f: Files, ok: Readable, at: nat)
    requires at in Unplaced(f, ok) && at >= Latest(Known(f, ok))
    ensures Holds(f, ok)
  {
  }

  lemma ReachedGuards(t: Track, place: int)
    requires Base(t) && Reached(t.state, place) && place >= 0
    ensures Furthest(t.state.objs, Known(t.state.files, ALL)) >= place
  {
    var s, f := t.state, t.state.files;
    var known := Known(f, ALL);
    if StoredPlace(s) >= place {
      InKnown(s.objs, known, Boundary(f.stored.value.cursor.lastUuid, f.stored.value.updatedAt));
    } else if MarkPlace(s) >= place {
      InKnown(s.objs, known, Boundary(f.mark.value.lastUuid, f.mark.value.updatedAt));
    } else {
      var i :| EntryReaches(s, i, place);
      PositionedHas(f.pending, i);
      InKnown(s.objs, known, Boundary(f.pending[i].lastUuid, f.pending[i].at));
    }
  }

  lemma {:induction false} ThinnedWithin(cfg: Config, full: seq<Record>, got: seq<Record>, n: nat, r: Record)
    requires Thinned(cfg.sizes, cfg.envelope, full, got, n) && r in got
    ensures r in full
    decreases |full|
  {
    if full != [] {
      if got[0] == full[0] && Thinned(cfg.sizes, cfg.envelope, full[1..], got[1..], n) {
        if r != got[0] { ThinnedWithin(cfg, full[1..], got[1..], n, r); }
      } else {
        ThinnedWithin(cfg, full[1..], got, n - 1, r);
      }
    }
  }

  lemma {:induction false} NotThinnedOut(cfg: Config, full: seq<Record>, got: seq<Record>, n: nat, r: Record)
    requires Thinned(cfg.sizes, cfg.envelope, full, got, n) && r in full && Accepted(cfg.sizes, cfg.envelope, [r])
    ensures r in got
    decreases |full|
  {
    if got != [] && got[0] == full[0] && Thinned(cfg.sizes, cfg.envelope, full[1..], got[1..], n) {
      if r != full[0] { NotThinnedOut(cfg, full[1..], got[1..], n, r); }
    } else {
      assert r in full[1..];
      NotThinnedOut(cfg, full[1..], got, n - 1, r);
    }
  }

  lemma {:induction false} KeptHas(objs: seq<Record>, start: nat, keep: nat -> bool, k: nat)
    requires start <= k < |objs| && keep(k)
    ensures objs[k] in Kept(objs, start, keep)
    decreases |objs|
  {
    if k < |objs| - 1 {
      assert objs[..|objs| - 1][k] == objs[k];
      KeptHas(objs[..|objs| - 1], start, keep, k);
    }
  }

  /** Only what `keep` selects is kept: with distinct uuids a record kept was selected at its own place. */
  lemma {:induction false} KeptWas(objs: seq<Record>, start: nat, keep: nat -> bool, r: Record)
    requires start <= |objs| && r in Kept(objs, start, keep)
    ensures exists k | start <= k < |objs| :: objs[k] == r && keep(k)
    decreases |objs|
  {
    var n := |objs| - 1;
    if r in Kept(objs[..n], start, keep) {
      KeptWas(objs[..n], start, keep, r);
      var k :| start <= k < n && objs[..n][k] == r && keep(k);
      assert objs[k] == r;
    }
  }

  /** A live delta starts right after the furthest boundary that can be placed. */
  lemma StartsAfterFurthest(f: Files, objs: seq<Record>, ok: Readable)
    requires Unique(objs) && LiveDeltaStart(f, objs, ok).From?
    requires f.stored.Some? ==> Located(objs, f.stored.value.cursor.lastUuid)
    ensures ComputeDelta(objs, LiveDeltaStart(f, objs, ok).cursor) == Delta(Furthest(objs, Known(f, ok)) + 1, false)
  {
    var known := Known(f, ok);
    var furthest := Furthest(objs, known);
    if f.stored.Some? && ok.cursor {
      assert known[0].lastUuid == f.stored.value.cursor.lastUuid;
      FurthestBounds(objs, known, 0);
    }
    if furthest >= 0 {
      FurthestIsContent(objs, known);
      assert IndexOf(objs, objs[furthest].uuid) == furthest;
    }
  }

  /** Staging is kept from a place: it holds, or starts beyond it. */
  predicate Guarded(f: Files, objs: seq<Record>, prompted: bool, ok: Readable, place: int) {
    StartOf(f, objs, prompted, ok).Hold? || Furthest(objs, Known(f, ok)) >= place
  }

  /** A record with content is sealed exactly when the staging is not kept from it and keeps it, provided it fits alone; one
      that does not fit is sealed in no other case either. */
  lemma SealsExactly(cfg: Config, s: State, keep: nat -> bool, prompted: bool, ok: Readable, k: nat)
    requires GzipBounded(cfg.sizes) && Unique(s.objs) && k < |s.objs| && s.objs[k].uuid != ""
    requires s.files.stored.Some? ==> Located(s.objs, s.files.stored.value.cursor.lastUuid)
    ensures var queue := Staged(cfg, s.files, s.objs, s.now, keep, prompted, ok).queue;
            && s.files.queue <= queue
            && (s.objs[k] in LinesOf(queue[|s.files.queue|..]) ==> !Guarded(s.files, s.objs, prompted, ok, k) && keep(k))
            && (Accepted(cfg.sizes, cfg.envelope, [s.objs[k]]) ==>
                  (s.objs[k] in LinesOf(queue[|s.files.queue|..]) <==> !Guarded(s.files, s.objs, prompted, ok, k) && keep(k)))
  {
    var f, objs := s.files, s.objs;
    var delta := StartOf(f, objs, prompted, ok);
    if delta.From? {
      var plan := PlanOf(cfg, objs, delta.cursor, Seqno(CursorOf(f, ok)), keep);
      StagedQueue(cfg, s, keep, prompted, ok, plan);
      StartsAfterFurthest(f, objs, ok);
      PlanSealsExactly(cfg, objs, delta.cursor, Seqno(CursorOf(f, ok)), keep, Furthest(objs, Known(f, ok)) + 1, k);
    } else {
      HeldQueue(cfg, s, keep, prompted, ok);
    }
  }

  lemma StagedQueue(cfg: Config, s: State, keep: nat -> bool, prompted: bool, ok: Readable, plan: Plan)
    requires var delta := StartOf(s.files, s.objs, prompted, ok);
             delta.From? && plan == PlanOf(cfg, s.objs, delta.cursor, Seqno(CursorOf(s.files, ok)), keep)
    ensures var queue := Staged(cfg, s.files, s.objs, s.now, keep, prompted, ok).queue;
            s.files.queue <= queue && queue[|s.files.queue|..] == plan.chunks
  {
    assert plan.newCursor.None? ==> plan.chunks == [];
    assert s.files.queue + [] == s.files.queue;
  }

  lemma HeldQueue(cfg: Config, s: State, keep: nat -> bool, prompted: bool, ok: Readable)
    requires StartOf(s.files, s.objs, prompted, ok).Hold?
    ensures var queue := Staged(cfg, s.files, s.objs, s.now, keep, prompted, ok).queue;
            queue == s.files.queue && LinesOf(queue[|s.files.queue|..]) == []
  {
  }

  lemma PlanSealsExactly(cfg: Config, objs: seq<Record>, start: Option<Cursor>, seqno: nat, keep: nat -> bool, from: nat, k: nat)
    requires GzipBounded(cfg.sizes) && Unique(objs) && k < |objs| && objs[k].uuid != ""
    requires ComputeDelta(objs, start) == Delta(from, false)
    ensures var lines := LinesOf(PlanOf(cfg, objs, start, seqno, keep).chunks);
            && (objs[k] in lines ==> k >= from && keep(k))
            && (k >= from && keep(k) && Accepted(cfg.sizes, cfg.envelope, [objs[k]]) ==> objs[k] in lines)
  {
    var plan := PlanOf(cfg, objs, start, seqno, keep);
    if plan.newCursor.Some? {
      PlanCarries(cfg, objs, start, seqno, keep);
      CarriedExactly(cfg, objs, from, keep, LinesOf(plan.chunks), plan.oversized, k);
    }
  }

  lemma CarriedExactly(cfg: Config, objs: seq<Record>, from: nat, keep: nat -> bool, lines: seq<Record>, n: nat, k: nat)
    requires Unique(objs) && from <= |objs| && k < |objs| && objs[k].uuid != ""
    requires Thinned(cfg.sizes, cfg.envelope, Kept(objs, from, keep), lines, n)
    ensures objs[k] in lines ==> k >= from && keep(k)
    ensures k >= from && keep(k) && Accepted(cfg.sizes, cfg.envelope, [objs[k]]) ==> objs[k] in lines
  {
    if objs[k] in lines {
      ThinnedWithin(cfg, Kept(objs, from, keep), lines, n, objs[k]);
      KeptWas(objs, from, keep, objs[k]);
    }
    if k >= from && keep(k) && Accepted(cfg.sizes, cfg.envelope, [objs[k]]) {
      KeptHas(objs, from, keep, k);
      NotThinnedOut(cfg, Kept(objs, from, keep), lines, n, objs[k]);
    }
  }

  /** The chunks a staging adds carry the record. */
  ghost predicate Seals(cfg: Config, s: State, stage: Action, r: Record)
    requires stage.Stage?
  {
    var queue := Apply(cfg, s, stage).files.queue;
    !(s.files.queue <= queue) || r in LinesOf(queue[|s.files.queue|..])
  }

  lemma SealsUnlessGuarded(cfg: Config, s: State, stage: Action, k: nat)
    requires GzipBounded(cfg.sizes) && Unique(s.objs) && k < |s.objs| && s.objs[k].uuid != "" && stage.Stage?
    requires s.files.stored.Some? ==> Located(s.objs, s.files.stored.value.cursor.lastUuid)
    ensures Seals(cfg, s, stage, s.objs[k]) ==> !Guarded(s.files, s.objs, stage.prompted, stage.ok, k) && stage.keep(k)
    ensures Accepted(cfg.sizes, cfg.envelope, [s.objs[k]]) && stage.keep(k) ==>
              (Seals(cfg, s, stage, s.objs[k]) <==> !Guarded(s.files, s.objs, stage.prompted, stage.ok, k))
  {
    SealsExactly(cfg, s, stage.keep, stage.prompted, stage.ok, k);
  }

  // ---------------------------------------------------------------------------------------------
  // The results
  // ---------------------------------------------------------------------------------------------

  /** After any run of a growing transcript, however late hooks write and whatever stores cannot be read: content that is kept
      and fits is sealed exactly when the files, as they can be read then, neither hold staging nor place a boundary at or
      beyond it. */
  lemma SealedExactly(cfg: Config, s: State, acts: seq<Action>, stage: Action, k: nat)
    requires GzipBounded(cfg.sizes) && stage.Stage?
    requires Unique(s.objs) && s.looks == map[] && s.files == NO_FILES && AllGrow(cfg, Track(s, []), acts)
    requires var t := FollowAll(cfg, Track(s, []), acts).state;
             && k < |t.objs| && t.objs[k].uuid != "" && stage.keep(k) && Accepted(cfg.sizes, cfg.envelope, [t.objs[k]])
    ensures var t := FollowAll(cfg, Track(s, []), acts).state;
            Seals(cfg, t, stage, t.objs[k]) <==> !Guarded(t.files, t.objs, stage.prompted, stage.ok, k)
  {
    var t := FollowAll(cfg, Track(s, []), acts);
    FollowAllKeepsBase(cfg, Track(s, []), acts);
    SealsUnlessGuarded(cfg, t.state, stage, k);
  }

  /** The guarantee, over every legal run and every staging after it: no content at or before a boundary
      placed earlier is sealed, whichever store took the write, whichever stores cannot be read (when hooks
      write what they see), and however late hooks write (when this staging can read the stores). */
  lemma NothingBeforeABoundary(cfg: Config, mode: Mode, s: State, acts: seq<Action>, stage: Action, i: nat, k: nat)
    requires GzipBounded(cfg.sizes)
    requires Unique(s.objs) && s.looks == map[] && s.files == NO_FILES
    requires AllLegal(cfg, mode, Track(s, []), acts)
    requires var t := FollowAll(cfg, Track(s, []), acts);
             && stage.Stage? && (mode.Late? ==> stage.ok == ALL)
             && i < |t.barriers| && k <= t.barriers[i].place && k < |t.state.objs| && t.state.objs[k].uuid != ""
    ensures var t := FollowAll(cfg, Track(s, []), acts);
            !Seals(cfg, t.state, stage, t.state.objs[k])
  {
    var t := FollowAll(cfg, Track(s, []), acts);
    assert Inv(mode, Track(s, []));
    FollowAllKeepsInv(cfg, mode, Track(s, []), acts);
    if mode.Prompt? { CoveredGuards(t, stage.ok, t.barriers[i]); } else { ReachedGuards(t, t.barriers[i].place); }
    SealsUnlessGuarded(cfg, t.state, stage, k);
  }
}
