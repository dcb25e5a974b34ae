/** When a write of the cursor keeps every boundary, exactly, and three runs in which one is lost (transfer.js). */
module BoundaryLimits {
  import opened Options
  import opened TurnRouting
  import opened ChunkSplit
  import opened ChunkPlan
  import opened Staging
  import opened Guarding = Boundary

  // ---------------------------------------------------------------------------------------------
  // A late write of the cursor
  // ---------------------------------------------------------------------------------------------

  /** The furthest place is that of some boundary. */
  lemma {:induction false} FurthestOne(objs: seq<Record>, known: seq<Boundary>) returns (i: int)
    requires Furthest(objs, known) >= 0
    ensures 0 <= i < |known| && PlaceOf(objs, known[i].lastUuid) == Furthest(objs, known)
    decreases |known|
  {
    var n := |known| - 1;
    if PlaceOf(objs, known[n].lastUuid) == Furthest(objs, known) { i := n; } else { i := FurthestOne(objs, known[..n]); }
  }

  /** With every store readable, the furthest boundary is as far as the stores reach. */
  lemma ReachedExactly(t: Track, place: int)
    requires Base(t) && place >= 0
    ensures Furthest(t.state.objs, Known(t.state.files, ALL)) >= place <==> Reached(t.state, place)
  {
    var s, f := t.state, t.state.files;
    var known := Known(f, ALL);
    if Reached(s, place) { ReachedGuards(t, place); }
    if Furthest(s.objs, known) >= place {
      var i := FurthestOne(s.objs, known);
      if known[i] in Positioned(f.pending) {
        var j := PositionedFrom(f.pending, known[i]);
        assert EntryReaches(s, j, place);
      }
    }
  }

  lemma {:induction false} NoneUnpositioned(entries: seq<Entry>)
    requires forall i | 0 <= i < |entries| && Counts(entries[i]) :: entries[i].lastUuid != ""
    ensures Unpositioned(entries) == []
    decreases |entries|
  {
    if entries != [] { NoneUnpositioned(entries[..|entries| - 1]); }
  }

  lemma GuardedAfterLate(t: Track, u: Track, k: nat)
    requires LateInv(t) && Base(u) && CursorNow(t.state, u.state)
    ensures Guarded(u.state.files, u.state.objs, true, ALL, k) <==> k <= StoredPlace(u.state) || OtherReaches(t.state, k)
  {
    NoneUnpositioned(u.state.files.pending);
    assert Unplaced(u.state.files, ALL) == [];
    ReachedExactly(u, k);
    OthersStay(t.state, u.state);
  }

  /** What the staging after a write of the cursor seals of a late run: the content beyond the place written that neither the
      mark nor an entry reaches. */
  lemma SealedAfterWrite(cfg: Config, t: Track, act: Action, u: Track, keep: nat -> bool, k: nat)
    requires GzipBounded(cfg.sizes) && Inv(Late, t) && WritesCursor(t.state, act) && u == Follow(cfg, t, act)
    requires k < |t.state.objs| && t.state.objs[k].uuid != ""
    ensures Seals(cfg, u.state, Stage(keep, true, ALL), t.state.objs[k]) ==>
              k > WrittenPlace(t.state, act) && !OtherReaches(t.state, k)
    ensures keep(k) && Accepted(cfg.sizes, cfg.envelope, [t.state.objs[k]]) ==>
              (Seals(cfg, u.state, Stage(keep, true, ALL), t.state.objs[k]) <==> k > WrittenPlace(t.state, act) && !OtherReaches(t.state, k))
  {
    FollowKeepsBase(cfg, t, act);
    HookCursor(cfg, t, act);
    SealsUnlessGuarded(cfg, u.state, Stage(keep, true, ALL), k);
    GuardedAfterLate(t, u, k);
  }

  /** Content at or before a boundary. */
  predicate Behind(t: Track, k: nat) {
    k < |t.state.objs| && t.state.objs[k].uuid != "" && exists i | 0 <= i < |t.barriers| :: k <= t.barriers[i].place
  }

  /** Whether the staging after the write leaves everything at or before a boundary alone. */
  ghost predicate BoundariesKept(cfg: Config, t: Track, u: Track, keep: nat -> bool) {
    forall k: nat | Behind(t, k) :: !Seals(cfg, u.state, Stage(keep, true, ALL), t.state.objs[k])
  }

  /** What lies at a boundary is kept and fits. */
  ghost predicate WouldBeSealed(cfg: Config, t: Track, keep: nat -> bool) {
    forall i | 0 <= i < |t.barriers| && 0 <= t.barriers[i].place < |t.state.objs| ::
      keep(t.barriers[i].place) && Accepted(cfg.sizes, cfg.envelope, [t.state.objs[t.barriers[i].place]])
  }

  /** In a late run the condition on a write of the cursor is exact: no content at or before any boundary is sealed by the next
      staging exactly when the write leaves none behind, and then, and only then, the run stays in good order. */
  lemma LateWriteExactly(cfg: Config, t: Track, act: Action, u: Track, keep: nat -> bool)
    requires GzipBounded(cfg.sizes) && Inv(Late, t) && WritesCursor(t.state, act) && u == Follow(cfg, t, act) && WouldBeSealed(cfg, t, keep)
    ensures BoundariesKept(cfg, t, u, keep) <==> LeavesNone(t, WrittenPlace(t.state, act))
    ensures Inv(Late, u) <==> LeavesNone(t, WrittenPlace(t.state, act))
  {
    if LeavesNone(t, WrittenPlace(t.state, act)) {
      NoneLost(cfg, t, act, u, keep);
    } else {
      var i :| 0 <= i < |t.barriers| && t.barriers[i].place > WrittenPlace(t.state, act) && !OtherReaches(t.state, t.barriers[i].place);
      BoundaryLost(cfg, t, act, u, keep, i);
    }
  }

  lemma NoneLost(cfg: Config, t: Track, act: Action, u: Track, keep: nat -> bool)
    requires GzipBounded(cfg.sizes) && Inv(Late, t) && WritesCursor(t.state, act) && u == Follow(cfg, t, act)
    requires LeavesNone(t, WrittenPlace(t.state, act))
    ensures BoundariesKept(cfg, t, u, keep) && Inv(Late, u)
  {
    forall k: nat | Behind(t, k) ensures !Seals(cfg, u.state, Stage(keep, true, ALL), t.state.objs[k]) { BehindStays(cfg, t, act, u, keep, k); }
    HookStaysLate(cfg, t, act);
  }

  lemma HookStaysLate(cfg: Config, t: Track, act: Action)
    requires Inv(Late, t) && WritesCursor(t.state, act) && LeavesNone(t, WrittenPlace(t.state, act))
    ensures Inv(Late, Follow(cfg, t, act))
  {
    FollowKeepsBase(cfg, t, act);
    HookKeepsLate(cfg, t, act);
  }

  lemma BehindStays(cfg: Config, t: Track, act: Action, u: Track, keep: nat -> bool, k: nat)
    requires GzipBounded(cfg.sizes) && Inv(Late, t) && WritesCursor(t.state, act) && u == Follow(cfg, t, act)
    requires LeavesNone(t, WrittenPlace(t.state, act)) && Behind(t, k)
    ensures !Seals(cfg, u.state, Stage(keep, true, ALL), t.state.objs[k])
  {
    var i :| 0 <= i < |t.barriers| && k <= t.barriers[i].place;
    SealedAfterWrite(cfg, t, act, u, keep, k);
    if OtherReaches(t.state, t.barriers[i].place) { ReachesLess(t.state, t.barriers[i].place, k); }
  }

  lemma ReachesLess(s: State, place: int, less: int)
    requires OtherReaches(s, place) && less <= place
    ensures OtherReaches(s, less)
  {
    if i :| EntryReaches(s, i, place) { assert EntryReaches(s, i, less); }
  }

  lemma BoundaryLost(cfg: Config, t: Track, act: Action, u: Track, keep: nat -> bool, i: nat)
    requires GzipBounded(cfg.sizes) && Inv(Late, t) && WritesCursor(t.state, act) && u == Follow(cfg, t, act) && WouldBeSealed(cfg, t, keep)
    requires i < |t.barriers| && t.barriers[i].place > WrittenPlace(t.state, act) && !OtherReaches(t.state, t.barriers[i].place)
    ensures !BoundariesKept(cfg, t, u, keep) && !LateInv(u)
  {
    var b := t.barriers[i];
    HookCursor(cfg, t, act);
    assert Standing(t.state, b) && StoredPlace(u.state) >= -1;
    SealedAfterWrite(cfg, t, act, u, keep, b.place);
    assert Behind(t, b.place);
    OthersStay(t.state, u.state);
    assert u.barriers[i] == b && !Reached(u.state, b.place);
  }

  // ---------------------------------------------------------------------------------------------
  // A transcript is begun
  // ---------------------------------------------------------------------------------------------

  /** Nothing was written at this very time. */
  predicate AllBefore(f: Files, now: nat) {
    && (f.mark.Some? ==> f.mark.value.updatedAt < now)
    && (forall e | e in f.pending :: e.at < now)
  }

  lemma {:induction false} LatestAtMost(known: seq<Boundary>, now: nat)
    requires forall i | 0 <= i < |known| :: known[i].at <= now
    ensures Latest(known) <= now
    decreases |known|
  {
    if known != [] { LatestAtMost(known[..|known| - 1], now); }
  }

  lemma {:induction false} PositionedBefore(entries: seq<Entry>, now: nat)
    requires forall e | e in entries :: e.at <= now
    ensures forall b | b in Positioned(entries) :: b.at <= now
    decreases |entries|
  {
    if entries != [] { PositionedBefore(entries[..|entries| - 1], now); }
  }

  /** A cursor that is the newest of all keeps staging from a place, whatever can be read, exactly when it lies there or beyond. */
  lemma NewestGuards(f: Files, objs: seq<Record>, ok: Readable, place: int)
    requires f.stored.Some? && AllBefore(f, f.stored.value.updatedAt)
    requires PlaceOf(objs, f.stored.value.cursor.lastUuid) >= place
    ensures Guarded(f, objs, true, ok, place)
  {
    var known, unplaced, now := Known(f, ok), Unplaced(f, ok), f.stored.value.updatedAt;
    if ok.cursor {
      assert known[0].lastUuid == f.stored.value.cursor.lastUuid;
      FurthestBounds(objs, known, 0);
    } else {
      PositionedBefore(f.pending, now);
      forall i | 0 <= i < |known| ensures known[i].at <= now {
        assert known[i] in known;
      }
      LatestAtMost(known, now);
      assert unplaced[0] == now;
    }
  }

  /** Otherwise there are stores that, unreadable, leave staging to that cursor alone. */
  lemma NewestAlone(f: Files, objs: seq<Record>, place: int)
    requires f.stored.Some? && AllBefore(f, f.stored.value.updatedAt)
    requires PlaceOf(objs, f.stored.value.cursor.lastUuid) < place
    ensures !Guarded(f, objs, true, Readable(true, false, false), place)
  {
    var ok, now := Readable(true, false, false), f.stored.value.updatedAt;
    var known, unplaced := Known(f, ok), Unplaced(f, ok);
    assert known == [Boundary(f.stored.value.cursor.lastUuid, now)];
    LatestAtLeast(known, 0);
    if f.pending != [] { assert f.pending[|f.pending| - 1] in f.pending; }
    assert forall i | 0 <= i < |unplaced| :: unplaced[i] < now;
    assert known[..0] == [];
    assert Furthest(objs, known) < place;
  }

  /** Where stores may be unreadable, the condition on beginning a transcript is exact: a record is sealed under some
      readability exactly when it lies beyond the turn the transcript begins at. So every boundary is kept exactly when none
      lies beyond that. */
  lemma BeginExactly(cfg: Config, t: Track, act: Action, u: Track, keep: nat -> bool, k: nat)
    requires GzipBounded(cfg.sizes) && Base(t) && act.Begin? && WritesCursor(t.state, act) && AllBefore(t.state.files, t.state.now)
    requires u == Follow(cfg, t, act)
    requires k < |t.state.objs| && t.state.objs[k].uuid != "" && keep(k) && Accepted(cfg.sizes, cfg.envelope, [t.state.objs[k]])
    ensures (exists ok :: Seals(cfg, u.state, Stage(keep, true, ok), t.state.objs[k])) <==> WrittenPlace(t.state, act) < k
  {
    FollowKeepsBase(cfg, t, act);
    HookCursor(cfg, t, act);
    SealsSomehow(cfg, u, keep, k);
  }

  lemma SealsSomehow(cfg: Config, u: Track, keep: nat -> bool, k: nat)
    requires GzipBounded(cfg.sizes) && Base(u) && u.state.files.stored.Some? && AllBefore(u.state.files, u.state.files.stored.value.updatedAt)
    requires k < |u.state.objs| && u.state.objs[k].uuid != "" && keep(k) && Accepted(cfg.sizes, cfg.envelope, [u.state.objs[k]])
    ensures (exists ok :: Seals(cfg, u.state, Stage(keep, true, ok), u.state.objs[k])) <==> StoredPlace(u.state) < k
  {
    if StoredPlace(u.state) < k {
      NewestAlone(u.state.files, u.state.objs, k);
      SealsUnlessGuarded(cfg, u.state, Stage(keep, true, Readable(true, false, false)), k);
    } else {
      forall ok ensures !Seals(cfg, u.state, Stage(keep, true, ok), u.state.objs[k]) {
        NewestGuards(u.state.files, u.state.objs, ok, k);
        SealsUnlessGuarded(cfg, u.state, Stage(keep, true, ok), k);
      }
    }
  }

  // ---------------------------------------------------------------------------------------------
  // Three runs that lose a boundary
  // ---------------------------------------------------------------------------------------------

  /** A run from its second state on, and its first step. */
  lemma Prepend(cfg: Config, t: Track, act: Action, next: Track, rest: seq<Action>, last: Track) returns (acts: seq<Action>)
    requires next == Follow(cfg, t, act) && Grows(t.state, act)
    requires FollowAll(cfg, next, rest) == last && AllGrow(cfg, next, rest)
    ensures FollowAll(cfg, t, acts) == last && AllGrow(cfg, t, acts)
  {
    acts := [act] + rest;
    assert acts[1..] == rest && acts[0] == act;
  }

  const NOTHING: Track := Track(State([], 0, map[], map[], NO_FILES), [])

  /** Hook 0 finds no cursor and sees one record; hook 1 finds no cursor either, sees a second record and puts the tail boundary
      there. Hook 0 has still to write. */
  function Overtaken(first: Record, second: Record): Track {
    Track(State([first, second], 0, map[0 := Missing, 1 := Missing], map[0 := Look(0, [first]), 1 := Look(0, [first, second])],
                Files(Some(Stored(Cursor(second.uuid, 0, 0), 0, true)), None, [], [])), [Barrier(0, 1)])
  }

  lemma OvertakenRun(cfg: Config, first: Record, second: Record, late: Action, last: Track) returns (acts: seq<Action>)
    requires first.uuid != "" && second.uuid != "" && first.uuid != second.uuid
    requires last == Follow(cfg, Overtaken(first, second), late) && (late.Advance? || late.Begin?)
    ensures FollowAll(cfg, NOTHING, acts) == last && AllGrow(cfg, NOTHING, acts)
  {
    var one := Track(State([first], 0, map[0 := Missing], map[0 := Look(0, [first])], NO_FILES), []);
    acts := SecondHook(cfg, one, first, second, late, last);
    assert [] + [first] == [first];
    var t1 := Track(State([first], 0, map[], map[], NO_FILES), []);
    var t2 := Track(State([first], 0, map[0 := Missing], map[], NO_FILES), []);
    assert t1.state.looks - {0} == map[];
    acts := Prepend(cfg, t2, TakeLook(0), one, acts, last);
    acts := Prepend(cfg, t1, ReadCursor(0, true), t2, acts, last);
    acts := Prepend(cfg, NOTHING, Append([first]), t1, acts, last);
  }

  lemma SecondHook(cfg: Config, one: Track, first: Record, second: Record, late: Action, last: Track) returns (acts: seq<Action>)
    requires first.uuid != "" && second.uuid != "" && first.uuid != second.uuid
    requires one == Track(State([first], 0, map[0 := Missing], map[0 := Look(0, [first])], NO_FILES), [])
    requires last == Follow(cfg, Overtaken(first, second), late) && (late.Advance? || late.Begin?)
    ensures FollowAll(cfg, one, acts) == last && AllGrow(cfg, one, acts)
  {
    var two := State([first, second], 0, map[0 := Missing], map[0 := Look(0, [first])], NO_FILES);
    acts := SecondReads(cfg, two, first, second, late, last);
    assert [first] + [second] == [first, second];
    acts := Prepend(cfg, one, Append([second]), Track(two, []), acts, last);
  }

  lemma SecondReads(cfg: Config, two: State, first: Record, second: Record, late: Action, last: Track) returns (acts: seq<Action>)
    requires first.uuid != second.uuid && second.uuid != ""
    requires two == State([first, second], 0, map[0 := Missing], map[0 := Look(0, [first])], NO_FILES)
    requires last == Follow(cfg, Overtaken(first, second), late) && (late.Advance? || late.Begin?)
    ensures FollowAll(cfg, Track(two, []), acts) == last && AllGrow(cfg, Track(two, []), acts)
  {
    var three := two.(found := map[0 := Missing, 1 := Missing]);
    var seen := three.(looks := map[0 := Look(0, [first]), 1 := Look(0, [first, second])]);
    acts := BothWrite(cfg, seen, first, second, late, last);
    acts := Prepend(cfg, Track(three, []), TakeLook(1), Track(seen, []), acts, last);
    assert two.looks - {1} == two.looks;
    acts := Prepend(cfg, Track(two, []), ReadCursor(1, true), Track(three, []), acts, last);
  }

  lemma BothWrite(cfg: Config, seen: State, first: Record, second: Record, late: Action, last: Track) returns (acts: seq<Action>)
    requires first.uuid != second.uuid && second.uuid != ""
    requires seen == State([first, second], 0, map[0 := Missing, 1 := Missing], map[0 := Look(0, [first]), 1 := Look(0, [first, second])], NO_FILES)
    requires last == Follow(cfg, Overtaken(first, second), late) && (late.Advance? || late.Begin?)
    ensures FollowAll(cfg, Track(seen, []), acts) == last && AllGrow(cfg, Track(seen, []), acts)
  {
    TailWritten(cfg, seen, first, second);
    assert FollowAll(cfg, last, []) == last;
    acts := Prepend(cfg, Overtaken(first, second), late, last, [], last);
    acts := Prepend(cfg, Track(seen, []), Advance(1, false, true), Overtaken(first, second), acts, last);
  }

  lemma TailWritten(cfg: Config, seen: State, first: Record, second: Record)
    requires first.uuid != second.uuid && second.uuid != ""
    requires seen == State([first, second], 0, map[0 := Missing, 1 := Missing], map[0 := Look(0, [first]), 1 := Look(0, [first, second])], NO_FILES)
    ensures Follow(cfg, Track(seen, []), Advance(1, false, true)) == Overtaken(first, second)
  {
    assert LastContentUuid([first, second]) == second.uuid;
    assert IndexOf([first, second], second.uuid) == 1;
    assert [] + [Barrier(0, 1)] == [Barrier(0, 1)];
  }

  /** With the cursor before the second record and no other store, the second record is sealed. */
  lemma SecondSealed(cfg: Config, t: Track, first: Record, second: Record, keep: nat -> bool)
    requires GzipBounded(cfg.sizes) && keep(1) && Accepted(cfg.sizes, cfg.envelope, [second])
    requires first.uuid != second.uuid && second.uuid != "" && t.state.objs == [first, second]
    requires t.state.files.stored.Some? && t.state.files.mark.None? && t.state.files.pending == []
    requires var last := t.state.files.stored.value.cursor.lastUuid; last == "" || last == first.uuid
    ensures Seals(cfg, t.state, Stage(keep, true, ALL), second)
  {
    var f, objs := t.state.files, t.state.objs;
    var known := Known(f, ALL);
    assert known == [Boundary(f.stored.value.cursor.lastUuid, f.stored.value.updatedAt)] && known[..0] == [];
    assert first.uuid != "" ==> IndexOf(objs, first.uuid) == 0;
    assert Furthest(objs, known) <= 0;
    assert Unplaced(f, ALL) == [];
    SealsUnlessGuarded(cfg, t.state, Stage(keep, true, ALL), 1);
  }

  /** A hook at the start of a session finds no cursor, and writes one after another hook has put the boundary further on:
      nothing is checked again, and the record at the boundary is sealed, though every store can be read. */
  lemma LateInitLosesBoundary(cfg: Config, first: Record, second: Record, keep: nat -> bool) returns (acts: seq<Action>)
    requires GzipBounded(cfg.sizes) && keep(1) && Accepted(cfg.sizes, cfg.envelope, [second])
    requires first.uuid != "" && second.uuid != "" && first.uuid != second.uuid
    ensures AllGrow(cfg, NOTHING, acts)
    ensures var t := FollowAll(cfg, NOTHING, acts);
            t.state.objs == [first, second] && Barrier(0, 1) in t.barriers && Seals(cfg, t.state, Stage(keep, true, ALL), second)
  {
    var late := Advance(0, true, true);
    var last := Follow(cfg, Overtaken(first, second), late);
    assert LastContentUuid([first]) == first.uuid by { assert [first][..0] == []; }
    acts := OvertakenRun(cfg, first, second, late, last);
    assert last.barriers[0] == Barrier(0, 1);
    SecondSealed(cfg, last, first, second, keep);
  }

  /** A hook of the first turn begins the transcript in the same way: the cursor goes back to the start. */
  lemma LateBeginLosesBoundary(cfg: Config, first: Record, second: Record, prompt: string, keep: nat -> bool) returns (acts: seq<Action>)
    requires GzipBounded(cfg.sizes) && keep(1) && Accepted(cfg.sizes, cfg.envelope, [second])
    requires first.uuid != "" && second.uuid != "" && first.uuid != second.uuid && prompt != "" && first.promptId == Some(prompt)
    ensures AllGrow(cfg, NOTHING, acts)
    ensures var t := FollowAll(cfg, NOTHING, acts);
            t.state.objs == [first, second] && Barrier(0, 1) in t.barriers && Seals(cfg, t.state, Stage(keep, true, ALL), second)
  {
    var late := Begin(0, prompt, true);
    var last := Follow(cfg, Overtaken(first, second), late);
    FirstTurnAnchor(first, prompt);
    acts := OvertakenRun(cfg, first, second, late, last);
    assert last.barriers[0] == Barrier(0, 1);
    SecondSealed(cfg, last, first, second, keep);
  }

  lemma FirstTurnAnchor(first: Record, prompt: string)
    requires first.uuid != "" && first.promptId == Some(prompt)
    ensures BeginAnchor([first], prompt) == Some("")
  {
    assert [first][..0] == [];
    assert LastContentUuid([first]) == first.uuid;
    assert FirstOfPrompt([first], prompt) == 0;
    assert BeforePrompt([first], prompt) == [];
    assert [first][0].promptId.Some?;
  }

  /** Why a run may not mix the two ways: a hook that saw one record writes the cursor after another hook
      has marked the second record, and the mark cannot be read. The cursor is the newer of the two, so
      staging does not hold, and it seals the marked record. */
  lemma LateWriteHidesUnreadableMark(cfg: Config, first: Record, second: Record, keep: nat -> bool)
    requires GzipBounded(cfg.sizes) && keep(1) && Accepted(cfg.sizes, cfg.envelope, [second])
    requires first.uuid != "" && second.uuid != "" && first.uuid != second.uuid
    ensures var f := Advanced(SignedOutMarked(NO_FILES, Look(1, [first, second]), 1), Missing, Look(0, [first]), 2, false, true);
            && f.mark == Some(Mark(second.uuid, 2, 1))
            && Seals(cfg, State([first, second], 3, map[], map[], f), Stage(keep, true, ALL.(mark := false)), second)
  {
    var objs, ok := [first, second], ALL.(mark := false);
    var f := Files(Some(Stored(Cursor(first.uuid, 0, 0), 2, true)), Some(Mark(second.uuid, 2, 1)), [], []);
    assert objs[..1] == [first] && [first][..0] == [];
    assert LastContentUuid(objs) == second.uuid && LastContentUuid([first]) == first.uuid;
    assert f == Advanced(SignedOutMarked(NO_FILES, Look(1, objs), 1), Missing, Look(0, [first]), 2, false, true);
    MarkedSealed(cfg, State(objs, 3, map[], map[], f), first, second, Stage(keep, true, ok));
  }

  lemma MarkedSealed(cfg: Config, s: State, first: Record, second: Record, stage: Action)
    requires GzipBounded(cfg.sizes) && Accepted(cfg.sizes, cfg.envelope, [second])
    requires first.uuid != "" && second.uuid != "" && first.uuid != second.uuid && s.objs == [first, second]
    requires s.files == Files(Some(Stored(Cursor(first.uuid, 0, 0), 2, true)), Some(Mark(second.uuid, 2, 1)), [], [])
    requires stage.Stage? && stage.keep(1) && stage.prompted && stage.ok == ALL.(mark := false)
    ensures Seals(cfg, s, stage, second)
  {
    NotHeldByMark(s.files, s.objs, first, second);
    SealsUnlessGuarded(cfg, s, stage, 1);
  }

  lemma NotHeldByMark(f: Files, objs: seq<Record>, first: Record, second: Record)
    requires objs == [first, second] && first.uuid != "" && first.uuid != second.uuid
    requires f == Files(Some(Stored(Cursor(first.uuid, 0, 0), 2, true)), Some(Mark(second.uuid, 2, 1)), [], [])
    ensures IndexOf(objs, first.uuid) == 0 && !Guarded(f, objs, true, ALL.(mark := false), 1)
  {
    var ok := ALL.(mark := false);
    var known, unplaced := Known(f, ok), Unplaced(f, ok);
    assert Positioned(f.pending) == [] && Unpositioned(f.pending) == [];
    assert known == [Boundary(first.uuid, 2)] && unplaced == [1];
    OneKnown(objs, known, first);
  }

  lemma OneKnown(objs: seq<Record>, known: seq<Boundary>, first: Record)
    requires objs != [] && objs[0] == first && first.uuid != "" && known == [Boundary(first.uuid, 2)]
    ensures IndexOf(objs, first.uuid) == 0 && Latest(known) == 2 && Furthest(objs, known) == 0
  {
    assert known[..0] == [];
    assert Latest(known[..0]) == 0 && Furthest(objs, known[..0]) == -1;
  }
}
