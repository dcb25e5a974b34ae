/** The rule of the boundaries in plain terms: which records a staging seals, read off the three files alone (`liveDeltaStart` and
    `stageRepositoryTurns` in transfer.js). */
module BoundaryRule {
  import opened Options
  import opened TurnRouting
  import opened ChunkSplit
  import opened ChunkPlan
  import opened Staging
  import opened Guarding = Boundary

  /** An entry made then for this repository or all, naming the record, or none. */
  predicate IsEntry(e: Entry, at: nat, uuid: string) {
    e.at == at && e.lastUuid == uuid && (e.scope.Everywhere? || e.scope.Here?)
  }

  /** A boundary of this repository that can be placed: the cursor, the mark, or a pending entry not made for another repository. */
  ghost predicate PlacedBoundary(f: Files, ok: Readable, uuid: string, at: nat) {
    || (f.stored.Some? && ok.cursor && uuid == f.stored.value.cursor.lastUuid && at == f.stored.value.updatedAt)
    || (f.mark.Some? && ok.mark && uuid == f.mark.value.lastUuid != "" && at == f.mark.value.updatedAt)
    || (ok.pending && uuid != "" && exists i | 0 <= i < |f.pending| :: IsEntry(f.pending[i], at, uuid))
  }

  /** One that cannot: a file that is there and cannot be read, from its last write, or an entry made without the transcript. */
  ghost predicate OpenBoundary(f: Files, ok: Readable, at: nat) {
    || (f.stored.Some? && !ok.cursor && at == f.stored.value.updatedAt)
    || (f.mark.Some? && !ok.mark && at == f.mark.value.updatedAt)
    || (!ok.pending && f.pending != [] && at == f.pending[|f.pending| - 1].at)
    || (ok.pending && exists i | 0 <= i < |f.pending| :: IsEntry(f.pending[i], at, ""))
  }

  /** An open boundary that no placed one is later than: where the unrecorded period ended is not known. */
  ghost predicate EndUnknown(f: Files, ok: Readable) {
    exists at :: OpenBoundary(f, ok, at) && forall uuid, t :: PlacedBoundary(f, ok, uuid, t) ==> t <= at
  }

  /** A placed boundary lies at record `k` or beyond it. */
  ghost predicate BoundaryFrom(f: Files, objs: seq<Record>, ok: Readable, k: nat) {
    exists i, at: nat :: k <= i < |objs| && objs[i].uuid != "" && PlacedBoundary(f, ok, objs[i].uuid, at)
  }

  /** No cursor can be read, the staging has no turn of its own, and the transcript tells its turns. */
  predicate NoRecordOfIt(f: Files, objs: seq<Record>, prompted: bool, ok: Readable) {
    (f.stored.None? || !ok.cursor) && !prompted && exists i | 0 <= i < |objs| :: objs[i].promptId.Some?
  }

  // ---------------------------------------------------------------------------------------------
  // The files against the lists staging makes of them
  // ---------------------------------------------------------------------------------------------

  lemma OneMoreEntry(front: seq<Entry>, last: Entry, entries: seq<Entry>, at: nat, uuid: string)
    requires entries == front + [last]
    ensures (exists i | 0 <= i < |entries| :: IsEntry(entries[i], at, uuid)) <==>
              IsEntry(last, at, uuid) || exists i | 0 <= i < |front| :: IsEntry(front[i], at, uuid)
  {
    if i :| 0 <= i < |front| && IsEntry(front[i], at, uuid) { assert IsEntry(entries[i], at, uuid); }
    if IsEntry(last, at, uuid) { assert IsEntry(entries[|front|], at, uuid); }
  }

  lemma {:induction false} PositionedAre(entries: seq<Entry>, uuid: string, at: nat)
    ensures Staging.Boundary(uuid, at) in Positioned(entries) <==>
              uuid != "" && exists i | 0 <= i < |entries| :: IsEntry(entries[i], at, uuid)
    decreases |entries|
  {
    if entries != [] {
      var n := |entries| - 1;
      PositionedAre(entries[..n], uuid, at);
      OneMoreEntry(entries[..n], entries[n], entries, at, uuid);
    }
  }

  lemma {:induction false} UnpositionedAre(entries: seq<Entry>, at: nat)
    ensures at in Unpositioned(entries) <==>
              exists i | 0 <= i < |entries| :: IsEntry(entries[i], at, "")
    decreases |entries|
  {
    if entries != [] {
      var n := |entries| - 1;
      UnpositionedAre(entries[..n], at);
      OneMoreEntry(entries[..n], entries[n], entries, at, "");
    }
  }

  lemma KnownAre(f: Files, ok: Readable, uuid: string, at: nat)
    ensures Staging.Boundary(uuid, at) in Known(f, ok) <==> PlacedBoundary(f, ok, uuid, at)
  {
    PositionedAre(f.pending, uuid, at);
  }

  lemma UnplacedAre(f: Files, ok: Readable, at: nat)
    ensures at in Unplaced(f, ok) <==> OpenBoundary(f, ok, at)
  {
    UnpositionedAre(f.pending, at);
  }

  lemma {:induction false} LatestIs(known: seq<Staging.Boundary>)
    ensures forall b | b in known :: b.at <= Latest(known)
    ensures Latest(known) == 0 || exists b :: b in known && b.at == Latest(known)
    decreases |known|
  {
    if known != [] {
      var n := |known| - 1;
      LatestIs(known[..n]);
      assert known == known[..n] + [known[n]];
    }
  }

  lemma HoldsExactly(f: Files, ok: Readable)
    ensures Holds(f, ok) <==> EndUnknown(f, ok)
  {
    var known, unplaced := Known(f, ok), Unplaced(f, ok);
    LatestIs(known);
    if i :| 0 <= i < |unplaced| && unplaced[i] >= Latest(known) {
      UnplacedAre(f, ok, unplaced[i]);
      forall uuid, t | PlacedBoundary(f, ok, uuid, t) ensures t <= unplaced[i] { KnownAre(f, ok, uuid, t); }
    }
    if at :| OpenBoundary(f, ok, at) && forall uuid, t :: PlacedBoundary(f, ok, uuid, t) ==> t <= at {
      UnplacedAre(f, ok, at);
      forall b | b in known ensures b.at <= at { KnownAre(f, ok, b.lastUuid, b.at); }
    }
  }

  lemma {:induction false} FurthestIs(objs: seq<Record>, known: seq<Staging.Boundary>, k: nat)
    ensures Furthest(objs, known) >= k <==> exists b :: b in known && PlaceOf(objs, b.lastUuid) >= k
    decreases |known|
  {
    if known != [] {
      var n := |known| - 1;
      FurthestIs(objs, known[..n], k);
      assert known == known[..n] + [known[n]];
    }
  }

  /** In a transcript with distinct uuids, a uuid stands where it stands. */
  lemma PlaceIs(objs: seq<Record>, uuid: string, k: nat)
    requires Unique(objs)
    ensures PlaceOf(objs, uuid) >= k <==> uuid != "" && exists i :: k <= i < |objs| && objs[i].uuid == uuid
  {
    if i :| k <= i < |objs| && objs[i].uuid == uuid && uuid != "" { assert IndexOf(objs, uuid) == i; }
  }

  lemma FurthestExactly(f: Files, objs: seq<Record>, ok: Readable, k: nat)
    requires Unique(objs)
    ensures Furthest(objs, Known(f, ok)) >= k <==> BoundaryFrom(f, objs, ok, k)
  {
    var known := Known(f, ok);
    FurthestIs(objs, known, k);
    if b :| b in known && PlaceOf(objs, b.lastUuid) >= k {
      PlaceIs(objs, b.lastUuid, k);
      var i :| k <= i < |objs| && objs[i].uuid == b.lastUuid;
      KnownAre(f, ok, b.lastUuid, b.at);
      assert PlacedBoundary(f, ok, objs[i].uuid, b.at);
    }
    if i, at: nat :| k <= i < |objs| && objs[i].uuid != "" && PlacedBoundary(f, ok, objs[i].uuid, at) {
      KnownAre(f, ok, objs[i].uuid, at);
      PlaceIs(objs, objs[i].uuid, k);
      assert Staging.Boundary(objs[i].uuid, at) in known;
    }
  }

  // ---------------------------------------------------------------------------------------------
  // The rule
  // ---------------------------------------------------------------------------------------------

  /** Kept content that fits is sealed exactly when the repository is not found unrecorded, the end of its unrecorded period is known,
      and no boundary of it lies at the record or beyond. */
  lemma SealsByRule(cfg: Config, s: State, keep: nat -> bool, prompted: bool, ok: Readable, k: nat)
    requires GzipBounded(cfg.sizes) && Unique(s.objs) && k < |s.objs| && s.objs[k].uuid != ""
    requires s.files.stored.Some? ==> Located(s.objs, s.files.stored.value.cursor.lastUuid)
    requires keep(k) && Accepted(cfg.sizes, cfg.envelope, [s.objs[k]])
    ensures Seals(cfg, s, Stage(keep, prompted, ok), s.objs[k]) <==>
              !NoRecordOfIt(s.files, s.objs, prompted, ok) && !EndUnknown(s.files, ok) && !BoundaryFrom(s.files, s.objs, ok, k)
  {
    SealsUnlessGuarded(cfg, s, Stage(keep, prompted, ok), k);
    HoldsExactly(s.files, ok);
    FurthestExactly(s.files, s.objs, ok, k);
  }

  // ---------------------------------------------------------------------------------------------
  // What a tail boundary writes
  // ---------------------------------------------------------------------------------------------

  /** The newest content of a transcript. */
  predicate NewestContent(objs: seq<Record>, k: nat) {
    k < |objs| && objs[k].uuid != "" && forall j | k < j < |objs| :: objs[j].uuid == ""
  }

  /** A cursor written since the look, at a record the look did not see, is not overwritten. */
  predicate Overtaken(f: Files, readable: bool, seen: State) {
    && f.stored.Some? && readable && f.stored.value.cursor.lastUuid != "" && f.stored.value.updatedAt >= seen.now
    && forall i | 0 <= i < |seen.objs| :: seen.objs[i].uuid != f.stored.value.cursor.lastUuid
  }

  /** A hook reads the cursor in state `s0`, the transcript in `s1`, and writes in `s2`: the cursor goes to the newest content of `s1`
      with the number of `s0` and the baseline of `s2`, each 0 when it could not be read, unless there is no content, it was to be
      written only if missing and was found, or it was overtaken. */
  lemma TailBoundaryWrites(cfg: Config, s0: State, s1: State, s2: State, h: nat, onlyWhenMissing: bool, before: bool, after: bool, k: nat)
    requires h in s2.found && s2.found[h] == Apply(cfg, s0, ReadCursor(h, before)).found[h]
    requires h in s2.looks && s2.looks[h] == Apply(cfg, s1, TakeLook(h)).looks[h]
    requires NewestContent(s1.objs, k)
    ensures var found, there := s0.files.stored.Some? && before, s2.files.stored.Some? && after;
            var u := Apply(cfg, s2, Advance(h, onlyWhenMissing, after));
            if (if onlyWhenMissing then found else Overtaken(s2.files, after, s1)) then u == s2
            else
              u == s2.(files := s2.files.(stored := u.files.stored)) && u.files.stored.Some?
              && u.files.stored.value.updatedAt == s2.now && u.files.stored.value.discarded == !onlyWhenMissing
              && u.files.stored.value.cursor ==
                 Cursor(s1.objs[k].uuid, if found then s0.files.stored.value.cursor.seqno else 0, if there then s2.files.stored.value.cursor.baseline else 0)
  {
    NewestIs(s1.objs, k);
    if s2.files.stored.Some? { NotAmong(s1.objs, s2.files.stored.value.cursor.lastUuid); }
  }

  /** Without content it writes nothing. */
  lemma NoContentNoBoundary(cfg: Config, s: State, h: nat, onlyWhenMissing: bool, readable: bool)
    requires h in s.found && h in s.looks && forall i | 0 <= i < |s.looks[h].objs| :: s.looks[h].objs[i].uuid == ""
    ensures Apply(cfg, s, Advance(h, onlyWhenMissing, readable)) == s
  {
    assert forall o | o in s.looks[h].objs :: o.uuid == "";
  }

  /** The signed-out mark goes to the newest content a hook saw, with the length it saw, unless a mark is there that was written
      since and of a longer transcript; a pending entry is added with that content, or open when the transcript was not read. */
  lemma OtherBoundariesWrite(cfg: Config, s1: State, s2: State, h: nat, scope: Scope, read: bool, k: nat)
    requires h in s2.looks && s2.looks[h] == Apply(cfg, s1, TakeLook(h)).looks[h] && NewestContent(s1.objs, k)
    ensures var mark := s2.files.mark;
            Apply(cfg, s2, SignedOutMark(h)).files ==
              if mark.Some? && mark.value.updatedAt >= s1.now && mark.value.size > |s1.objs| then s2.files
              else s2.files.(mark := Some(Mark(s1.objs[k].uuid, |s1.objs|, s2.now)))
    ensures Apply(cfg, s2, Pend(h, scope, read)).files ==
            s2.files.(pending := s2.files.pending + [Entry(scope, s2.now, if read then s1.objs[k].uuid else "")])
  {
    NewestIs(s1.objs, k);
  }

  lemma {:induction false} NewestIs(objs: seq<Record>, k: nat)
    requires NewestContent(objs, k)
    ensures LastContentUuid(objs) == objs[k].uuid
    decreases |objs|
  {
    if k < |objs| - 1 { NewestIs(objs[..|objs| - 1], k); }
  }

  lemma NotAmong(objs: seq<Record>, uuid: string)
    ensures IndexOf(objs, uuid) == -1 <==> forall i | 0 <= i < |objs| :: objs[i].uuid != uuid
  {
  }
}
