/** Boundaries where stagings overlap: one staging reads the stores in one step and seals in another, hooks write however late
    (transfer.js). */
module BoundaryOverlap {
  import opened Options
  import opened TurnRouting
  import opened ChunkSplit
  import opened ChunkPlan
  import opened Staging
  import opened Guarding = Boundary
  import O = Overlap
  import D = Delivery

  /** A staging that has read, and how many boundaries there were then. */
  datatype Opening = Opening(read: O.Opened, barriers: nat)

  datatype Watch = Watch(track: Track, open: map<nat, Opening>)

  function Step(cfg: Config, w: Watch, act: O.Act): Watch {
    match act
    case Whole(a) => w.(track := Follow(cfg, w.track, a))
    case Open(h, keep, prompted, ok) =>
      w.(open := w.open[h := Opening(O.Opened(w.track.state.files, w.track.state.objs, keep, prompted, ok), |w.track.barriers|)])
    case Close(h, readable) => if h in w.open then Watch(Written(cfg, w.track, w.open[h].read, readable), w.open - {h}) else w
  }

  function Written(cfg: Config, t: Track, o: O.Opened, readable: bool): Track {
    t.(state := t.state.(files := O.Closed(cfg, t.state.files, o, t.state.now, readable)))
  }

  function StepAll(cfg: Config, w: Watch, acts: seq<O.Act>): Watch
    decreases |acts|
  {
    if acts == [] then w else StepAll(cfg, Step(cfg, w, acts[0]), acts[1..])
  }

  /** The chunks a staging seals. */
  function NewChunks(cfg: Config, o: O.Opened): seq<Chunk> {
    if O.Start(o).Hold? then [] else O.PlanFor(cfg, o).chunks
  }

  lemma QueueAfter(cfg: Config, t: Track, o: O.Opened, readable: bool)
    ensures Written(cfg, t, o, readable).state.files.queue == t.state.files.queue + NewChunks(cfg, o)
  {
  }

  /** The state a staging read, as far as it was read. */
  function Seen(o: O.Opened): State {
    State(o.objs, 0, map[], map[], o.files)
  }

  ghost predicate GoodRead(t: Track, o: O.Opened) {
    && o.objs <= t.state.objs && Unique(o.objs)
    && (o.files.stored.Some? ==> Located(o.objs, o.files.stored.value.cursor.lastUuid))
  }

  /** What a staging seals is decided when it reads: kept content that fits is sealed exactly when the files it read neither held
      it nor placed a boundary at or beyond it, whatever was written since. */
  lemma SealsAsRead(cfg: Config, t: Track, o: O.Opened, readable: bool, k: nat)
    requires GzipBounded(cfg.sizes) && GoodRead(t, o) && k < |o.objs| && o.objs[k].uuid != ""
    ensures Written(cfg, t, o, readable).state.files.queue == t.state.files.queue + NewChunks(cfg, o)
    ensures o.objs[k] in LinesOf(NewChunks(cfg, o)) ==> !Guarded(o.files, o.objs, o.prompted, o.ok, k) && o.keep(k)
    ensures Accepted(cfg.sizes, cfg.envelope, [o.objs[k]]) && o.keep(k) ==>
              (o.objs[k] in LinesOf(NewChunks(cfg, o)) <==> !Guarded(o.files, o.objs, o.prompted, o.ok, k))
  {
    QueueAfter(cfg, t, o, readable);
    SealsExactly(cfg, Seen(o), o.keep, o.prompted, o.ok, k);
    if O.Start(o).From? { StagedQueue(cfg, Seen(o), o.keep, o.prompted, o.ok, O.PlanFor(cfg, o)); }
  }

  // ---------------------------------------------------------------------------------------------
  // The cursor a staging writes
  // ---------------------------------------------------------------------------------------------

  predicate Writing(o: O.Opened) {
    D.Writes(o.files, o.objs, o.prompted, o.ok)
  }

  /** It stands at the end of what was read. */
  lemma WrittenAtTail(cfg: Config, t: Track, o: O.Opened, readable: bool)
    requires Base(t) && GoodRead(t, o) && Writing(o)
    ensures var u := Written(cfg, t, o, readable);
            var v := t.(state := t.state.(files := t.state.files.(stored := u.state.files.stored)));
            && CursorNow(t.state, v.state) && StoredPlace(v.state) == Tail(o.objs)
            && u.state == v.state.(files := v.state.files.(queue := u.state.files.queue)) && u.barriers == v.barriers
  {
    TailIsLast(o.objs);
    PlaceStays(o.objs, t.state.objs, LastContentUuid(o.objs));
    if O.Start(o).From? {
      StartLocated(o.files, o.objs, o.ok);
      AnchorIsTail(o.objs, O.Start(o).cursor);
      PlanEndsAtAnchor(cfg, o.objs, O.Start(o).cursor, Seqno(O.CursorRead(o)), o.keep);
      PlaceStays(o.objs, t.state.objs, Anchor(o.objs, O.Start(o).cursor));
    }
  }

  ghost predicate OpeningOk(t: Track, o: Opening) {
    && GoodRead(t, o.read) && o.barriers <= |t.barriers|
    && (o.read.ok == ALL ==>
          forall i | 0 <= i < o.barriers && t.barriers[i].place >= 0 ::
            Guarded(o.read.files, o.read.objs, o.read.prompted, o.read.ok, t.barriers[i].place))
  }

  ghost predicate WatchInv(w: Watch) {
    Inv(Late, w.track) && forall h | h in w.open :: OpeningOk(w.track, w.open[h])
  }

  /** The condition on a step: as before, and a staging's write leaves no boundary behind. */
  ghost predicate Allowed(w: Watch, act: O.Act) {
    match act
    case Whole(a) => Legal(Late, w.track, a)
    case Open(_, _, _, _) => true
    case Close(h, _) => h in w.open && Writing(w.open[h].read) ==> LeavesNone(w.track, Tail(w.open[h].read.objs))
  }

  ghost predicate AllAllowed(cfg: Config, w: Watch, acts: seq<O.Act>)
    decreases |acts|
  {
    acts == [] || (Allowed(w, acts[0]) && AllAllowed(cfg, Step(cfg, w, acts[0]), acts[1..]))
  }

  /** A staging's write keeps every boundary exactly when it leaves none behind. */
  lemma CloseKeepsExactly(cfg: Config, t: Track, o: O.Opened, readable: bool)
    requires Inv(Late, t) && GoodRead(t, o)
    ensures Inv(Late, Written(cfg, t, o, readable)) <==> (Writing(o) ==> LeavesNone(t, Tail(o.objs)))
  {
    var u := Written(cfg, t, o, readable);
    if Writing(o) {
      WrittenAtTail(cfg, t, o, readable);
      var v := t.(state := t.state.(files := t.state.files.(stored := u.state.files.stored)));
      if LeavesNone(t, StoredPlace(v.state)) { NoneBehind(t, v, u); } else { LeftBehind(t, v, u); }
    } else {
      WritesNothing(cfg, t, o, readable);
    }
  }

  lemma NoneBehind(t: Track, v: Track, u: Track)
    requires Inv(Late, t) && CursorNow(t.state, v.state) && v.barriers == t.barriers && LeavesNone(t, StoredPlace(v.state))
    requires u.state == v.state.(files := v.state.files.(queue := u.state.files.queue)) && u.barriers == v.barriers
    ensures Inv(Late, u)
  {
    CursorKeepsBase(t, v);
    CursorKeepsLate(t, v);
    OnlyQueueDiffers(Late, v, u);
  }

  lemma LeftBehind(t: Track, v: Track, u: Track)
    requires CursorNow(t.state, v.state) && v.barriers == t.barriers && !LeavesNone(t, StoredPlace(v.state))
    requires u.state == v.state.(files := v.state.files.(queue := u.state.files.queue)) && u.barriers == v.barriers
    ensures !LateInv(u)
  {
    var i :| 0 <= i < |t.barriers| && t.barriers[i].place > StoredPlace(v.state) && !OtherReaches(t.state, t.barriers[i].place);
    OthersStay(t.state, u.state);
    assert !Reached(u.state, u.barriers[i].place);
  }

  lemma WritesNothing(cfg: Config, t: Track, o: O.Opened, readable: bool)
    requires !Writing(o)
    ensures Written(cfg, t, o, readable) == t
  {
  }

  // ---------------------------------------------------------------------------------------------
  // Runs
  // ---------------------------------------------------------------------------------------------

  /** A staging that reads every store is kept from every boundary there is. */
  lemma OpenGuarded(t: Track, prompted: bool, i: nat)
    requires Inv(Late, t) && i < |t.barriers| && t.barriers[i].place >= 0
    ensures Guarded(t.state.files, t.state.objs, prompted, ALL, t.barriers[i].place)
  {
    ReachedGuards(t, t.barriers[i].place);
  }

  lemma OpeningStays(t: Track, u: Track, o: Opening)
    requires OpeningOk(t, o) && t.state.objs <= u.state.objs && t.barriers <= u.barriers
    ensures OpeningOk(u, o)
  {
    forall i | 0 <= i < o.barriers ensures u.barriers[i] == t.barriers[i] {}
  }

  lemma OpeningStarts(t: Track, o: Opening)
    requires Inv(Late, t) && o.read.files == t.state.files && o.read.objs == t.state.objs && o.barriers == |t.barriers|
    ensures OpeningOk(t, o)
  {
    if o.read.ok == ALL {
      forall i | 0 <= i < o.barriers && t.barriers[i].place >= 0
        ensures Guarded(o.read.files, o.read.objs, o.read.prompted, o.read.ok, t.barriers[i].place)
      {
        OpenGuarded(t, o.read.prompted, i);
      }
    }
  }

  lemma WholeGrows(cfg: Config, t: Track, a: Action)
    requires Grows(t.state, a)
    ensures t.state.objs <= Follow(cfg, t, a).state.objs && t.barriers <= Follow(cfg, t, a).barriers
  {
  }

  lemma StepKeepsInv(cfg: Config, w: Watch, act: O.Act)
    requires WatchInv(w) && Allowed(w, act)
    ensures WatchInv(Step(cfg, w, act))
  {
    var x := Step(cfg, w, act);
    match act {
      case Whole(a) =>
        LateStep(cfg, w.track, a);
        WholeGrows(cfg, w.track, a);
      case Open(h, keep, prompted, ok) => OpeningStarts(w.track, x.open[h]);
      case Close(h, readable) => if h in w.open { CloseKeepsExactly(cfg, w.track, w.open[h].read, readable); }
    }
    forall h | h in x.open ensures OpeningOk(x.track, x.open[h]) {
      if h in w.open && x.open[h] == w.open[h] { OpeningStays(w.track, x.track, w.open[h]); }
    }
  }

  lemma {:induction false} RunsKeepInv(cfg: Config, w: Watch, acts: seq<O.Act>)
    requires WatchInv(w) && AllAllowed(cfg, w, acts)
    ensures WatchInv(StepAll(cfg, w, acts))
    decreases |acts|
  {
    if acts != [] {
      StepKeepsInv(cfg, w, acts[0]);
      RunsKeepInv(cfg, Step(cfg, w, acts[0]), acts[1..]);
    }
  }

  /** Over every run of overlapping stagings and late hooks whose writes leave no boundary behind: a staging that could read every
      store seals no content at or before a boundary that was placed before it read, whatever came in between. */
  lemma NothingBeforeWhatWasRead(cfg: Config, s: State, acts: seq<O.Act>, h: nat, readable: bool, i: nat, k: nat)
    requires GzipBounded(cfg.sizes) && Unique(s.objs) && s.looks == map[] && s.files == NO_FILES
    requires AllAllowed(cfg, Watch(Track(s, []), map[]), acts)
    requires var w := StepAll(cfg, Watch(Track(s, []), map[]), acts);
             && h in w.open && w.open[h].read.ok == ALL && i < w.open[h].barriers <= |w.track.barriers|
             && k <= w.track.barriers[i].place && k < |w.open[h].read.objs| && w.open[h].read.objs[k].uuid != ""
    ensures var w := StepAll(cfg, Watch(Track(s, []), map[]), acts);
            var o := w.open[h].read;
            && Written(cfg, w.track, o, readable).state.files.queue == w.track.state.files.queue + NewChunks(cfg, o)
            && o.objs[k] !in LinesOf(NewChunks(cfg, o))
  {
    var w := StepAll(cfg, Watch(Track(s, []), map[]), acts);
    assert Inv(Late, Track(s, []));
    RunsKeepInv(cfg, Watch(Track(s, []), map[]), acts);
    var o := w.open[h].read;
    SealsAsRead(cfg, w.track, o, readable, k);
    assert Guarded(o.files, o.objs, o.prompted, o.ok, w.track.barriers[i].place);
  }
}
