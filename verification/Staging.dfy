/** Live staging of one transcript for one repository (clients/claude-code/skillmeter/scripts/lib/transfer.js):
    the three local stores that end an unrecorded period, where the live delta starts, and the queue of
    sealed chunks. Every chunk of a plan seals. */
module Staging {
  import opened Options
  import opened TurnRouting
  import opened ChunkPlan
  import opened Seqs

  /** The repository's cursor file. */
  datatype Stored = Stored(cursor: Cursor, updatedAt: nat, discarded: bool)

  /** The mark a hook leaves when it runs signed out. */
  datatype Mark = Mark(lastUuid: string, size: nat, updatedAt: nat)

  /** A line of the pending-boundary store; `lastUuid` is "" when the hook could not read the transcript. */
  datatype Scope = Everywhere | Here | Elsewhere
  datatype Entry = Entry(scope: Scope, at: nat, lastUuid: string)

  datatype Files = Files(stored: Option<Stored>, mark: Option<Mark>, pending: seq<Entry>, queue: seq<Chunk>)

  /** What a hook found when it read the cursor file, before it read the transcript. */
  datatype CursorRead = Missing | Unreadable | Found(cursor: Cursor)

  /** What a hook saw of the transcript, and when. */
  datatype Look = Look(at: nat, objs: seq<Record>)

  /** Which of the three stores can be read when a transcript is staged. */
  datatype Readable = Readable(cursor: bool, mark: bool, pending: bool)

  const ALL := Readable(true, true, true)

  datatype Boundary = Boundary(lastUuid: string, at: nat)

  datatype DeltaStart = Hold | From(cursor: Option<Cursor>)

  function Positioned(entries: seq<Entry>): seq<Boundary>
    decreases |entries|
  {
    if entries == [] then []
    else
      var e := entries[|entries| - 1];
      Positioned(entries[..|entries| - 1]) +
      (if !e.scope.Elsewhere? && e.lastUuid != "" then [Boundary(e.lastUuid, e.at)] else [])
  }

  function Unpositioned(entries: seq<Entry>): seq<nat>
    decreases |entries|
  {
    if entries == [] then []
    else
      var e := entries[|entries| - 1];
      Unpositioned(entries[..|entries| - 1]) + (if !e.scope.Elsewhere? && e.lastUuid == "" then [e.at] else [])
  }

  /** The boundaries staging can place. */
  function Known(f: Files, ok: Readable): seq<Boundary> {
    (if f.stored.Some? && ok.cursor then [Boundary(f.stored.value.cursor.lastUuid, f.stored.value.updatedAt)] else []) +
    (if f.mark.Some? && ok.mark && f.mark.value.lastUuid != "" then [Boundary(f.mark.value.lastUuid, f.mark.value.updatedAt)] else []) +
    (if ok.pending then Positioned(f.pending) else [])
  }

  /** The times of boundaries that exist but cannot be placed: a store that cannot be read counts from its
      last write. */
  function Unplaced(f: Files, ok: Readable): seq<nat> {
    (if f.stored.Some? && !ok.cursor then [f.stored.value.updatedAt] else []) +
    (if f.mark.Some? && !ok.mark then [f.mark.value.updatedAt] else []) +
    (if ok.pending then Unpositioned(f.pending)
     else if f.pending != [] then [f.pending[|f.pending| - 1].at] else [])
  }

  function Latest(known: seq<Boundary>): nat
    decreases |known|
  {
    if known == [] then 0
    else
      var before, at := Latest(known[..|known| - 1]), known[|known| - 1].at;
      if at > before then at else before
  }

  lemma {:induction false} LatestAtLeast(known: seq<Boundary>, i: nat)
    requires i < |known|
    ensures Latest(known) >= known[i].at
    decreases |known|
  {
    if i < |known| - 1 { LatestAtLeast(known[..|known| - 1], i); }
  }

  predicate Holds(f: Files, ok: Readable) {
    var unplaced := Unplaced(f, ok);
    exists i | 0 <= i < |unplaced| :: unplaced[i] >= Latest(Known(f, ok))
  }

  function PlaceOf(objs: seq<Record>, uuid: string): int {
    if uuid == "" then -1 else IndexOf(objs, uuid)
  }

  /** The furthest place any boundary has in the transcript, -1 for none. */
  function Furthest(objs: seq<Record>, known: seq<Boundary>): (i: int)
    ensures -1 <= i < |objs|
    decreases |known|
  {
    if known == [] then -1
    else
      var before, here := Furthest(objs, known[..|known| - 1]), PlaceOf(objs, known[|known| - 1].lastUuid);
      if here > before then here else before
  }

  function CursorOf(f: Files, ok: Readable): Option<Cursor> {
    if f.stored.Some? && ok.cursor then Some(f.stored.value.cursor) else None
  }

  /** The cursor, moved on to the furthest boundary when that lies beyond it. */
  function MovedTo(objs: seq<Record>, cursor: Option<Cursor>, furthest: int): Option<Cursor>
    requires -1 <= furthest < |objs|
  {
    var here := if cursor.Some? then PlaceOf(objs, cursor.value.lastUuid) else -1;
    if furthest > here then
      Some(if cursor.Some? then cursor.value.(lastUuid := objs[furthest].uuid) else Cursor(objs[furthest].uuid, 0, 0))
    else cursor
  }

  function LiveDeltaStart(f: Files, objs: seq<Record>, ok: Readable): DeltaStart {
    if Holds(f, ok) then Hold
    else From(MovedTo(objs, CursorOf(f, ok), Furthest(objs, Known(f, ok))))
  }

  /** Nothing was recorded for a repository without a cursor when the staging has no turn of its own. */
  predicate NeverRecorded(f: Files, objs: seq<Record>, prompted: bool, ok: Readable) {
    CursorOf(f, ok).None? && !prompted && exists i | 0 <= i < |objs| :: objs[i].promptId.Some?
  }

  function Seqno(cursor: Option<Cursor>): nat {
    if cursor.Some? then cursor.value.seqno else 0
  }

  function Baseline(cursor: Option<Cursor>): nat {
    if cursor.Some? then cursor.value.baseline else 0
  }

  /** Where a staging starts: a repository not recorded so far is not begun in the middle of a conversation. */
  function StartOf(f: Files, objs: seq<Record>, prompted: bool, ok: Readable): DeltaStart {
    if NeverRecorded(f, objs, prompted, ok) then Hold else LiveDeltaStart(f, objs, ok)
  }

  /** A held staging only moves the cursor to the end. */
  function HeldBack(f: Files, seqno: nat, baseline: nat, last: string, now: nat): Files {
    if last == "" then f else f.(stored := Some(Stored(Cursor(last, seqno, baseline), now, true)))
  }

  function Sealed(f: Files, plan: Plan, now: nat): Files {
    if plan.newCursor.None? then f
    else f.(queue := f.queue + plan.chunks, stored := Some(Stored(plan.newCursor.value, now, false)))
  }

  /** The result of `stageRepositoryTurns`. */
  function Staged(cfg: Config, f: Files, objs: seq<Record>, now: nat, keep: nat -> bool, prompted: bool, ok: Readable): Files {
    var cursor := CursorOf(f, ok);
    var delta := StartOf(f, objs, prompted, ok);
    if delta.Hold? then HeldBack(f, Seqno(cursor), Baseline(cursor), LastContentUuid(objs), now)
    else Sealed(f, PlanOf(cfg, objs, delta.cursor, Seqno(cursor), keep), now)
  }

  function ReadOf(f: Files, readable: bool): CursorRead {
    if f.stored.None? then Missing else if readable then Found(f.stored.value.cursor) else Unreadable
  }

  /** `readCursor`: a file that cannot be read is taken for a missing one. */
  function Existing(read: CursorRead): Option<Cursor> {
    if read.Found? then Some(read.cursor) else None
  }

  /** A cursor written since the look, beyond everything it saw. */
  predicate WrittenSince(current: Option<Stored>, look: Look) {
    && current.Some? && current.value.cursor.lastUuid != "" && current.value.updatedAt >= look.at
    && IndexOf(look.objs, current.value.cursor.lastUuid) == -1
  }

  /** Whether `advanceCursorToTranscriptTail` writes. A missing cursor is judged by what was read before the look, and
      then nothing is checked again; otherwise a cursor written since is not moved back. */
  predicate Advances(f: Files, read: CursorRead, look: Look, onlyWhenMissing: bool, readable: bool) {
    && LastContentUuid(look.objs) != ""
    && if onlyWhenMissing then !read.Found? else !(readable && WrittenSince(f.stored, look))
  }

  /** The result of `advanceCursorToTranscriptTail`: the number was read before the look, the baseline is read at the
      write; `readable` tells whether the file can be read then. */
  function Advanced(f: Files, read: CursorRead, look: Look, now: nat, onlyWhenMissing: bool, readable: bool): Files {
    if !Advances(f, read, look, onlyWhenMissing, readable) then f
    else
      var cursor := Cursor(LastContentUuid(look.objs), Seqno(Existing(read)), Baseline(Existing(ReadOf(f, readable))));
      f.(stored := Some(Stored(cursor, now, !onlyWhenMissing)))
  }

  /** The result of `markUnlicensedTranscript`. */
  function SignedOutMarked(f: Files, look: Look, now: nat): Files {
    var last := LastContentUuid(look.objs);
    if last == "" then f
    else if f.mark.Some? && f.mark.value.updatedAt >= look.at && f.mark.value.size > |look.objs| then f
    else f.(mark := Some(Mark(last, |look.objs|, now)))
  }

  /** The result of `recordPendingBoundary`; `read` tells whether the transcript could be read. */
  function Pended(f: Files, look: Look, now: nat, scope: Scope, read: bool): Files {
    var last := LastContentUuid(look.objs);
    if read && last == "" then f
    else f.(pending := f.pending + [Entry(scope, now, if read then last else "")])
  }

  /** The first record of a prompt, or -1. */
  function FirstOfPrompt(objs: seq<Record>, prompt: string): (i: int)
    ensures -1 <= i < |objs|
    decreases |objs|
  {
    if objs == [] then -1
    else
      var n := |objs| - 1;
      var i := FirstOfPrompt(objs[..n], prompt);
      if i >= 0 then i else if objs[n].promptId == Some(prompt) then n else -1
  }

  /** What came before the turn of a prompt: everything, when the turn is not written yet. */
  function BeforePrompt(objs: seq<Record>, prompt: string): seq<Record> {
    var first := FirstOfPrompt(objs, prompt);
    if first == -1 then objs else objs[..first]
  }

  /** Where a transcript is begun at a turn: after the newest record of an earlier turn, at the start ("") without
      one, and nowhere when no record carries a prompt id. */
  function BeginAnchor(objs: seq<Record>, prompt: string): Option<string> {
    if LastContentUuid(objs) == "" then Some("")
    else if forall i | 0 <= i < |objs| :: objs[i].promptId.None? then None
    else
      var before := BeforePrompt(objs, prompt);
      Some(if TurnsStarted(before).0 > 0 then LastContentUuid(before) else "")
  }

  predicate Begins(read: CursorRead, look: Look, prompt: string) {
    read.Missing? && prompt != "" && BeginAnchor(look.objs, prompt).Some?
  }

  /** The result of `startTranscriptAtTurn`, for a hook that found no cursor file before its look. */
  function Begun(f: Files, read: CursorRead, look: Look, prompt: string, now: nat, readable: bool): Files {
    if !Begins(read, look, prompt) then f
    else
      var cursor := Cursor(BeginAnchor(look.objs, prompt).value, 0, Baseline(Existing(ReadOf(f, readable))));
      f.(stored := Some(Stored(cursor, now, false)))
  }

  /** The files of one transcript and repository, changed step by step as transfer.js does. */
  class RepositoryTranscript {
    var stored: Option<Stored>
    var mark: Option<Mark>
    var pending: seq<Entry>
    var queue: seq<Chunk>

    ghost function Value(): (f: Files)
      reads this
    {
      Files(stored, mark, pending, queue)
    }

    method CollectBoundaries(ok: Readable) returns (known: seq<Boundary>, unplaced: seq<nat>)
      ensures known == Known(Value(), ok) && unplaced == Unplaced(Value(), ok)
    {
      var ofCursor: seq<Boundary>, cursorOpen: seq<nat> := [], [];
      if stored.Some? {
        if ok.cursor { ofCursor := [Boundary(stored.value.cursor.lastUuid, stored.value.updatedAt)]; }
        else { cursorOpen := [stored.value.updatedAt]; }
      }
      var ofMark: seq<Boundary>, markOpen: seq<nat> := [], [];
      if mark.Some? {
        if !ok.mark { markOpen := [mark.value.updatedAt]; }
        else if mark.value.lastUuid != "" { ofMark := [Boundary(mark.value.lastUuid, mark.value.updatedAt)]; }
      }
      var ofPending, pendingOpen := CollectPending(ok.pending);
      known, unplaced := ofCursor + ofMark + ofPending, cursorOpen + markOpen + pendingOpen;
    }

    /** The boundaries of the pending entries that concern this repository. */
    method CollectPending(readable: bool) returns (known: seq<Boundary>, unplaced: seq<nat>)
      ensures known == if readable then Positioned(pending) else []
      ensures unplaced == if readable then Unpositioned(pending) else if pending != [] then [pending[|pending| - 1].at] else []
    {
      known, unplaced := [], [];
      if !readable {
        if pending != [] { unplaced := [pending[|pending| - 1].at]; }
        return;
      }
      for i := 0 to |pending|
        invariant known == Positioned(pending[..i]) && unplaced == Unpositioned(pending[..i])
      {
        Snoc(pending, i);
        var entry := pending[i];
        if !entry.scope.Elsewhere? {
          if entry.lastUuid != "" { known := known + [Boundary(entry.lastUuid, entry.at)]; }
          else { unplaced := unplaced + [entry.at]; }
        }
      }
      Whole(pending);
    }

    static method LatestTime(known: seq<Boundary>) returns (latest: nat)
      ensures latest == Latest(known)
    {
      latest := 0;
      for i := 0 to |known|
        invariant latest == Latest(known[..i])
      {
        assert known[..i + 1][..i] == known[..i];
        if known[i].at > latest { latest := known[i].at; }
      }
      assert known[..|known|] == known;
    }

    static method MoveOn(objs: seq<Record>, cursor: Option<Cursor>, known: seq<Boundary>) returns (start: Option<Cursor>)
      ensures start == MovedTo(objs, cursor, Furthest(objs, known))
    {
      var startIndex := if cursor.Some? then PlaceOf(objs, cursor.value.lastUuid) else -1;
      ghost var first := startIndex;
      start := cursor;
      for i := 0 to |known|
        invariant startIndex == if Furthest(objs, known[..i]) > first then Furthest(objs, known[..i]) else first
        invariant start == MovedTo(objs, cursor, Furthest(objs, known[..i]))
      {
        assert known[..i + 1][..i] == known[..i];
        var index := PlaceOf(objs, known[i].lastUuid);
        if index > startIndex {
          start := Some(if cursor.Some? then cursor.value.(lastUuid := known[i].lastUuid) else Cursor(known[i].lastUuid, 0, 0));
          startIndex := index;
        }
      }
      assert known[..|known|] == known;
    }

    method FindDeltaStart(objs: seq<Record>, ok: Readable) returns (start: DeltaStart)
      ensures start == LiveDeltaStart(Value(), objs, ok)
    {
      var known, unplaced := CollectBoundaries(ok);
      var latest := LatestTime(known);
      if exists i | 0 <= i < |unplaced| :: unplaced[i] >= latest { return Hold; }
      var cursor := if stored.Some? && ok.cursor then Some(stored.value.cursor) else None;
      var moved := MoveOn(objs, cursor, known);
      start := From(moved);
    }

    method StartStaging(objs: seq<Record>, prompted: bool, ok: Readable) returns (start: DeltaStart)
      ensures start == StartOf(Value(), objs, prompted, ok)
    {
      var cursor := if stored.Some? && ok.cursor then Some(stored.value.cursor) else None;
      if cursor.None? && !prompted && exists i | 0 <= i < |objs| :: objs[i].promptId.Some? { return Hold; }
      start := FindDeltaStart(objs, ok);
    }

    /** The chunks of a plan are sealed one by one, then the cursor is written. */
    method SealPlan(plan: Plan, now: nat) returns (sealed: nat)
      modifies this`queue, this`stored
      ensures Value() == Sealed(old(Value()), plan, now)
      ensures sealed == |queue| - |old(queue)|
    {
      sealed := 0;
      if plan.newCursor.None? { return; }
      ghost var before := queue;
      for i := 0 to |plan.chunks|
        invariant queue == before + plan.chunks[..i] && sealed == i
        invariant unchanged(`stored) && unchanged(`mark) && unchanged(`pending)
      {
        Snoc(plan.chunks, i);
        Assoc(before, plan.chunks[..i], [plan.chunks[i]]);
        queue := queue + [plan.chunks[i]];
        sealed := sealed + 1;
      }
      Whole(plan.chunks);
      stored := Some(Stored(plan.newCursor.value, now, false));
    }

    method StageRepositoryTurns(cfg: Config, objs: seq<Record>, now: nat, keep: nat -> bool, prompted: bool, ok: Readable)
      returns (sealed: nat)
      modifies this
      ensures Value() == Staged(cfg, old(Value()), objs, now, keep, prompted, ok)
      ensures sealed == |queue| - |old(queue)|
    {
      var cursor := if stored.Some? && ok.cursor then Some(stored.value.cursor) else None;
      var start := StartStaging(objs, prompted, ok);
      if start.Hold? {
        var last := FindLastContentUuid(objs);
        if last != "" {
          stored := Some(Stored(Cursor(last, Seqno(cursor), Baseline(cursor)), now, true));
        }
        return 0;
      }
      var plan := BuildChunkPlan(cfg, objs, start.cursor, Seqno(cursor), keep);
      sealed := SealPlan(plan, now);
    }

    /** What a hook that has read the cursor, then the transcript, writes. */
    method AdvanceCursorToTranscriptTail(read: CursorRead, look: Look, now: nat, onlyWhenMissing: bool, readable: bool)
      modifies this`stored
      ensures Value() == Advanced(old(Value()), read, look, now, onlyWhenMissing, readable)
    {
      if onlyWhenMissing && read.Found? { return; }
      var last := FindLastContentUuid(look.objs);
      if last == "" { return; }
      var current := if readable then stored else None;
      if !onlyWhenMissing && current.Some? && current.value.cursor.lastUuid != "" {
        if current.value.updatedAt >= look.at && IndexOf(look.objs, current.value.cursor.lastUuid) == -1 { return; }
      }
      var number := if read.Found? then read.cursor.seqno else 0;
      var baseline := if current.Some? then current.value.cursor.baseline else 0;
      stored := Some(Stored(Cursor(last, number, baseline), now, !onlyWhenMissing));
    }

    /** What a hook of a turn writes that has found no cursor file, then read the transcript. */
    method StartTranscriptAtTurn(read: CursorRead, look: Look, prompt: string, now: nat, readable: bool)
      modifies this`stored
      ensures Value() == Begun(old(Value()), read, look, prompt, now, readable)
    {
      if prompt == "" || !read.Missing? { return; }
      var last := FindLastContentUuid(look.objs);
      var baseline := if readable && stored.Some? then stored.value.cursor.baseline else 0;
      if last == "" {
        stored := Some(Stored(Cursor("", 0, baseline), now, false));
        return;
      }
      if forall i | 0 <= i < |look.objs| :: look.objs[i].promptId.None? { return; }
      var first := FindPrompt(look.objs, prompt);
      var before := if first == -1 then look.objs else look.objs[..first];
      var turns := TurnNumbers(before);
      AnyTurn(before);
      var anchor := "";
      if exists i | 0 <= i < |turns| :: turns[i] > 0 { anchor := FindLastContentUuid(before); }
      stored := Some(Stored(Cursor(anchor, 0, baseline), now, false));
    }

    static method FindPrompt(objs: seq<Record>, prompt: string) returns (first: int)
      ensures first == FirstOfPrompt(objs, prompt)
    {
      Whole(objs);
      for i := 0 to |objs|
        invariant FirstOfPrompt(objs[..i], prompt) == -1
      {
        NextPrompt(objs, i, prompt);
        if objs[i].promptId == Some(prompt) { return i; }
      }
      return -1;
    }

    method MarkUnlicensedTranscript(look: Look, now: nat)
      modifies this`mark
      ensures Value() == SignedOutMarked(old(Value()), look, now)
    {
      var last := FindLastContentUuid(look.objs);
      if last == "" { return; }
      if mark.Some? && mark.value.updatedAt >= look.at && mark.value.size > |look.objs| { return; }
      mark := Some(Mark(last, |look.objs|, now));
    }

    method RecordPendingBoundary(look: Look, now: nat, scope: Scope, read: bool)
      modifies this`pending
      ensures Value() == Pended(old(Value()), look, now, scope, read)
    {
      var last := FindLastContentUuid(look.objs);
      if read && last == "" { return; }
      pending := pending + [Entry(scope, now, if read then last else "")];
    }
  }

  /** Some record is in a turn exactly when a turn was started. */
  lemma AnyTurn(objs: seq<Record>)
    ensures TurnsStarted(objs).0 > 0 <==> exists i :: 0 <= i < |objs| && TurnsOf(objs)[i] > 0
  {
    if objs != [] {
      var n := |objs| - 1;
      assert objs[..n + 1] == objs;
      assert TurnsOf(objs)[n] == TurnsStarted(objs).0;
      forall i | 0 <= i < |objs| ensures TurnsOf(objs)[i] <= TurnsOf(objs)[n] { TurnsNeverDecrease(objs, i, n); }
    }
  }

  lemma NextPrompt(objs: seq<Record>, i: nat, prompt: string)
    requires i < |objs| && FirstOfPrompt(objs[..i], prompt) == -1
    ensures if objs[i].promptId == Some(prompt) then FirstOfPrompt(objs, prompt) == i else FirstOfPrompt(objs[..i + 1], prompt) == -1
  {
    Snoc(objs, i);
    if objs[i].promptId == Some(prompt) { FirstStays(objs, i + 1, prompt); }
  }

  lemma {:induction false} FirstStays(objs: seq<Record>, i: nat, prompt: string)
    requires i <= |objs| && FirstOfPrompt(objs[..i], prompt) >= 0
    ensures FirstOfPrompt(objs, prompt) == FirstOfPrompt(objs[..i], prompt)
    decreases |objs|
  {
    if i == |objs| {
      assert objs[..i] == objs;
    } else {
      var n := |objs| - 1;
      assert objs[..n][..i] == objs[..i];
      FirstStays(objs[..n], i, prompt);
    }
  }

  // ---------------------------------------------------------------------------------------------
  // Runs
  // ---------------------------------------------------------------------------------------------

  /** The transcript, the clock, the hooks on their way (the cursor they read, then what they saw), and the files. */
  datatype State = State(objs: seq<Record>, now: nat, found: map<nat, CursorRead>, looks: map<nat, Look>, files: Files)

  /** `readable` tells whether the cursor file can be read at that step. */
  datatype Action =
    | Append(more: seq<Record>)
    | Rewrite(objs: seq<Record>)
    | Tick(ms: nat)
    | ReadCursor(hook: nat, readable: bool)
    | TakeLook(hook: nat)
    | Advance(hook: nat, onlyWhenMissing: bool, readable: bool)
    | Begin(hook: nat, prompt: string, readable: bool)
    | SignedOutMark(hook: nat)
    | Pend(hook: nat, scope: Scope, read: bool)
    | Stage(keep: nat -> bool, prompted: bool, ok: Readable)

  /** A hook that has read the cursor and then the transcript. */
  predicate Ready(s: State, h: nat) {
    h in s.found && h in s.looks
  }

  function Apply(cfg: Config, s: State, act: Action): State {
    match act
    case Append(more) => s.(objs := s.objs + more)
    case Rewrite(objs) => s.(objs := objs)
    case Tick(ms) => s.(now := s.now + ms)
    case ReadCursor(h, readable) => s.(found := s.found[h := ReadOf(s.files, readable)], looks := s.looks - {h})
    case TakeLook(h) => s.(looks := s.looks[h := Look(s.now, s.objs)])
    case Advance(h, onlyWhenMissing, readable) =>
      if Ready(s, h) then s.(files := Advanced(s.files, s.found[h], s.looks[h], s.now, onlyWhenMissing, readable)) else s
    case Begin(h, prompt, readable) =>
      if Ready(s, h) then s.(files := Begun(s.files, s.found[h], s.looks[h], prompt, s.now, readable)) else s
    case SignedOutMark(h) =>
      if h in s.looks then s.(files := SignedOutMarked(s.files, s.looks[h], s.now)) else s
    case Pend(h, scope, read) =>
      if h in s.looks then s.(files := Pended(s.files, s.looks[h], s.now, scope, read)) else s
    case Stage(keep, prompted, ok) => s.(files := Staged(cfg, s.files, s.objs, s.now, keep, prompted, ok))
  }

  const NO_FILES := Files(None, None, [], [])
}
