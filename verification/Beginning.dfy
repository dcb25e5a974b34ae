/** Where a repository begins that a hook first sees in the middle of a transcript (`startTranscriptAtTurn` in transfer.js): what
    the staging after it seals. */
module Beginning {
  import opened Options
  import opened TurnRouting
  import opened ChunkSplit
  import opened ChunkPlan
  import opened Staging
  import opened Guarding = Boundary

  /** The first record of the prompt, or, when it is not written yet, the end of what was seen. */
  ghost predicate TurnAt(objs: seq<Record>, prompt: string, first: nat) {
    && first <= |objs|
    && (forall j | 0 <= j < first :: objs[j].promptId != Some(prompt))
    && (first < |objs| ==> objs[first].promptId == Some(prompt))
  }

  /** Some record is the first of a turn: of a user, and with a prompt id or without a tool's answer. */
  predicate SomeTurn(objs: seq<Record>, n: nat)
    requires n <= |objs|
  {
    exists j | 0 <= j < n :: Opens(objs[j])
  }

  lemma {:induction false} FirstIs(objs: seq<Record>, prompt: string)
    ensures var i := FirstOfPrompt(objs, prompt); TurnAt(objs, prompt, if i >= 0 then i else |objs|)
    decreases |objs|
  {
    if objs != [] { FirstIs(objs[..|objs| - 1], prompt); }
  }

  lemma BeforeIs(objs: seq<Record>, prompt: string, first: nat)
    requires TurnAt(objs, prompt, first)
    ensures BeforePrompt(objs, prompt) == objs[..first]
  {
    FirstIs(objs, prompt);
    assert objs[..|objs|] == objs;
  }

  /** Where the cursor is put: before the turn, at the newest content of what is before it, if a turn is; else at the start. */
  lemma AnchorIs(objs: seq<Record>, prompt: string, first: nat)
    requires TurnAt(objs, prompt, first) && BeginAnchor(objs, prompt).Some?
    ensures BeginAnchor(objs, prompt).value == if SomeTurn(objs, first) then LastContentUuid(objs[..first]) else ""
  {
    BeforeIs(objs, prompt, first);
    AnyTurnStarted(objs[..first]);
    if LastContentUuid(objs) == "" {
      forall o | o in objs[..first] ensures o.uuid == "" { assert o in objs; }
    }
    if j :| 0 <= j < first && Opens(objs[j]) { assert Opens(objs[..first][j]); }
  }

  /** Content lies beyond the newest content before `n` exactly when it lies at or beyond `n`. */
  lemma BeyondAnchor(objs: seq<Record>, n: nat, k: nat)
    requires Unique(objs) && n <= |objs| && k < |objs| && objs[k].uuid != ""
    ensures PlaceOf(objs, LastContentUuid(objs[..n])) < k <==> n <= k
    ensures Located(objs, LastContentUuid(objs[..n]))
  {
    PrefixUnique(objs[..n], objs);
    TailIsLast(objs[..n]);
    PlaceStays(objs[..n], objs, LastContentUuid(objs[..n]));
    if k < n { assert objs[..n][k] == objs[k]; }
  }

  /** A hook that writes when it found no cursor, knows its prompt, and can tell the turns or sees no content. */
  predicate KnowsItsTurn(objs: seq<Record>, prompt: string) {
    prompt != "" && ((forall o | o in objs :: o.uuid == "") || exists i | 0 <= i < |objs| :: objs[i].promptId.Some?)
  }

  /** It writes the cursor in no other case. */
  lemma BeginsOnlyThen(cfg: Config, s: State, h: nat, prompt: string, readable: bool)
    requires h in s.found && h in s.looks
    ensures var u := Apply(cfg, s, Begin(h, prompt, readable));
            if s.found[h].Missing? && KnowsItsTurn(s.looks[h].objs, prompt)
            then u.files.stored.Some? && u.files.stored.value.updatedAt == s.now && u.files.stored.value.cursor.seqno == 0
                 && !u.files.stored.value.discarded && u == s.(files := s.files.(stored := u.files.stored))
            else u == s
  {
  }

  /** Only a cursor is there: staging starts behind it. */
  lemma SealsBehindCursor(cfg: Config, s: State, keep: nat -> bool, prompted: bool, k: nat)
    requires GzipBounded(cfg.sizes) && Unique(s.objs) && k < |s.objs| && s.objs[k].uuid != ""
    requires s.files.stored.Some? && Located(s.objs, s.files.stored.value.cursor.lastUuid) && s.files.mark.None? && s.files.pending == []
    requires keep(k) && Accepted(cfg.sizes, cfg.envelope, [s.objs[k]])
    ensures Seals(cfg, s, Stage(keep, prompted, ALL), s.objs[k]) <==> PlaceOf(s.objs, s.files.stored.value.cursor.lastUuid) < k
  {
    SealsUnlessGuarded(cfg, s, Stage(keep, prompted, ALL), k);
    var f := s.files;
    var known := Known(f, ALL);
    assert Positioned(f.pending) == [] && Unpositioned(f.pending) == [];
    assert known == [Boundary(f.stored.value.cursor.lastUuid, f.stored.value.updatedAt)] && known[..0] == [];
    assert Unplaced(f, ALL) == [];
    assert Furthest(s.objs, known) == PlaceOf(s.objs, f.stored.value.cursor.lastUuid);
  }

  /** A repository begun at a turn: of the transcript as the hook saw it and of all that is written later, kept content that
      fits is sealed exactly when it is of that turn or a later one, or no turn was before it at all. */
  lemma BeginsAtItsTurn(cfg: Config, s: State, h: nat, prompt: string, readable: bool, more: seq<Record>, first: nat,
                        keep: nat -> bool, prompted: bool, k: nat)
    requires GzipBounded(cfg.sizes) && Unique(s.objs + more)
    requires h in s.found && s.found[h].Missing? && h in s.looks && s.looks[h].objs == s.objs
    requires KnowsItsTurn(s.objs, prompt) && TurnAt(s.objs, prompt, first) && s.files.mark.None? && s.files.pending == []
    requires k < |s.objs + more| && (s.objs + more)[k].uuid != "" && keep(k) && Accepted(cfg.sizes, cfg.envelope, [(s.objs + more)[k]])
    ensures var u := Apply(cfg, Apply(cfg, s, Begin(h, prompt, readable)), Append(more));
            && u.objs == s.objs + more
            && (Seals(cfg, u, Stage(keep, prompted, ALL), u.objs[k]) <==> first <= k || !SomeTurn(s.objs, first))
  {
    var b := Apply(cfg, s, Begin(h, prompt, readable));
    BegunAt(cfg, s, h, prompt, readable, first);
    SealsFromTurn(cfg, b, more, first, SomeTurn(s.objs, first), keep, prompted, k);
  }

  lemma BegunAt(cfg: Config, s: State, h: nat, prompt: string, readable: bool, first: nat)
    requires h in s.found && s.found[h].Missing? && h in s.looks && s.looks[h].objs == s.objs
    requires KnowsItsTurn(s.objs, prompt) && TurnAt(s.objs, prompt, first)
    ensures var b := Apply(cfg, s, Begin(h, prompt, readable));
            && b.objs == s.objs && b.files.mark == s.files.mark && b.files.pending == s.files.pending && b.files.stored.Some?
            && b.files.stored.value.cursor.lastUuid == if SomeTurn(s.objs, first) then LastContentUuid(s.objs[..first]) else ""
  {
    BeginsOnlyThen(cfg, s, h, prompt, readable);
    AnchorIs(s.objs, prompt, first);
  }

  lemma SealsFromTurn(cfg: Config, b: State, more: seq<Record>, first: nat, some: bool, keep: nat -> bool, prompted: bool, k: nat)
    requires GzipBounded(cfg.sizes) && Unique(b.objs + more) && first <= |b.objs|
    requires b.files.stored.Some? && b.files.mark.None? && b.files.pending == []
    requires b.files.stored.value.cursor.lastUuid == if some then LastContentUuid(b.objs[..first]) else ""
    requires k < |b.objs + more| && (b.objs + more)[k].uuid != "" && keep(k) && Accepted(cfg.sizes, cfg.envelope, [(b.objs + more)[k]])
    ensures var u := Apply(cfg, b, Append(more));
            u.objs == b.objs + more && (Seals(cfg, u, Stage(keep, prompted, ALL), u.objs[k]) <==> first <= k || !some)
  {
    var u := Apply(cfg, b, Append(more));
    assert u.objs[..first] == b.objs[..first];
    BeyondAnchor(u.objs, first, k);
    SealsBehindCursor(cfg, u, keep, prompted, k);
  }
}
