/** License renewal (shared/lib/license-renewal.js) interleaved with everything else that changes a session:
    any number of processes renewing through `ensureFresh` under the dead-owner lock, sign-in intents and
    their commits, sign-outs, and crashes between any two steps.

    Commits on the session are single steps; StoreFile proves that they take effect one after another. */
module Renewal {
  import Lock = CredentialLock
  import opened Credstore
  import opened Options

  /** One call of `ensureFresh` that holds the renewal lock. */
  datatype Phase =
    | Snapped(expected: Snapshot)
    | Current(expected: Snapshot)
    | Presented(expected: Snapshot)
    | Granted(expected: Snapshot, token: RefreshToken)
    | Exchanging(current: Snapshot)
    | Issued(current: Snapshot, license: License)
    | Revoked(current: Snapshot)
    | Leaving

  /** The answers of the broker and of /activate are inputs. */
  datatype Grant = Rotating | SameToken | Refused
  datatype Exchange = Minted(text: nat) | Ended | Failed

  datatype Action =
    | Locking(act: Lock.Action)
    | Snap(agent: Lock.Agent)
    | CheckCurrent(agent: Lock.Agent)
    | Present(agent: Lock.Agent)
    | Answer(agent: Lock.Agent, grant: Grant)
    | Rotate(agent: Lock.Agent)
    | Activate(agent: Lock.Agent, exchange: Exchange)
    | Settle(agent: Lock.Agent)
    | GiveUp(agent: Lock.Agent)
    | Leave(agent: Lock.Agent)
    | SignOut
    | MarkEngaged
    | CommitSignin(intent: Generation, deviceId: string, license: nat, withRefresh: bool)

  datatype Env = Env(path: string, device: string)

  /** `nextGeneration` and `nextText` are the fresh values of the random source and of the broker. The rest
      is history: the intents begun, the sign-ins committed, the generation of the last sign-out, the refresh
      tokens presented to the broker in order, and those a stored successor has replaced. */
  datatype State = State(
    lock: Lock.State,
    session: Session,
    phases: map<Lock.Agent, Phase>,
    nextGeneration: Generation,
    nextText: nat,
    intents: set<Generation>,
    commits: set<Generation>,
    lastSignOut: Generation,
    presented: seq<nat>,
    replaced: set<nat>)

  function To(s: State, a: Lock.Agent, p: Phase): State {
    s.(phases := s.phases[a := p])
  }

  /** A session is worth renewing when it holds a license, a refresh token and no sign-out. */
  predicate Renewable(e: Snapshot) {
    !e.signedOut && e.token.Some? && e.refreshToken.Some?
  }

  function Apply(env: Env, s: State, act: Action): State {
    match act
    case Locking(l) =>
      if !Lock.Foreign(s.lock, env.path, l) then s
      else
        var lock := Lock.Apply(s.lock, l);
        s.(lock := lock, phases := map a | a in s.phases && a in lock.agents :: s.phases[a])
    case Snap(a) =>
      if Lock.Inside(s.lock, env.path, a) && a !in s.phases then
        var e := RecoverySnapshot(s.session, env.device);
        To(s, a, if Renewable(e) then Snapped(e) else Leaving)
      else s
    case CheckCurrent(a) =>
      if a in s.phases && s.phases[a].Snapped? then
        To(s, a, if SnapshotMatches(s.session, s.phases[a].expected, env.device) then Current(s.phases[a].expected) else Leaving)
      else s
    case Present(a) =>
      if a in s.phases && s.phases[a].Current? then
        var e := s.phases[a].expected;
        To(s, a, Presented(e)).(presented := s.presented + (if e.refreshToken.Some? then [e.refreshToken.value.text] else []))
      else s
    case Answer(a, grant) =>
      if a in s.phases && s.phases[a].Presented? && s.phases[a].expected.refreshToken.Some? then
        var e := s.phases[a].expected;
        var was := e.refreshToken.value;
        match grant
        case Rotating => To(s, a, Granted(e, RefreshToken(s.nextText, was.origin))).(nextText := s.nextText + 1)
        case SameToken => To(s, a, Granted(e, was))
        case Refused => To(s, a, Leaving)
      else s
    case Rotate(a) =>
      if a in s.phases && s.phases[a].Granted? then
        var e, token := s.phases[a].expected, s.phases[a].token;
        if RefreshText(e.refreshToken) == Some(token.text) then To(s, a, Exchanging(e))
        else if SnapshotMatches(s.session, e, env.device) then
          To(s, a, Exchanging(e.(refreshToken := Some(token)))).(
            session := Rotated(s.session, token),
            replaced := s.replaced + (if e.refreshToken.Some? then {e.refreshToken.value.text} else {}))
        else To(s, a, Leaving)
      else s
    case Activate(a, exchange) =>
      if a in s.phases && s.phases[a].Exchanging? && s.phases[a].current.refreshToken.Some? then
        var e := s.phases[a].current;
        match exchange
        case Minted(text) => To(s, a, Issued(e, License(text, e.refreshToken.value.origin)))
        case Ended => To(s, a, Revoked(e))
        case Failed => To(s, a, Leaving)
      else s
    case Settle(a) =>
      if a in s.phases && s.phases[a].Issued? then
        var e := s.phases[a].current;
        if SnapshotMatches(s.session, e, env.device) then
          To(s, a, Leaving).(session := Refreshed(s.session, s.phases[a].license))
        else To(s, a, Leaving)
      else if a in s.phases && s.phases[a].Revoked? then
        var e := s.phases[a].current;
        if SnapshotMatches(s.session, e, env.device) then
          To(s, a, Leaving).(session := Dropped(s.session, s.nextGeneration), nextGeneration := s.nextGeneration + 1)
        else To(s, a, Leaving)
      else s
    case GiveUp(a) =>
      if a in s.phases then To(s, a, Leaving) else s
    case Leave(a) =>
      if a in s.phases && s.phases[a].Leaving? then
        s.(lock := Lock.Apply(s.lock, Lock.Release(a)), phases := s.phases - {a})
      else s
    case SignOut =>
      s.(session := SignedOut(s.nextGeneration), lastSignOut := s.nextGeneration, nextGeneration := s.nextGeneration + 1)
    case MarkEngaged =>
      s.(session := Engaged(s.session, s.nextGeneration), intents := s.intents + {s.nextGeneration},
         nextGeneration := s.nextGeneration + 1)
    case CommitSignin(intent, deviceId, license, withRefresh) =>
      if intent in s.intents && SigninMatches(s.session, intent, deviceId, env.device) then
        var refresh := if withRefresh then Some(RefreshToken(s.nextText, intent)) else None;
        s.(session := SignedIn(License(license, intent), refresh, s.nextGeneration),
           commits := s.commits + {intent},
           nextGeneration := s.nextGeneration + 1,
           nextText := s.nextText + 1)
      else s
  }

  function Exec(env: Env, s: State, acts: seq<Action>): State
    decreases |acts|
  {
    if acts == [] then s else Exec(env, Apply(env, s, acts[0]), acts[1..])
  }

  /** A session file without a license, whatever sign-out or old intent it records. */
  ghost predicate Init(s: State) {
    && Lock.Init(s.lock)
    && s.session.license == None && s.session.refresh == None
    && (s.session.generation.Some? ==> s.session.generation.value < s.nextGeneration)
    && s.lastSignOut < s.nextGeneration
    && s.phases == map[] && s.intents == {} && s.commits == {} && s.presented == [] && s.replaced == {}
  }

  // ---------------------------------------------------------------------------------------------
  // Invariants
  // ---------------------------------------------------------------------------------------------

  /** What is stored descends from one committed sign-in whose intent is younger than the last sign-out. */
  ghost predicate Lineage(s: State) {
    && (s.session.license.Some? ==>
          && !s.session.signedOut
          && s.session.license.value.origin in s.commits
          && s.session.license.value.origin > s.lastSignOut)
    && (s.session.refresh.Some? ==>
          s.session.license.Some? && s.session.refresh.value.origin == s.session.license.value.origin)
  }

  ghost predicate Generations(s: State) {
    && (s.session.generation.Some? ==> s.session.generation.value < s.nextGeneration)
    && (forall g | g in s.intents :: g < s.nextGeneration)
    && s.lastSignOut < s.nextGeneration
    && (s.session.generation.Some? && s.session.generation.value in s.intents ==> s.session.generation.value > s.lastSignOut)
  }

  /** As long as the generation lasts, a snapshot's refresh token belongs to the stored license's sign-in. */
  ghost predicate SnapshotOk(s: State, e: Snapshot) {
    && Renewable(e)
    && (e.generation.Some? ==> e.generation.value < s.nextGeneration)
    && e.refreshToken.value.text < s.nextText
    && (e.generation == s.session.generation && s.session.license.Some? ==>
          e.refreshToken.value.origin == s.session.license.value.origin)
  }

  ghost predicate PhaseOk(s: State, p: Phase) {
    match p
    case Snapped(e) => SnapshotOk(s, e) && e.refreshToken.value.text !in s.replaced
    case Current(e) => SnapshotOk(s, e) && e.refreshToken.value.text !in s.replaced
    case Presented(e) => SnapshotOk(s, e)
    case Granted(e, t) =>
      && SnapshotOk(s, e) && t.origin == e.refreshToken.value.origin && t.text < s.nextText
      && (t.text != e.refreshToken.value.text ==> t.text !in s.replaced)
    case Exchanging(e) => SnapshotOk(s, e)
    case Issued(e, l) => SnapshotOk(s, e) && l.origin == e.refreshToken.value.origin
    case Revoked(e) => SnapshotOk(s, e)
    case Leaving => true
  }

  ghost predicate Tokens(s: State) {
    && (forall t | t in s.replaced :: t < s.nextText)
    && (s.session.refresh.Some? ==> s.session.refresh.value.text < s.nextText && s.session.refresh.value.text !in s.replaced)
  }

  ghost predicate Inv(env: Env, s: State) {
    && Lock.Inv(s.lock)
    && Lineage(s) && Generations(s) && Tokens(s)
    && (forall a | a in s.phases :: Lock.Inside(s.lock, env.path, a) && PhaseOk(s, s.phases[a]))
  }

  lemma LockingKeepsInv(env: Env, s: State, l: Lock.Action)
    requires Inv(env, s) && Lock.Foreign(s.lock, env.path, l)
    ensures Inv(env, Apply(env, s, Locking(l)))
  {
    var t := Apply(env, s, Locking(l));
    Lock.ApplyKeepsInv(s.lock, l);
    forall a | a in t.phases ensures Lock.Inside(t.lock, env.path, a) && PhaseOk(t, t.phases[a]) {
      Lock.HoldersStay(s.lock, env.path, l, a);
      assert PhaseOk(s, s.phases[a]);
    }
  }

  /** Sign-outs, intents and sign-in commits come between any two steps of a renewal. */
  lemma OutsideKeepsInv(env: Env, s: State, act: Action)
    requires Inv(env, s) && (act.SignOut? || act.MarkEngaged? || act.CommitSignin?)
    ensures Inv(env, Apply(env, s, act))
  {
    var t := Apply(env, s, act);
    assert t == s || t.session.generation == Some(s.nextGeneration);
    forall a | a in t.phases ensures Lock.Inside(t.lock, env.path, a) && PhaseOk(t, t.phases[a]) {
      assert Lock.Inside(s.lock, env.path, a) && PhaseOk(s, s.phases[a]);
    }
  }

  /** While `a` is inside, its phase is the only one. */
  lemma OnlyPhase(env: Env, s: State, a: Lock.Agent)
    requires Inv(env, s) && a in s.phases
    ensures s.phases == map[a := s.phases[a]] && Lock.Inside(s.lock, env.path, a) && PhaseOk(s, s.phases[a])
  {
    forall b | b in s.phases ensures b == a { Lock.OneInside(s.lock, env.path, a, b); }
  }

  /** A step that touches neither the session nor a generation. */
  lemma MoveKeepsInv(env: Env, s: State, a: Lock.Agent, p: Phase, nextText: nat, presented: seq<nat>)
    requires Inv(env, s) && a in s.phases && nextText >= s.nextText
    requires PhaseOk(s.(nextText := nextText), p)
    ensures Inv(env, To(s, a, p).(nextText := nextText, presented := presented))
  {
    OnlyPhase(env, s, a);
    var t := To(s, a, p).(nextText := nextText, presented := presented);
    assert Lineage(t) && Generations(t) && Tokens(t);
    assert PhaseOk(t, p);
  }

  lemma QuietKeepsInv(env: Env, s: State, a: Lock.Agent, act: Action)
    requires Inv(env, s) && a in s.phases
    requires Quiet(a, act)
    ensures Inv(env, Apply(env, s, act))
  {
    var t := Apply(env, s, act);
    QuietIsMove(env, s, a, act);
    QuietPhaseOk(env, s, a, act);
    MoveKeepsInv(env, s, a, t.phases[a], t.nextText, t.presented);
  }

  ghost predicate Quiet(a: Lock.Agent, act: Action) {
    act == CheckCurrent(a) || act == Present(a) || act == GiveUp(a) || (act.Answer? && act.agent == a) || (act.Activate? && act.agent == a)
  }

  lemma QuietIsMove(env: Env, s: State, a: Lock.Agent, act: Action)
    requires a in s.phases && Quiet(a, act)
    ensures var t := Apply(env, s, act);
            a in t.phases && t.nextText >= s.nextText && t == To(s, a, t.phases[a]).(nextText := t.nextText, presented := t.presented)
  {
    assert s.phases == s.phases[a := s.phases[a]];
  }

  lemma QuietPhaseOk(env: Env, s: State, a: Lock.Agent, act: Action)
    requires Inv(env, s) && a in s.phases && Quiet(a, act)
    ensures var t := Apply(env, s, act); a in t.phases && PhaseOk(s.(nextText := t.nextText), t.phases[a])
  {
    assert PhaseOk(s, s.phases[a]);
  }

  lemma RotateKeepsInv(env: Env, s: State, a: Lock.Agent)
    requires Inv(env, s) && a in s.phases
    ensures Inv(env, Apply(env, s, Rotate(a)))
  {
    OnlyPhase(env, s, a);
    var t := Apply(env, s, Rotate(a));
    if t.session == s.session {
      assert PhaseOk(t, t.phases[a]);
    } else {
      RotatedOk(env, s, a);
    }
    OnlyPhaseOk(env, s, t, a);
  }

  lemma RotatedOk(env: Env, s: State, a: Lock.Agent)
    requires Inv(env, s) && a in s.phases && s.phases[a].Granted? && PhaseOk(s, s.phases[a])
    requires RefreshText(s.phases[a].expected.refreshToken) != Some(s.phases[a].token.text)
    requires SnapshotMatches(s.session, s.phases[a].expected, env.device)
    ensures var t := Apply(env, s, Rotate(a)); Lineage(t) && Generations(t) && Tokens(t) && PhaseOk(t, t.phases[a])
  {
  }

  lemma OnlyPhaseOk(env: Env, s: State, t: State, a: Lock.Agent)
    requires Lock.Inv(s.lock) && Lock.Inside(s.lock, env.path, a) && t.lock == s.lock
    requires t.phases.Keys == {a} && PhaseOk(t, t.phases[a])
    requires Lineage(t) && Generations(t) && Tokens(t)
    ensures Inv(env, t)
  {
  }

  lemma SettleKeepsInv(env: Env, s: State, a: Lock.Agent)
    requires Inv(env, s) && a in s.phases
    ensures Inv(env, Apply(env, s, Settle(a)))
  {
    OnlyPhase(env, s, a);
    var t := Apply(env, s, Settle(a));
    if t != s {
      SettledOk(env, s, a);
      OnlyPhaseOk(env, s, t, a);
    }
  }

  lemma SettledOk(env: Env, s: State, a: Lock.Agent)
    requires Inv(env, s) && a in s.phases && PhaseOk(s, s.phases[a]) && Apply(env, s, Settle(a)) != s
    ensures var t := Apply(env, s, Settle(a)); t.phases[a] == Leaving && Lineage(t) && Generations(t) && Tokens(t)
  {
  }

  lemma SnapKeepsInv(env: Env, s: State, a: Lock.Agent)
    requires Inv(env, s)
    ensures Inv(env, Apply(env, s, Snap(a)))
  {
    var t := Apply(env, s, Snap(a));
    forall b | b in t.phases ensures Lock.Inside(t.lock, env.path, b) && PhaseOk(t, t.phases[b]) {
      if b in s.phases { assert Lock.Inside(s.lock, env.path, b) && PhaseOk(s, s.phases[b]); }
    }
  }

  lemma LeaveKeepsInv(env: Env, s: State, a: Lock.Agent)
    requires Inv(env, s) && a in s.phases
    ensures Inv(env, Apply(env, s, Leave(a)))
  {
    var t := Apply(env, s, Leave(a));
    Lock.ReleaseKeepsInv(s.lock, a);
    forall b | b in t.phases ensures Lock.Inside(t.lock, env.path, b) && PhaseOk(t, t.phases[b]) {
      assert Lock.Inside(s.lock, env.path, b) && PhaseOk(s, s.phases[b]);
    }
  }

  lemma ApplyKeepsInv(env: Env, s: State, act: Action)
    requires Inv(env, s)
    ensures Inv(env, Apply(env, s, act))
  {
    match act
    case Locking(l) => if Lock.Foreign(s.lock, env.path, l) { LockingKeepsInv(env, s, l); }
    case Snap(a) => SnapKeepsInv(env, s, a);
    case Leave(a) => if a in s.phases { LeaveKeepsInv(env, s, a); }
    case SignOut => OutsideKeepsInv(env, s, act);
    case MarkEngaged => OutsideKeepsInv(env, s, act);
    case CommitSignin(_, _, _, _) => OutsideKeepsInv(env, s, act);
    case Rotate(a) => if a in s.phases { RotateKeepsInv(env, s, a); }
    case Settle(a) => if a in s.phases { SettleKeepsInv(env, s, a); }
    case _ => if act.agent in s.phases { QuietKeepsInv(env, s, act.agent, act); }
  }

  lemma {:induction false} ExecKeepsInv(env: Env, s: State, acts: seq<Action>)
    requires Inv(env, s)
    ensures Inv(env, Exec(env, s, acts))
    decreases |acts|
  {
    if acts != [] {
      ApplyKeepsInv(env, s, acts[0]);
      ExecKeepsInv(env, Apply(env, s, acts[0]), acts[1..]);
    }
  }

  // ---------------------------------------------------------------------------------------------
  // Main results
  // ---------------------------------------------------------------------------------------------

  /** In every interleaving: a stored license comes from a sign-in that committed, whose intent began after
      the last sign-out, and a stored refresh token comes from the same sign-in. */
  lemma SessionLineage(env: Env, s: State, acts: seq<Action>)
    requires Init(s)
    ensures Lineage(Exec(env, s, acts))
  {
    ExecKeepsInv(env, s, acts);
  }

  /** After a sign-out nothing is stored until a commit, and the intent of that commit is a later one. */
  lemma SignOutEndsEverything(env: Env, s: State, acts: seq<Action>, more: seq<Action>)
    requires Init(s)
    ensures var out := Apply(env, Exec(env, s, acts), SignOut);
            var t := Exec(env, out, more);
            && out.session.license == None && out.session.refresh == None
            && (t.session.license.Some? ==>
                  && t.session.license.value.origin in t.commits && t.session.license.value.origin > out.lastSignOut
                  && t.session.license.value.origin !in out.intents)
  {
    ExecKeepsInv(env, s, acts);
    var out := Apply(env, Exec(env, s, acts), SignOut);
    ApplyKeepsInv(env, Exec(env, s, acts), SignOut);
    ExecKeepsInv(env, out, more);
    SignOutsGrow(env, out, more);
  }

  lemma {:induction false} SignOutsGrow(env: Env, s: State, acts: seq<Action>)
    requires Inv(env, s)
    ensures Exec(env, s, acts).lastSignOut >= s.lastSignOut
    decreases |acts|
  {
    if acts != [] {
      ApplyKeepsInv(env, s, acts[0]);
      SignOutGrows(env, s, acts[0]);
      SignOutsGrow(env, Apply(env, s, acts[0]), acts[1..]);
    }
  }

  lemma SignOutGrows(env: Env, s: State, act: Action)
    requires Inv(env, s)
    ensures Apply(env, s, act).lastSignOut >= s.lastSignOut
  {
  }

  /** At most one live process is between taking its snapshot and settling the outcome. */
  lemma SingleFlight(env: Env, s: State, acts: seq<Action>, a: Lock.Agent, b: Lock.Agent)
    requires Init(s)
    requires a in Exec(env, s, acts).phases && b in Exec(env, s, acts).phases
    ensures a == b
  {
    ExecKeepsInv(env, s, acts);
    Lock.OneInside(Exec(env, s, acts).lock, env.path, a, b);
  }

  /** Once a stored successor has replaced a refresh token, no process presents that token again. */
  lemma ReplacedNeverPresented(env: Env, s: State, acts: seq<Action>, more: seq<Action>, t: nat)
    requires Init(s) && t in Exec(env, s, acts).replaced
    ensures var before := Exec(env, s, acts).presented;
            var after := Exec(env, Exec(env, s, acts), more).presented;
            PresentedLater(before, after, t)
  {
    ExecKeepsInv(env, s, acts);
    LaterPresented(env, Exec(env, s, acts), more, t);
  }

  lemma {:induction false} LaterPresented(env: Env, s: State, acts: seq<Action>, t: nat)
    requires Inv(env, s) && t in s.replaced
    ensures PresentedLater(s.presented, Exec(env, s, acts).presented, t)
    decreases |acts|
  {
    if acts != [] {
      var u := Apply(env, s, acts[0]);
      ApplyKeepsInv(env, s, acts[0]);
      PresentsAtMostOne(env, s, acts[0], t);
      LaterPresented(env, u, acts[1..], t);
      PresentedOn(s.presented, u.presented, Exec(env, u, acts[1..]).presented, t);
    }
  }

  /** The presentations went on from `before` to `after` without `t`. */
  ghost predicate PresentedLater(before: seq<nat>, after: seq<nat>, t: nat) {
    |before| <= |after| && before == after[..|before|] && t !in after[|before|..]
  }

  lemma PresentsAtMostOne(env: Env, s: State, act: Action, t: nat)
    requires Inv(env, s) && t in s.replaced
    ensures PresentedLater(s.presented, Apply(env, s, act).presented, t) && t in Apply(env, s, act).replaced
  {
    if act.Present? && act.agent in s.phases {
      assert PhaseOk(s, s.phases[act.agent]);
    }
    var u := Apply(env, s, act);
    assert u.presented == s.presented || exists p :: u.presented == s.presented + [p] && p != t;
  }

  lemma PresentedOn(a: seq<nat>, b: seq<nat>, c: seq<nat>, t: nat)
    requires PresentedLater(a, b, t) && PresentedLater(b, c, t)
    ensures PresentedLater(a, c, t)
  {
    assert a == b[..|a|] == c[..|b|][..|a|];
    forall i | |a| <= i < |c| ensures c[i] != t {
      if i < |b| { assert c[i] == c[..|b|][i] == b[|a|..][i - |a|]; }
      else { assert c[i] == c[|b|..][i - |b|]; }
    }
  }

  /** Nothing that takes a generation happened, or the session has one that was not there yet. */
  ghost predicate SameOrNewer(s: State, t: State) {
    || (t.nextGeneration == s.nextGeneration && t.session.generation == s.session.generation
        && t.commits == s.commits && t.intents == s.intents && t.lastSignOut == s.lastSignOut)
    || (t.session.generation.Some? && s.nextGeneration <= t.session.generation.value && t.nextGeneration >= s.nextGeneration)
  }

  lemma {:induction false} GenerationsOnlyNew(env: Env, s: State, t: State, acts: seq<Action>)
    requires Inv(env, t) && SameOrNewer(s, t)
    ensures SameOrNewer(s, Exec(env, t, acts))
    decreases |acts|
  {
    if acts != [] {
      ApplyKeepsInv(env, t, acts[0]);
      StepSameOrNewer(env, s, t, acts[0]);
      GenerationsOnlyNew(env, s, Apply(env, t, acts[0]), acts[1..]);
    }
  }

  lemma StepSameOrNewer(env: Env, s: State, t: State, act: Action)
    requires Inv(env, t) && SameOrNewer(s, t)
    ensures SameOrNewer(s, Apply(env, t, act))
  {
    var u := Apply(env, t, act);
    if u.nextGeneration == t.nextGeneration { SameGeneration(env, t, act); }
    else { NextGeneration(env, t, act); }
  }

  lemma SameGeneration(env: Env, t: State, act: Action)
    requires Apply(env, t, act).nextGeneration == t.nextGeneration
    ensures var u := Apply(env, t, act);
            u.session.generation == t.session.generation && u.commits == t.commits && u.intents == t.intents && u.lastSignOut == t.lastSignOut
  {
  }

  lemma NextGeneration(env: Env, t: State, act: Action)
    requires Apply(env, t, act).nextGeneration != t.nextGeneration
    ensures var u := Apply(env, t, act); u.session.generation == Some(t.nextGeneration) && u.nextGeneration == t.nextGeneration + 1
  {
  }

  /** What a snapshot is for: if it still matches however much later, no intent, commit, sign-out or revocation took place in
      between, and the license and refresh token read alike. */
  lemma SnapshotStillMatches(env: Env, s: State, acts: seq<Action>, more: seq<Action>)
    requires Init(s)
    requires var t := Exec(env, s, acts);
             SnapshotMatches(Exec(env, t, more).session, RecoverySnapshot(t.session, env.device), env.device)
    ensures var t := Exec(env, s, acts);
            var u := Exec(env, t, more);
            && u.commits == t.commits && u.intents == t.intents && u.lastSignOut == t.lastSignOut
            && u.nextGeneration == t.nextGeneration && SameSession(u.session, t.session) && !u.session.signedOut
  {
    ExecKeepsInv(env, s, acts);
    GenerationsOnlyNew(env, Exec(env, s, acts), Exec(env, s, acts), more);
  }
}
