/** What a renewal comes to (shared/lib/license-renewal.js): left alone it stores what the broker and /activate gave, and a refresh
    token the broker has replaced is presented again only when its successor was lost. */
module RenewalOutcome {
  import Lock = CredentialLock
  import Releasing = LockRelease
  import opened Credstore
  import opened Options
  import opened Renewal

  // ---------------------------------------------------------------------------------------------
  // A renewal that is left alone
  // ---------------------------------------------------------------------------------------------

  lemma Prepend(env: Env, s: State, act: Action, next: State, rest: seq<Action>, t: State) returns (acts: seq<Action>)
    requires next == Apply(env, s, act) && t == Exec(env, next, rest)
    ensures t == Exec(env, s, acts) && acts == [act] + rest
  {
    acts := [act] + rest;
    assert acts[1..] == rest && acts[0] == act;
  }

  /** The session is complete, and `a` is about to renew it under the lock. */
  ghost predicate Ready(env: Env, s: State, a: Lock.Agent) {
    && Inv(env, s) && Lock.Inside(s.lock, env.path, a) && a !in s.phases
    && !s.session.signedOut && s.session.license.Some? && s.session.refresh.Some?
  }

  /** The broker gives a new refresh token or the same one. */
  predicate Granting(grant: Grant) {
    grant.Rotating? || grant.SameToken?
  }

  lemma Presents(env: Env, s: State, a: Lock.Agent) returns (t: State)
    requires Ready(env, s, a)
    ensures t == Apply(env, Apply(env, Apply(env, s, Snap(a)), CheckCurrent(a)), Present(a))
    ensures t == s.(phases := s.phases[a := Presented(RecoverySnapshot(s.session, env.device))],
                    presented := s.presented + [s.session.refresh.value.text])
  {
    var e := RecoverySnapshot(s.session, env.device);
    var s1 := Apply(env, s, Snap(a));
    assert s1 == s.(phases := s.phases[a := Snapped(e)]);
    var s2 := Apply(env, s1, CheckCurrent(a));
    assert s2 == s.(phases := s.phases[a := Current(e)]);
    t := Apply(env, s2, Present(a));
  }

  /** The session with the token of the answer. */
  function AfterGrant(s: State, grant: Grant): Session
    requires s.session.refresh.Some?
  {
    if grant.Rotating? then s.session.(refresh := Some(RefreshToken(s.nextText, s.session.refresh.value.origin))) else s.session
  }

  lemma Rotates(env: Env, s: State, p: State, a: Lock.Agent, grant: Grant) returns (t: State)
    requires Ready(env, s, a) && Granting(grant)
    requires p == s.(phases := s.phases[a := Presented(RecoverySnapshot(s.session, env.device))],
                     presented := s.presented + [s.session.refresh.value.text])
    ensures t == Apply(env, Apply(env, p, Answer(a, grant)), Rotate(a))
    ensures t.session == AfterGrant(s, grant) && t.presented == p.presented && t.nextGeneration == s.nextGeneration && t.lock == s.lock
    ensures t.phases == s.phases[a := Exchanging(RecoverySnapshot(t.session, env.device))]
    ensures t.replaced == if grant.Rotating? then s.replaced + {s.session.refresh.value.text} else s.replaced
  {
    var e, was := RecoverySnapshot(s.session, env.device), s.session.refresh.value;
    var granted := Apply(env, p, Answer(a, grant));
    assert granted.session == s.session && granted.phases == s.phases[a := granted.phases[a]];
    assert granted.phases[a] == Granted(e, if grant.Rotating? then RefreshToken(s.nextText, was.origin) else was);
    t := Apply(env, granted, Rotate(a));
  }

  /** The session after the answer of /activate. */
  function AfterExchange(session: Session, exchange: Exchange, uuid: Generation): Session
    requires session.refresh.Some?
  {
    match exchange
    case Minted(text) => session.(license := Some(License(text, session.refresh.value.origin)))
    case Ended => Session(None, None, Some(uuid), session.signedOut)
    case Failed => session
  }

  lemma Settles(env: Env, s: State, a: Lock.Agent, exchange: Exchange) returns (t: State)
    requires a in s.phases && s.phases[a] == Exchanging(RecoverySnapshot(s.session, env.device))
    requires !s.session.signedOut && s.session.refresh.Some?
    ensures t == Apply(env, Apply(env, s, Activate(a, exchange)), Settle(a))
    ensures t.session == AfterExchange(s.session, exchange, s.nextGeneration) && t.lock == s.lock
    ensures t.phases == s.phases[a := Leaving] && t.presented == s.presented && t.replaced == s.replaced
  {
    var s1 := Apply(env, s, Activate(a, exchange));
    assert s1.session == s.session;
    t := Apply(env, s1, Settle(a));
  }

  /** The seven steps of a renewal whose token the broker accepts. */
  function Steps(a: Lock.Agent, grant: Grant, exchange: Exchange): seq<Action> {
    [Snap(a)] + ([CheckCurrent(a)] + ([Present(a)] + ([Answer(a, grant)] + ([Rotate(a)] + ([Activate(a, exchange)] + ([Settle(a)] + []))))))
  }

  /** A renewal nobody comes between: the old refresh token is presented, once; the new one of the broker is stored and so is the
      license /activate mints, of the same sign-in. A session that /activate says has ended loses both tokens and its generation.
      When /activate fails, the new refresh token stays. */
  lemma RenewalStores(env: Env, s: State, a: Lock.Agent, grant: Grant, exchange: Exchange)
    requires Ready(env, s, a) && Granting(grant)
    ensures var t, was := Exec(env, s, Steps(a, grant, exchange)), s.session.refresh.value;
            var next := if grant.Rotating? then RefreshToken(s.nextText, was.origin) else was;
            && t.presented == s.presented + [was.text] && (grant.Rotating? ==> was.text in t.replaced && next.text != was.text)
            && t.lock == s.lock && t.phases == s.phases[a := Leaving] && t.session.signedOut == s.session.signedOut
            && match exchange
               case Minted(text) =>
                 t.session.license == Some(License(text, was.origin)) && t.session.refresh == Some(next) && t.session.generation == s.session.generation
               case Ended => t.session.license == None && t.session.refresh == None && t.session.generation == Some(s.nextGeneration)
               case Failed =>
                 t.session.license == s.session.license && t.session.refresh == Some(next) && t.session.generation == s.session.generation
  {
    var p := Presents(env, s, a);
    var r := Rotates(env, s, p, a, grant);
    var t := Settles(env, r, a, exchange);
    SevenSteps(env, s, a, grant, exchange, t);
  }

  lemma SevenSteps(env: Env, s: State, a: Lock.Agent, grant: Grant, exchange: Exchange, t: State)
    requires var p := Apply(env, Apply(env, Apply(env, s, Snap(a)), CheckCurrent(a)), Present(a));
             var r := Apply(env, Apply(env, p, Answer(a, grant)), Rotate(a));
             t == Apply(env, Apply(env, r, Activate(a, exchange)), Settle(a))
    ensures Exec(env, s, Steps(a, grant, exchange)) == t
  {
    var s1 := Apply(env, s, Snap(a));
    var s2 := Apply(env, s1, CheckCurrent(a));
    var s3 := Apply(env, s2, Present(a));
    var s4 := Apply(env, s3, Answer(a, grant));
    var s5 := Apply(env, s4, Rotate(a));
    var s6 := Apply(env, s5, Activate(a, exchange));
    var acts := Prepend(env, s6, Settle(a), t, [], t);
    acts := Prepend(env, s5, Activate(a, exchange), s6, acts, t);
    acts := Prepend(env, s4, Rotate(a), s5, acts, t);
    acts := Prepend(env, s3, Answer(a, grant), s4, acts, t);
    acts := Prepend(env, s2, Present(a), s3, acts, t);
    acts := Prepend(env, s1, CheckCurrent(a), s2, acts, t);
    acts := Prepend(env, s, Snap(a), s1, acts, t);
  }

  /** Then the lock is released, and no file of it is left. */
  lemma RenewalLeaves(env: Env, s: State, a: Lock.Agent)
    requires Inv(env, s) && a in s.phases && s.phases[a].Leaving?
    ensures var t := Apply(env, Apply(env, s, Leave(a)), Locking(Lock.Step(a)));
            && t.session == s.session && t.phases == s.phases - {a}
            && t.lock.files == s.lock.files - {Lock.Store(env.path)} && Lock.Store(env.path) in s.lock.files
  {
    assert Lock.Inside(s.lock, env.path, a);
    Releasing.ReleaseFrees(s.lock, a);
    var u := Apply(env, s, Leave(a));
    OnlyPhase(env, s, a);
    assert u.phases == map[];
  }

  /** Whatever a renewal was at, it can give up: the session stays, the lock is released. */
  lemma GivesUpAndLeaves(env: Env, s: State, a: Lock.Agent)
    requires Inv(env, s) && a in s.phases
    ensures var given := Apply(env, s, GiveUp(a));
            var t := Apply(env, Apply(env, given, Leave(a)), Locking(Lock.Step(a)));
            t.session == s.session && a !in t.phases && t.lock.files == s.lock.files - {Lock.Store(env.path)}
  {
    ApplyKeepsInv(env, s, GiveUp(a));
    RenewalLeaves(env, Apply(env, s, GiveUp(a)), a);
  }

  // ---------------------------------------------------------------------------------------------
  // A session that was replaced meanwhile
  // ---------------------------------------------------------------------------------------------

  /** The session is signed out or has another generation than when the snapshot was taken. */
  predicate Replaced(s: State, e: Snapshot) {
    s.session.signedOut || s.session.generation != e.generation
  }

  /** Then its refresh token is not presented, what the broker or /activate gave is not stored, and the session that is there now
      is not dropped for a verdict on the one before. */
  lemma ReplacedIsLeftAlone(env: Env, s: State, a: Lock.Agent, act: Action)
    requires a in s.phases && match s.phases[a]
                              case Snapped(e) => Replaced(s, e) && act == CheckCurrent(a)
                              case Granted(e, t) => Replaced(s, e) && e.refreshToken.Some? && t.text != e.refreshToken.value.text && act == Rotate(a)
                              case Issued(e, _) => Replaced(s, e) && act == Settle(a)
                              case Revoked(e) => Replaced(s, e) && act == Settle(a)
                              case _ => false
    ensures var t := Apply(env, s, act); t.session == s.session && t.presented == s.presented && t.phases == s.phases[a := Leaving]
  {
  }

  /** A sign-out, an intent or a commit replaces the session for every snapshot taken before it. */
  lemma UserReplaces(env: Env, s: State, act: Action, a: Lock.Agent, e: Snapshot)
    requires Inv(env, s) && a in s.phases && SnapshotOk(s, e)
    requires act.SignOut? || act.MarkEngaged? || (act.CommitSignin? && Apply(env, s, act) != s)
    ensures Replaced(Apply(env, s, act), e)
  {
  }

  // ---------------------------------------------------------------------------------------------
  // A sign-in
  // ---------------------------------------------------------------------------------------------

  /** An intent, then its commit with nothing between: the session holds the new license, the new refresh token if there is one, and
      a generation of its own; after a sign-out or another intent in between, the commit changes nothing. */
  lemma SignInStores(env: Env, s: State, license: nat, withRefresh: bool)
    requires Inv(env, s)
    ensures var engaged := Apply(env, s, MarkEngaged);
            var intent := s.nextGeneration;
            var t := Apply(env, engaged, CommitSignin(intent, env.device, license, withRefresh));
            && engaged.session.license == s.session.license && engaged.session.refresh == s.session.refresh
            && engaged.session.signedOut == s.session.signedOut
            && t.session.license == Some(License(license, intent)) && !t.session.signedOut
            && t.session.refresh == (if withRefresh then Some(RefreshToken(s.nextText, intent)) else None)
            && t.session.generation != engaged.session.generation && t.session.generation != s.session.generation
  {
  }

  lemma StaleSignInStoresNothing(env: Env, s: State, between: Action, device: string, license: nat, withRefresh: bool)
    requires Inv(env, s)
    ensures var engaged := Apply(env, s, MarkEngaged);
            between.SignOut? || between.MarkEngaged? ==>
              var u := Apply(env, engaged, between);
              Apply(env, u, CommitSignin(s.nextGeneration, device, license, withRefresh)) == u
    ensures var engaged := Apply(env, s, MarkEngaged);
            device != env.device ==> Apply(env, engaged, CommitSignin(s.nextGeneration, device, license, withRefresh)) == engaged
  {
  }

  // ---------------------------------------------------------------------------------------------
  // Spent refresh tokens
  // ---------------------------------------------------------------------------------------------

  /** `spent`: the tokens the broker has answered with a new one. `lost`: those whose new one never came to be stored, because
      the process crashed, gave up, or found its session replaced. */
  datatype Ledger = Ledger(state: State, spent: set<nat>, lost: set<nat>)

  /** The token that a process with an answer presented for it. */
  function Answered(p: Phase): set<nat> {
    match p
    case Granted(e, t) => if e.refreshToken.Some? then {e.refreshToken.value.text} else {}
    case _ => {}
  }

  function NewlySpent(s: State, act: Action): set<nat> {
    match act
    case Answer(a, Rotating) =>
      if a in s.phases && s.phases[a].Presented? && s.phases[a].expected.refreshToken.Some?
      then {s.phases[a].expected.refreshToken.value.text} else {}
    case _ => {}
  }

  function NewlyLost(env: Env, s: State, act: Action): set<nat> {
    match act
    case Locking(Crash(pid)) => set a, k | a in s.phases && a in s.lock.agents && s.lock.agents[a].pid == pid && k in Answered(s.phases[a]) :: k
    case GiveUp(a) => if a in s.phases then Answered(s.phases[a]) else {}
    case Rotate(a) =>
      if a in s.phases && s.phases[a].Granted? && !SnapshotMatches(s.session, s.phases[a].expected, env.device) then Answered(s.phases[a]) else {}
    case _ => {}
  }

  function Record(env: Env, l: Ledger, act: Action): Ledger {
    Ledger(Apply(env, l.state, act), l.spent + NewlySpent(l.state, act), l.lost + NewlyLost(env, l.state, act))
  }

  function RecordAll(env: Env, l: Ledger, acts: seq<Action>): Ledger
    decreases |acts|
  {
    if acts == [] then l else RecordAll(env, Record(env, l, acts[0]), acts[1..])
  }

  /** The process that presented `k` still has its answer to store. */
  predicate InHandOf(s: State, a: Lock.Agent, k: nat) {
    a in s.phases && s.phases[a].Granted? && s.phases[a].token.text != k && k in Answered(s.phases[a])
  }

  ghost predicate InHand(s: State, k: nat) {
    exists a :: InHandOf(s, a, k)
  }

  ghost predicate Accounted(l: Ledger, k: nat) {
    k < l.state.nextText && (k in l.lost || k in l.state.replaced || InHand(l.state, k))
  }

  ghost predicate LedgerInv(env: Env, l: Ledger) {
    Inv(env, l.state) && forall k | k in l.spent :: Accounted(l, k)
  }

  lemma AnswerAccounts(env: Env, l: Ledger, a: Lock.Agent, grant: Grant, k: nat)
    requires LedgerInv(env, l) && k in Record(env, l, Answer(a, grant)).spent
    ensures Accounted(Record(env, l, Answer(a, grant)), k)
  {
    var s, m := l.state, Record(env, l, Answer(a, grant));
    if a in s.phases {
      OnlyPhase(env, s, a);
      if k in NewlySpent(s, Answer(a, grant)) {
        assert InHandOf(m.state, a, k);
      }
    }
  }

  lemma RotateAccounts(env: Env, l: Ledger, a: Lock.Agent, k: nat)
    requires LedgerInv(env, l) && k in l.spent
    ensures Accounted(Record(env, l, Rotate(a)), k)
  {
    var s := l.state;
    if a in s.phases { OnlyPhase(env, s, a); }
  }

  /** A step that neither answers nor rotates. */
  lemma OtherAccounts(env: Env, l: Ledger, act: Action, k: nat)
    requires LedgerInv(env, l) && k in l.spent && !act.Answer? && !act.Rotate?
    ensures Accounted(Record(env, l, act), k)
  {
    var s, m := l.state, Record(env, l, act);
    assert Accounted(l, k);
    OnlyMore(env, s, act);
    if k !in l.lost && k !in s.replaced {
      var a :| a in s.phases && InHandOf(s, a, k);
      OnlyPhase(env, s, a);
      StaysInHand(env, s, act, a, k);
      if k !in m.lost { assert InHandOf(m.state, a, k); }
    }
  }

  lemma OnlyMore(env: Env, s: State, act: Action)
    ensures s.replaced <= Apply(env, s, act).replaced && s.nextText <= Apply(env, s, act).nextText
  {
  }

  lemma StaysInHand(env: Env, s: State, act: Action, a: Lock.Agent, k: nat)
    requires a in s.phases && s.phases == map[a := s.phases[a]] && InHandOf(s, a, k) && Lock.Inside(s.lock, env.path, a) && !act.Answer? && !act.Rotate?
    ensures k in NewlyLost(env, s, act) || InHandOf(Apply(env, s, act), a, k)
  {
    match act {
      case Locking(l) => if a !in Apply(env, s, act).phases { HolderGone(env, s, l, a); }
      case _ =>
    }
  }

  /** A holder leaves only with its process. */
  lemma HolderGone(env: Env, s: State, l: Lock.Action, a: Lock.Agent)
    requires a in s.phases && Lock.Inside(s.lock, env.path, a) && a !in Apply(env, s, Locking(l)).phases
    ensures l.Crash? && s.lock.agents[a].pid == l.pid
  {
  }

  lemma RecordKeepsInv(env: Env, l: Ledger, act: Action)
    requires LedgerInv(env, l)
    ensures LedgerInv(env, Record(env, l, act))
  {
    ApplyKeepsInv(env, l.state, act);
    forall k | k in Record(env, l, act).spent ensures Accounted(Record(env, l, act), k) {
      match act
      case Answer(a, grant) => AnswerAccounts(env, l, a, grant, k);
      case Rotate(a) => RotateAccounts(env, l, a, k);
      case _ => OtherAccounts(env, l, act, k);
    }
  }

  lemma {:induction false} RecordsKeepInv(env: Env, l: Ledger, acts: seq<Action>)
    requires LedgerInv(env, l)
    ensures LedgerInv(env, RecordAll(env, l, acts)) && RecordAll(env, l, acts).state == Exec(env, l.state, acts)
    decreases |acts|
  {
    if acts != [] {
      RecordKeepsInv(env, l, acts[0]);
      RecordsKeepInv(env, Record(env, l, acts[0]), acts[1..]);
    }
  }

  /** No step presents a spent token that is not lost. */
  lemma NotPresented(env: Env, l: Ledger, act: Action, k: nat)
    requires LedgerInv(env, l) && k in l.spent && k !in l.lost
    ensures PresentedLater(l.state.presented, Apply(env, l.state, act).presented, k)
  {
    var s := l.state;
    var t := Apply(env, s, act);
    if act.Present? && act.agent in s.phases {
      OnlyPhase(env, s, act.agent);
      assert Accounted(l, k);
    }
    assert t.presented == s.presented || exists p :: t.presented == s.presented + [p] && p != k;
  }

  lemma {:induction false} LostStays(env: Env, l: Ledger, acts: seq<Action>)
    ensures l.lost <= RecordAll(env, l, acts).lost && l.spent <= RecordAll(env, l, acts).spent
    decreases |acts|
  {
    if acts != [] { LostStays(env, Record(env, l, acts[0]), acts[1..]); }
  }

  lemma {:induction false} NeverPresented(env: Env, l: Ledger, acts: seq<Action>, k: nat)
    requires LedgerInv(env, l) && k in l.spent && k !in RecordAll(env, l, acts).lost
    ensures PresentedLater(l.state.presented, RecordAll(env, l, acts).state.presented, k)
    decreases |acts|
  {
    LostStays(env, l, acts);
    if acts != [] {
      var m := Record(env, l, acts[0]);
      RecordKeepsInv(env, l, acts[0]);
      NotPresented(env, l, acts[0], k);
      NeverPresented(env, m, acts[1..], k);
      PresentedOn(l.state.presented, m.state.presented, RecordAll(env, m, acts[1..]).state.presented, k);
    }
  }

  /** In every run: a refresh token the broker has replaced is presented again only if, after the answer, the process that had it
      crashed, gave up, or found its session replaced before it could store the new one. */
  lemma SpentOncePresented(env: Env, s: State, acts: seq<Action>, more: seq<Action>, k: nat)
    requires Init(s) && k in RecordAll(env, Ledger(s, {}, {}), acts).spent
    requires k !in RecordAll(env, RecordAll(env, Ledger(s, {}, {}), acts), more).lost
    ensures PresentedLater(Exec(env, s, acts).presented, Exec(env, Exec(env, s, acts), more).presented, k)
  {
    var l := RecordAll(env, Ledger(s, {}, {}), acts);
    RecordsKeepInv(env, Ledger(s, {}, {}), acts);
    RecordsKeepInv(env, l, more);
    NeverPresented(env, l, more, k);
  }
}
