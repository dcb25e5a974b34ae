/** The dead-owner lock of shared/lib/credential-lock.js, as steps of any number of calls of
    `acquireLock` over one directory of lock files.

    A lock file holds the owner that published it. Publication is an exclusive hard link of a complete
    owner file, so a lock file is absent or complete. A call that finds a dead owner in its way takes a
    reaper lock named after that owner, checks again, removes the dead owner's file and tries again; the
    reaper lock is taken by the same function, one level deeper. */
module CredentialLock {

  type Pid = nat
  type Token = nat
  type Agent = nat

  /** Lock file names. A reaper's name hashes the base name of the file it guards and the dead owner's token. */
  datatype Name = Store(path: string) | Reaper(base: Name, dead: Token)

  datatype Owner = Owner(pid: Pid, token: Token)

  /** What `readOwner` can make of an existing lock file: an owner, or a form it does not know. */
  datatype Content = Owned(owner: Owner) | Unreadable

  const MAX_DEPTH: nat := 8

  /** Where one activation of `acquireLock` stands. `seen` is `observed`; `guard` is the token under which
      the reaper lock is held. */
  datatype Pc =
    | Linking
    | Observing
    | Judging(seen: Owner)
    | Waiting(seen: Owner)
    | Rechecking(seen: Owner, guard: Token)
    | Rejudging(seen: Owner, guard: Token)
    | Unlinking(seen: Owner, guard: Token)
    | CheckingGuard(seen: Owner, guard: Token)
    | DroppingGuard(seen: Owner, guard: Token)

  datatype Frame = Frame(file: Name, depth: nat, pc: Pc)

  /** A call of `acquireLock` from outside, up to the end of its `release`. While it acquires, its
      activations form a stack, outermost first: all but the last wait for a reaper lock. */
  datatype Run =
    | Acquiring(stack: seq<Frame>)
    | Holding(token: Token)
    | Releasing(token: Token)
    | Finished

  datatype Call = Call(pid: Pid, file: Name, run: Run)

  /** `agents` are the calls of live processes; a crash takes the process's calls with it. `next` is a
      token nobody has used. */
  datatype State = State(files: map<Name, Content>, agents: map<Agent, Call>, alive: set<Pid>, next: Token)

  datatype Action =
    | Spawn(agent: Agent, pid: Pid, path: string)
    | Step(agent: Agent)
    | Release(agent: Agent)
    | Crash(pid: Pid)

  // ---------------------------------------------------------------------------------------------
  // Steps
  // ---------------------------------------------------------------------------------------------

  function Put(s: State, a: Agent, run: Run): State
    requires a in s.agents
  {
    s.(agents := s.agents[a := s.agents[a].(run := run)])
  }

  /** The innermost activation moves on to `pc`. */
  function Goto(s: State, a: Agent, pc: Pc): State
    requires a in s.agents && s.agents[a].run.Acquiring? && s.agents[a].run.stack != []
  {
    var stack := s.agents[a].run.stack;
    var top := stack[|stack| - 1];
    Put(s, a, Acquiring(stack[..|stack| - 1] + [top.(pc := pc)]))
  }

  /** `return acquireLock(file, depth + 1)`. */
  function Retry(s: State, a: Agent): State
    requires a in s.agents && s.agents[a].run.Acquiring? && s.agents[a].run.stack != []
  {
    var stack := s.agents[a].run.stack;
    var top := stack[|stack| - 1];
    Put(s, a, Acquiring(stack[..|stack| - 1] + [Frame(top.file, top.depth + 1, Linking)]))
  }

  /** What the call becomes when its innermost activation has published `token`: the activation below
      goes on under its reaper lock, or the call holds the lock it was made for. */
  function Acquired(base: seq<Frame>, token: Token): Run {
    if base == [] then Holding(token)
    else
      var top := base[|base| - 1];
      if top.pc.Waiting? then Acquiring(base[..|base| - 1] + [top.(pc := Rechecking(top.pc.seen, token))])
      else Finished
  }

  function ReaperOf(f: Frame): Name
    requires f.pc.Waiting? || HasGuard(f)
  {
    Reaper(f.file, f.pc.seen.token)
  }

  predicate HasGuard(f: Frame) {
    f.pc.Rechecking? || f.pc.Rejudging? || f.pc.Unlinking? || f.pc.CheckingGuard? || f.pc.DroppingGuard?
  }

  predicate HoldsFile(s: State, n: Name, o: Owner) {
    n in s.files && s.files[n] == Owned(o)
  }

  /** One step of the innermost activation of `a`. A null result passes through every waiting activation,
      so it ends the call. */
  function Advance(s: State, a: Agent): State
    requires a in s.agents && s.agents[a].run.Acquiring? && s.agents[a].run.stack != []
  {
    var pid := s.agents[a].pid;
    var stack := s.agents[a].run.stack;
    var top := stack[|stack| - 1];
    var base := stack[..|stack| - 1];
    match top.pc
    case Linking =>
      if top.depth > MAX_DEPTH then Put(s, a, Finished)
      else if top.file in s.files then Goto(s, a, Observing)
      else
        var s1 := s.(files := s.files[top.file := Owned(Owner(pid, s.next))], next := s.next + 1);
        Put(s1, a, Acquired(base, s.next))
    case Observing =>
      if top.file !in s.files then Retry(s, a)
      else if s.files[top.file].Unreadable? then Put(s, a, Finished)
      else Goto(s, a, Judging(s.files[top.file].owner))
    case Judging(seen) =>
      if seen.pid in s.alive then Put(s, a, Finished)
      else
        Put(s, a, Acquiring(base + [top.(pc := Waiting(seen)),
                                    Frame(Reaper(top.file, seen.token), top.depth + 1, Linking)]))
    case Waiting(_) => s
    case Rechecking(seen, guard) =>
      if HoldsFile(s, top.file, seen) then Goto(s, a, Rejudging(seen, guard))
      else Goto(s, a, CheckingGuard(seen, guard))
    case Rejudging(seen, guard) =>
      if seen.pid !in s.alive then Goto(s, a, Unlinking(seen, guard))
      else Goto(s, a, CheckingGuard(seen, guard))
    case Unlinking(seen, guard) =>
      Goto(s.(files := s.files - {top.file}), a, CheckingGuard(seen, guard))
    case CheckingGuard(seen, guard) =>
      if HoldsFile(s, ReaperOf(top), Owner(pid, guard)) then Goto(s, a, DroppingGuard(seen, guard))
      else Retry(s, a)
    case DroppingGuard(seen, guard) =>
      Retry(s.(files := s.files - {ReaperOf(top)}), a)
  }

  /** `release.stillHeld`. */
  predicate StillHeld(s: State, a: Agent) {
    && a in s.agents
    && s.agents[a].run.Holding?
    && HoldsFile(s, s.agents[a].file, Owner(s.agents[a].pid, s.agents[a].run.token))
  }

  function Apply(s: State, act: Action): State {
    match act
    case Spawn(a, pid, path) =>
      if a in s.agents then s
      else
        s.(agents := s.agents[a := Call(pid, Store(path), Acquiring([Frame(Store(path), 0, Linking)]))],
           alive := s.alive + {pid})
    case Step(a) =>
      if a !in s.agents then s
      else if s.agents[a].run.Acquiring? && s.agents[a].run.stack != [] then Advance(s, a)
      else if s.agents[a].run.Releasing? then
        Put(s.(files := s.files - {s.agents[a].file}), a, Finished)
      else s
    case Release(a) =>
      if a in s.agents && s.agents[a].run.Holding? then
        Put(s, a, if StillHeld(s, a) then Releasing(s.agents[a].run.token) else Finished)
      else s
    case Crash(pid) =>
      s.(alive := s.alive - {pid},
         agents := map a | a in s.agents && s.agents[a].pid != pid :: s.agents[a])
  }

  function Exec(s: State, acts: seq<Action>): State
    decreases |acts|
  {
    if acts == [] then s else Exec(Apply(s, acts[0]), acts[1..])
  }

  // ---------------------------------------------------------------------------------------------
  // Safety
  // ---------------------------------------------------------------------------------------------

  datatype Claim = NoClaim | Claim(name: Name, token: Token)

  /** The lock a call holds: the one it was made for, or the reaper lock of its innermost activation. */
  function ClaimOf(c: Call): Claim {
    match c.run
    case Holding(t) => Claim(c.file, t)
    case Releasing(t) => Claim(c.file, t)
    case Finished => NoClaim
    case Acquiring(stack) =>
      if stack == [] then NoClaim
      else
        var top := stack[|stack| - 1];
        if HasGuard(top) then Claim(ReaperOf(top), top.pc.guard) else NoClaim
  }

  /** Nobody holds a lock under `t`, and nobody ever will: it was used before. */
  ghost predicate Gone(s: State, t: Token) {
    t < s.next && forall b | b in s.agents && ClaimOf(s.agents[b]).Claim? :: ClaimOf(s.agents[b]).token != t
  }

  /** A token in use tells the pid of its user. */
  ghost predicate Truthful(s: State, o: Owner) {
    && o.token < s.next
    && forall b | b in s.agents && ClaimOf(s.agents[b]).Claim? ::
         ClaimOf(s.agents[b]).token == o.token ==> s.agents[b].pid == o.pid
  }

  ghost predicate FrameOk(s: State, f: Frame) {
    && (f.pc.Judging? ==> Truthful(s, f.pc.seen))
    && (f.pc.Waiting? || HasGuard(f) ==> Gone(s, f.pc.seen.token))
    && (f.pc.Rejudging? || f.pc.Unlinking? ==> HoldsFile(s, f.file, f.pc.seen))
  }

  ghost predicate StackOk(s: State, stack: seq<Frame>) {
    && stack != []
    && (forall i | 0 <= i < |stack| :: stack[i].pc.Waiting? <==> i < |stack| - 1)
    && (forall i | 0 <= i < |stack| :: FrameOk(s, stack[i]))
    && (forall i | 0 <= i < |stack| - 1 :: stack[i].pc.Waiting? && stack[i + 1].file == ReaperOf(stack[i]))
  }

  ghost predicate CallOk(s: State, c: Call) {
    && c.pid in s.alive
    && (ClaimOf(c).Claim? ==> ClaimOf(c).token < s.next && HoldsFile(s, ClaimOf(c).name, Owner(c.pid, ClaimOf(c).token)))
    && (c.run.Acquiring? ==> StackOk(s, c.run.stack) && c.run.stack[0].file == c.file)
  }

  ghost predicate DistinctClaims(s: State) {
    forall a, b | a in s.agents && b in s.agents && a != b
      && ClaimOf(s.agents[a]).Claim? && ClaimOf(s.agents[b]).Claim? ::
      ClaimOf(s.agents[a]).token != ClaimOf(s.agents[b]).token
  }

  ghost predicate Inv(s: State) {
    && (forall a | a in s.agents :: CallOk(s, s.agents[a]))
    && DistinctClaims(s)
    && (forall n | n in s.files && s.files[n].Owned? :: Truthful(s, s.files[n].owner))
  }

  /** A directory in any condition an earlier life of the machine can have left it in. */
  ghost predicate Init(s: State) {
    && s.agents == map[]
    && forall n | n in s.files && s.files[n].Owned? :: s.files[n].owner.token < s.next
  }

  // ---- One step of one call: what it may do to the files, and why the other calls are unaffected ----

  /** Why `c` may remove file `n`: it is its own, or its owner is gone and `c` holds the reaper lock for it. */
  ghost predicate MayRemove(s: State, c: Call, n: Name) {
    && n in s.files && s.files[n].Owned?
    && var o := s.files[n].owner;
       || ClaimOf(c) == Claim(n, o.token)
       || (Gone(s, o.token) && ClaimOf(c).Claim? && ClaimOf(c).name == Reaper(n, o.token))
  }

  /** The effect of any step of call `a`: its own record, at most one new lock file of its own under a
      fresh token, and removals it is entitled to. */
  ghost predicate Effect(s: State, t: State, a: Agent) {
    && a in s.agents && t.agents.Keys == s.agents.Keys
    && (forall b | b in s.agents && b != a :: t.agents[b] == s.agents[b])
    && t.agents[a].pid == s.agents[a].pid && t.agents[a].file == s.agents[a].file
    && t.alive == s.alive
    && s.next <= t.next
    && (var k := ClaimOf(t.agents[a]);
        k.NoClaim? || k == ClaimOf(s.agents[a]) || (k.token == s.next && s.next < t.next))
    && (forall n | n in s.files :: (n in t.files && t.files[n] == s.files[n]) || (n !in t.files && MayRemove(s, s.agents[a], n)))
    && (forall n | n in t.files && n !in s.files :: t.files[n] == Owned(Owner(s.agents[a].pid, s.next)) && s.next < t.next)
  }

  lemma TruthKept(s: State, t: State, a: Agent, o: Owner)
    requires Inv(s) && Effect(s, t, a) && Truthful(s, o)
    ensures Truthful(t, o)
    ensures Gone(s, o.token) ==> Gone(t, o.token)
  {
  }

  lemma ClaimedFileKept(s: State, t: State, a: Agent, b: Agent)
    requires Inv(s) && Effect(s, t, a) && b in s.agents && b != a && ClaimOf(s.agents[b]).Claim?
    ensures HoldsFile(t, ClaimOf(s.agents[b]).name, Owner(s.agents[b].pid, ClaimOf(s.agents[b]).token))
  {
    assert CallOk(s, s.agents[b]);
    var n := ClaimOf(s.agents[b]).name;
    assert !MayRemove(s, s.agents[a], n);
  }

  /** Two activations about to remove the same file would hold the same reaper lock. */
  lemma SeenFileKept(s: State, t: State, a: Agent, b: Agent)
    requires Inv(s) && Effect(s, t, a) && b in s.agents && b != a
    requires s.agents[b].run.Acquiring?
    requires var f := s.agents[b].run.stack[|s.agents[b].run.stack| - 1]; f.pc.Rejudging? || f.pc.Unlinking?
    ensures var f := s.agents[b].run.stack[|s.agents[b].run.stack| - 1]; HoldsFile(t, f.file, f.pc.seen)
  {
    var stack := s.agents[b].run.stack;
    var f := stack[|stack| - 1];
    assert CallOk(s, s.agents[b]) && FrameOk(s, f);
    assert CallOk(s, s.agents[a]);
    assert ClaimOf(s.agents[b]).name == Reaper(f.file, f.pc.seen.token);
    assert !MayRemove(s, s.agents[a], f.file);
  }

  lemma OtherCallKept(s: State, t: State, a: Agent, b: Agent)
    requires Inv(s) && Effect(s, t, a) && b in s.agents && b != a
    ensures CallOk(t, s.agents[b])
  {
    var c := s.agents[b];
    assert CallOk(s, c);
    if ClaimOf(c).Claim? { ClaimedFileKept(s, t, a, b); }
    if c.run.Acquiring? {
      var stack := c.run.stack;
      forall i | 0 <= i < |stack| ensures FrameOk(t, stack[i]) {
        var f := stack[i];
        assert FrameOk(s, f);
        if f.pc.Judging? { TruthKept(s, t, a, f.pc.seen); }
        if f.pc.Rejudging? || f.pc.Unlinking? { SeenFileKept(s, t, a, b); }
      }
    }
  }

  lemma EffectKeepsInv(s: State, t: State, a: Agent)
    requires Inv(s) && Effect(s, t, a) && CallOk(t, t.agents[a])
    ensures Inv(t)
  {
    forall b | b in t.agents ensures CallOk(t, t.agents[b]) {
      if b != a { OtherCallKept(s, t, a, b); }
    }
    forall n | n in t.files && t.files[n].Owned? ensures Truthful(t, t.files[n].owner) {
      if n in s.files { TruthKept(s, t, a, s.files[n].owner); }
    }
  }

  /** The activations below the innermost one keep their facts whatever the call does. */
  lemma OwnFramesKept(s: State, t: State, a: Agent, f: Frame)
    requires Inv(s) && Effect(s, t, a) && FrameOk(s, f) && f.pc.Waiting?
    ensures FrameOk(t, f)
  {
  }

  /** The innermost activation of an acquiring call. */
  function Top(c: Call): Frame
    requires c.run.Acquiring? && c.run.stack != []
  {
    c.run.stack[|c.run.stack| - 1]
  }

  lemma LocalEffect(s: State, a: Agent, run: Run)
    requires Inv(s) && a in s.agents
    requires var k := ClaimOf(s.agents[a].(run := run)); k.NoClaim? || k == ClaimOf(s.agents[a])
    ensures Effect(s, Put(s, a, run), a)
  {
  }

  lemma RemoveEffect(s: State, a: Agent, n: Name, run: Run)
    requires Inv(s) && a in s.agents && (n in s.files ==> MayRemove(s, s.agents[a], n))
    requires var k := ClaimOf(s.agents[a].(run := run)); k.NoClaim? || k == ClaimOf(s.agents[a])
    ensures Effect(s, Put(s.(files := s.files - {n}), a, run), a)
  {
  }

  lemma PublishEffect(s: State, a: Agent, n: Name, run: Run)
    requires Inv(s) && a in s.agents && n !in s.files
    requires var k := ClaimOf(s.agents[a].(run := run)); k.NoClaim? || k.token == s.next
    ensures var own := Owned(Owner(s.agents[a].pid, s.next));
            Effect(s, Put(s.(files := s.files[n := own], next := s.next + 1), a, run), a)
  {
  }

  /** The claim of an acquiring call is the one of its innermost activation. */
  lemma TopClaim(c: Call, base: seq<Frame>, f: Frame)
    ensures ClaimOf(c.(run := Acquiring(base + [f]))) == if HasGuard(f) then Claim(ReaperOf(f), f.pc.guard) else NoClaim
  {
  }

  lemma AcquiredClaim(c: Call, base: seq<Frame>, t: Token)
    ensures var k := ClaimOf(c.(run := Acquired(base, t))); k.NoClaim? || k.token == t
  {
  }

  /** Moving between the steps under a reaper lock keeps the claim. */
  lemma GuardedEffect(s: State, a: Agent, pc: Pc)
    requires Inv(s) && a in s.agents && s.agents[a].run.Acquiring? && s.agents[a].run.stack != []
    requires HasGuard(Top(s.agents[a])) && HasGuard(Top(s.agents[a]).(pc := pc))
    requires pc.seen == Top(s.agents[a]).pc.seen && pc.guard == Top(s.agents[a]).pc.guard
    ensures Effect(s, Goto(s, a, pc), a)
  {
    var c := s.agents[a];
    TopClaim(c, c.run.stack[..|c.run.stack| - 1], Top(c).(pc := pc));
    LocalEffect(s, a, Goto(s, a, pc).agents[a].run);
  }

  lemma UnlinkEffect(s: State, a: Agent)
    requires Inv(s) && a in s.agents && s.agents[a].run.Acquiring? && s.agents[a].run.stack != []
    requires Top(s.agents[a]).pc.Unlinking?
    ensures Effect(s, Advance(s, a), a)
  {
    var c := s.agents[a];
    var top := Top(c);
    assert CallOk(s, c) && FrameOk(s, top);
    assert MayRemove(s, c, top.file);
    TopClaim(c, c.run.stack[..|c.run.stack| - 1], top.(pc := CheckingGuard(top.pc.seen, top.pc.guard)));
    RemoveEffect(s, a, top.file, Advance(s, a).agents[a].run);
  }

  lemma DropEffect(s: State, a: Agent)
    requires Inv(s) && a in s.agents && s.agents[a].run.Acquiring? && s.agents[a].run.stack != []
    requires Top(s.agents[a]).pc.DroppingGuard?
    ensures Effect(s, Advance(s, a), a)
  {
    var c := s.agents[a];
    var top := Top(c);
    assert CallOk(s, c) && FrameOk(s, top);
    assert MayRemove(s, c, ReaperOf(top));
    TopClaim(c, c.run.stack[..|c.run.stack| - 1], Frame(top.file, top.depth + 1, Linking));
    RemoveEffect(s, a, ReaperOf(top), Advance(s, a).agents[a].run);
  }

  /** `a` is between the start of its call and the acquisition of its lock. */
  ghost predicate Active(s: State, a: Agent) {
    Inv(s) && a in s.agents && s.agents[a].run.Acquiring? && s.agents[a].run.stack != []
  }

  lemma OpenEffect(s: State, a: Agent)
    requires Active(s, a)
    requires var pc := Top(s.agents[a]).pc; pc.Linking? || pc.Observing? || pc.Judging?
    ensures Effect(s, Advance(s, a), a)
  {
    var c := s.agents[a];
    var top := Top(c);
    var base := c.run.stack[..|c.run.stack| - 1];
    if top.pc.Linking? && top.depth <= MAX_DEPTH && top.file !in s.files {
      AcquiredClaim(c, base, s.next);
      PublishEffect(s, a, top.file, Acquired(base, s.next));
    } else {
      var run := Advance(s, a).agents[a].run;
      assert run.Acquiring? ==> run.stack != [] && !HasGuard(run.stack[|run.stack| - 1]);
      LocalEffect(s, a, run);
    }
  }

  lemma GuardEffect(s: State, a: Agent)
    requires Active(s, a)
    requires var pc := Top(s.agents[a]).pc; pc.Rechecking? || pc.Rejudging? || pc.CheckingGuard?
    ensures Effect(s, Advance(s, a), a)
  {
    var c := s.agents[a];
    var top := Top(c);
    var run := Advance(s, a).agents[a].run;
    var next := run.stack[|run.stack| - 1];
    assert CallOk(s, c);
    assert Advance(s, a) == Goto(s, a, next.pc);
    GuardedEffect(s, a, next.pc);
  }

  lemma AdvanceEffect(s: State, a: Agent)
    requires Active(s, a)
    ensures Effect(s, Advance(s, a), a)
  {
    var pc := Top(s.agents[a]).pc;
    assert CallOk(s, s.agents[a]);
    if pc.Unlinking? { UnlinkEffect(s, a); }
    else if pc.DroppingGuard? { DropEffect(s, a); }
    else if pc.Linking? || pc.Observing? || pc.Judging? { OpenEffect(s, a); }
    else { GuardEffect(s, a); }
  }

  // ---- The stepping call itself ----

  lemma OwnCallKept(s: State, t: State, a: Agent)
    requires Active(s, a) && Effect(s, t, a)
    requires t.agents[a].run.Acquiring? && t.agents[a].run.stack != []
    requires |t.agents[a].run.stack| == |s.agents[a].run.stack|
    requires t.agents[a].run.stack[..|t.agents[a].run.stack| - 1] == s.agents[a].run.stack[..|s.agents[a].run.stack| - 1]
    requires Top(t.agents[a]).file == Top(s.agents[a]).file && !Top(t.agents[a]).pc.Waiting?
    requires FrameOk(t, Top(t.agents[a]))
    requires HasGuard(Top(t.agents[a])) ==>
               HoldsFile(t, ReaperOf(Top(t.agents[a])), Owner(s.agents[a].pid, Top(t.agents[a]).pc.guard))
    ensures CallOk(t, t.agents[a])
  {
    var was, now := s.agents[a].run.stack, t.agents[a].run.stack;
    var n := |was| - 1;
    assert CallOk(s, s.agents[a]) && StackOk(s, was);
    BaseKept(s, t, a, n);
    assert now[n] == Top(t.agents[a]) && now[n].file == was[n].file;
  }

  lemma LinkedOwn(s: State, a: Agent)
    requires Active(s, a) && Top(s.agents[a]).pc.Linking?
    requires Top(s.agents[a]).depth <= MAX_DEPTH && Top(s.agents[a]).file !in s.files
    ensures CallOk(Advance(s, a), Advance(s, a).agents[a])
  {
    var t := Advance(s, a);
    OpenEffect(s, a);
    var stack := s.agents[a].run.stack;
    var n := |stack| - 1;
    assert CallOk(s, s.agents[a]) && StackOk(s, stack);
    var base := stack[..n];
    if n > 0 {
      assert base[n - 1] == stack[n - 1] && stack[n - 1].pc.Waiting?;
      var now := base[..n - 1] + [base[n - 1].(pc := Rechecking(base[n - 1].pc.seen, s.next))];
      assert t.agents[a].run == Acquiring(now);
      forall i | 0 <= i < n
        ensures FrameOk(t, now[i]) && (i < n - 1 ==> now[i] == stack[i])
      {
        assert FrameOk(s, stack[i]);
        OwnFramesKept(s, t, a, stack[i]);
      }
    }
  }

  lemma JudgedOwn(s: State, a: Agent)
    requires Active(s, a) && Top(s.agents[a]).pc.Judging? && Top(s.agents[a]).pc.seen.pid !in s.alive
    ensures CallOk(Advance(s, a), Advance(s, a).agents[a])
  {
    var t := Advance(s, a);
    var n := |s.agents[a].run.stack| - 1;
    OpenEffect(s, a);
    JudgedGone(s, a);
    JudgedStack(s, a);
    BaseKept(s, t, a, n);
    PushedOk(s, t, a, n);
  }

  /** It waits, and a call for the reaper lock starts. */
  lemma JudgedStack(s: State, a: Agent)
    requires Active(s, a) && Top(s.agents[a]).pc.Judging? && Top(s.agents[a]).pc.seen.pid !in s.alive
    ensures var t := Advance(s, a);
            var was, n := s.agents[a].run.stack, |s.agents[a].run.stack| - 1;
            && t.agents[a].run.Acquiring? && t.next == s.next && t.files == s.files && t.alive == s.alive
            && Pushed(was, t.agents[a].run.stack)
            && (forall b | b in t.agents && ClaimOf(t.agents[b]).Claim? :: b in s.agents && b != a && t.agents[b] == s.agents[b])
  {
    var was, now := s.agents[a].run.stack, Advance(s, a).agents[a].run.stack;
    assert now[..|was| - 1] == was[..|was| - 1];
  }

  predicate Pushed(was: seq<Frame>, now: seq<Frame>) {
    && was != [] && |now| == |was| + 1 && now[..|was| - 1] == was[..|was| - 1]
    && var n := |was| - 1;
       && was[n].pc.Judging? && now[n] == was[n].(pc := Waiting(was[n].pc.seen))
       && now[n + 1].file == ReaperOf(now[n]) && now[n + 1].pc.Linking?
  }

  lemma PushedOk(s: State, t: State, a: Agent, n: nat)
    requires Active(s, a) && a in t.agents && t.agents[a].run.Acquiring? && t.next == s.next && t.alive == s.alive
    requires t.agents[a].pid == s.agents[a].pid && t.agents[a].file == s.agents[a].file
    requires Pushed(s.agents[a].run.stack, t.agents[a].run.stack) && n == |s.agents[a].run.stack| - 1
    requires Gone(s, s.agents[a].run.stack[n].pc.seen.token)
    requires forall i | 0 <= i < n :: FrameOk(t, t.agents[a].run.stack[i]) && t.agents[a].run.stack[i] == s.agents[a].run.stack[i]
    requires forall b | b in t.agents && ClaimOf(t.agents[b]).Claim? :: b in s.agents && b != a && t.agents[b] == s.agents[b]
    ensures CallOk(t, t.agents[a])
  {
    var was, now := s.agents[a].run.stack, t.agents[a].run.stack;
    assert CallOk(s, s.agents[a]) && StackOk(s, was);
    assert Gone(t, was[n].pc.seen.token);
    assert FrameOk(t, now[n]) && FrameOk(t, now[n + 1]);
  }

  /** The activations further out stay good. */
  lemma BaseKept(s: State, t: State, a: Agent, n: nat)
    requires Active(s, a) && Effect(s, t, a) && t.agents[a].run.Acquiring?
    requires n < |s.agents[a].run.stack| && n <= |t.agents[a].run.stack| && t.agents[a].run.stack[..n] == s.agents[a].run.stack[..n]
    ensures forall i | 0 <= i < n :: FrameOk(t, t.agents[a].run.stack[i]) && t.agents[a].run.stack[i] == s.agents[a].run.stack[i]
  {
    var was, now := s.agents[a].run.stack, t.agents[a].run.stack;
    assert CallOk(s, s.agents[a]) && StackOk(s, was);
    forall i | 0 <= i < n ensures FrameOk(t, now[i]) && now[i] == was[i] {
      assert now[i] == now[..n][i] == was[..n][i] == was[i];
      assert FrameOk(s, was[i]);
      OwnFramesKept(s, t, a, was[i]);
    }
  }

  /** The owner of a file, judged dead, has no live call. */
  lemma JudgedGone(s: State, a: Agent)
    requires Active(s, a) && Top(s.agents[a]).pc.Judging? && Top(s.agents[a]).pc.seen.pid !in s.alive
    ensures Gone(s, Top(s.agents[a]).pc.seen.token)
  {
    var seen := Top(s.agents[a]).pc.seen;
    assert CallOk(s, s.agents[a]) && FrameOk(s, Top(s.agents[a]));
    forall b | b in s.agents && ClaimOf(s.agents[b]).Claim? ensures ClaimOf(s.agents[b]).token != seen.token {
      assert CallOk(s, s.agents[b]);
    }
  }

  lemma SteppedOwn(s: State, a: Agent)
    requires Active(s, a) && StaysOpen(s, a)
    ensures CallOk(Advance(s, a), Advance(s, a).agents[a])
  {
    AdvanceEffect(s, a);
    if Advance(s, a).agents[a].run.Acquiring? { SteppedStays(s, a); } else { SteppedOut(s, a); }
  }

  lemma SteppedOut(s: State, a: Agent)
    requires Active(s, a) && StaysOpen(s, a) && Effect(s, Advance(s, a), a) && !Advance(s, a).agents[a].run.Acquiring?
    ensures CallOk(Advance(s, a), Advance(s, a).agents[a])
  {
    assert CallOk(s, s.agents[a]) && StackOk(s, s.agents[a].run.stack);
    assert !Top(s.agents[a]).pc.Waiting?;
    GivesUp(s, a);
  }

  lemma GivesUp(s: State, a: Agent)
    requires a in s.agents && s.agents[a].run.Acquiring? && s.agents[a].run.stack != []
    requires var f := Top(s.agents[a]);
             !(f.pc.Linking? && f.depth <= MAX_DEPTH && f.file !in s.files) && !(f.pc.Judging? && f.pc.seen.pid !in s.alive)
    requires !Advance(s, a).agents[a].run.Acquiring?
    ensures Advance(s, a).agents[a].run.Finished? && Advance(s, a).agents[a].pid == s.agents[a].pid && Advance(s, a).alive == s.alive
  {
  }

  lemma SteppedStays(s: State, a: Agent)
    requires Active(s, a) && StaysOpen(s, a) && Effect(s, Advance(s, a), a) && Advance(s, a).agents[a].run.Acquiring?
    ensures CallOk(Advance(s, a), Advance(s, a).agents[a])
  {
    assert CallOk(s, s.agents[a]) && FrameOk(s, Top(s.agents[a]));
    SteppedFrame(s, a);
    SteppedTop(s, a);
    if HasGuard(Top(Advance(s, a).agents[a])) { SteppedGuard(s, a); }
    OwnCallKept(s, Advance(s, a), a);
  }

  /** Only the innermost activation changes. */
  lemma SteppedTop(s: State, a: Agent)
    requires Active(s, a) && StaysOpen(s, a) && Advance(s, a).agents[a].run.Acquiring? && !Top(s.agents[a]).pc.Waiting?
    ensures var was, now := s.agents[a].run.stack, Advance(s, a).agents[a].run.stack;
            && now != [] && |now| == |was| && now[..|now| - 1] == was[..|was| - 1]
            && now[|now| - 1].file == was[|was| - 1].file && !now[|now| - 1].pc.Waiting?
  {
    var was, now := s.agents[a].run.stack, Advance(s, a).agents[a].run.stack;
    assert now == was[..|was| - 1] + [now[|now| - 1]];
  }

  lemma SteppedGuard(s: State, a: Agent)
    requires Active(s, a) && StaysOpen(s, a) && Advance(s, a).agents[a].run.Acquiring? && CallOk(s, s.agents[a])
    requires Advance(s, a).agents[a].run.stack != [] && Top(Advance(s, a).agents[a]).file == Top(s.agents[a]).file
    requires HasGuard(Top(Advance(s, a).agents[a]))
    ensures var g := Top(Advance(s, a).agents[a]); HoldsFile(Advance(s, a), ReaperOf(g), Owner(s.agents[a].pid, g.pc.guard))
  {
    assert FrameOk(s, Top(s.agents[a]));
  }

  lemma SteppedFrame(s: State, a: Agent)
    requires Active(s, a) && CallOk(s, s.agents[a]) && FrameOk(s, Top(s.agents[a])) && Effect(s, Advance(s, a), a)
    requires StaysOpen(s, a) && Advance(s, a).agents[a].run.Acquiring?
    ensures FrameOk(Advance(s, a), Top(Advance(s, a).agents[a]))
  {
    var t := Advance(s, a);
    var g := Top(t.agents[a]);
    SteppedSeen(s, a);
    if g.pc.Judging? {
      assert Truthful(s, g.pc.seen);
      TruthKept(s, t, a, g.pc.seen);
    } else if HasGuard(g) {
      assert Gone(s, g.pc.seen.token);
      TruthKept(s, t, a, Owner(0, g.pc.seen.token));
    }
  }

  /** The next step neither publishes nor calls for a reaper lock. */
  ghost predicate StaysOpen(s: State, a: Agent)
    requires Active(s, a)
  {
    var f := Top(s.agents[a]);
    && !(f.pc.Linking? && f.depth <= MAX_DEPTH && f.file !in s.files)
    && !(f.pc.Judging? && f.pc.seen.pid !in s.alive)
  }

  lemma SteppedSeen(s: State, a: Agent)
    requires Active(s, a) && StaysOpen(s, a) && Advance(s, a).agents[a].run.Acquiring?
    ensures var t := Advance(s, a);
            var f, g := Top(s.agents[a]), Top(t.agents[a]);
            && (g.pc.Waiting? ==> g == f)
            && (g.pc.Judging? && g != f ==> f.file in s.files && s.files[f.file] == Owned(g.pc.seen))
            && (HasGuard(g) ==> HasGuard(f) && g.pc.seen == f.pc.seen)
            && (g.pc.Rejudging? || g.pc.Unlinking? ==> HoldsFile(t, g.file, g.pc.seen))
  {
  }

  lemma StepKeepsInv(s: State, a: Agent)
    requires Inv(s)
    ensures Inv(Apply(s, Step(a)))
  {
    if a in s.agents {
      var c := s.agents[a];
      assert CallOk(s, c);
      if c.run.Acquiring? {
        AdvanceEffect(s, a);
        var f := Top(c);
        if f.pc.Linking? && f.depth <= MAX_DEPTH && f.file !in s.files { LinkedOwn(s, a); }
        else if f.pc.Judging? && f.pc.seen.pid !in s.alive { JudgedOwn(s, a); }
        else { SteppedOwn(s, a); }
        EffectKeepsInv(s, Advance(s, a), a);
      } else if c.run.Releasing? {
        assert MayRemove(s, c, c.file);
        RemoveEffect(s, a, c.file, Finished);
        EffectKeepsInv(s, Apply(s, Step(a)), a);
      }
    }
  }

  lemma ReleaseKeepsInv(s: State, a: Agent)
    requires Inv(s)
    ensures Inv(Apply(s, Release(a)))
  {
    if a in s.agents && s.agents[a].run.Holding? {
      assert CallOk(s, s.agents[a]);
      LocalEffect(s, a, Apply(s, Release(a)).agents[a].run);
      EffectKeepsInv(s, Apply(s, Release(a)), a);
    }
  }

  lemma SpawnKeepsInv(s: State, a: Agent, pid: Pid, path: string)
    requires Inv(s)
    ensures Inv(Apply(s, Spawn(a, pid, path)))
  {
    if a !in s.agents {
      var t := Apply(s, Spawn(a, pid, path));
      assert ClaimOf(t.agents[a]).NoClaim?;
      forall b | b in t.agents ensures CallOk(t, t.agents[b]) {
        if b != a {
          assert t.agents[b] == s.agents[b] && CallOk(s, s.agents[b]);
          SameClaimsSameFrames(s, t, s.agents[b]);
        }
      }
    }
  }

  /** A call's facts survive when the files stay and no claim appears. */
  lemma SameClaimsSameFrames(s: State, t: State, c: Call)
    requires CallOk(s, c) && c.pid in t.alive && t.files == s.files && t.next == s.next
    requires forall b | b in t.agents && ClaimOf(t.agents[b]).Claim? :: b in s.agents && t.agents[b] == s.agents[b]
    ensures CallOk(t, c)
  {
    if c.run.Acquiring? {
      forall i | 0 <= i < |c.run.stack| ensures FrameOk(t, c.run.stack[i]) {
        assert FrameOk(s, c.run.stack[i]);
      }
    }
  }

  lemma CrashKeepsInv(s: State, pid: Pid)
    requires Inv(s)
    ensures Inv(Apply(s, Crash(pid)))
  {
    var t := Apply(s, Crash(pid));
    forall b | b in t.agents ensures CallOk(t, t.agents[b]) {
      assert CallOk(s, s.agents[b]);
      SameClaimsSameFrames(s, t, s.agents[b]);
    }
  }

  lemma ApplyKeepsInv(s: State, act: Action)
    requires Inv(s)
    ensures Inv(Apply(s, act))
  {
    match act
    case Spawn(a, pid, path) => SpawnKeepsInv(s, a, pid, path);
    case Step(a) => StepKeepsInv(s, a);
    case Release(a) => ReleaseKeepsInv(s, a);
    case Crash(pid) => CrashKeepsInv(s, pid);
  }

  lemma {:induction false} ExecKeepsInv(s: State, acts: seq<Action>)
    requires Inv(s)
    ensures Inv(Exec(s, acts))
    decreases |acts|
  {
    if acts != [] {
      ApplyKeepsInv(s, acts[0]);
      ExecKeepsInv(Apply(s, acts[0]), acts[1..]);
    }
  }

  /** In every interleaving, with crashes anywhere, two live calls never hold the same lock file. */
  lemma MutualExclusion(s: State, acts: seq<Action>, a: Agent, b: Agent)
    requires Init(s)
    requires var t := Exec(s, acts);
             && a in t.agents && b in t.agents
             && ClaimOf(t.agents[a]).Claim? && ClaimOf(t.agents[b]).Claim?
             && ClaimOf(t.agents[a]).name == ClaimOf(t.agents[b]).name
    ensures a == b
  {
    ExecKeepsInv(s, acts);
    OneHolder(Exec(s, acts), a, b);
  }

  lemma OneHolder(s: State, a: Agent, b: Agent)
    requires Inv(s) && a in s.agents && b in s.agents
    requires ClaimOf(s.agents[a]).Claim? && ClaimOf(s.agents[b]).Claim?
    requires ClaimOf(s.agents[a]).name == ClaimOf(s.agents[b]).name
    ensures a == b
  {
    assert CallOk(s, s.agents[a]) && CallOk(s, s.agents[b]);
  }

  // ---- Under the lock of one store ----

  /** The call holds the lock of the store at `path`. */
  predicate Inside(s: State, path: string, a: Agent) {
    a in s.agents && s.agents[a].run.Holding? && s.agents[a].file == Store(path)
  }

  /** The lock of that store is released only by the `finally` of the code it was taken for. */
  predicate Foreign(s: State, path: string, act: Action) {
    act.Release? ==> !(act.agent in s.agents && s.agents[act.agent].file == Store(path))
  }

  lemma OneInside(s: State, path: string, a: Agent, b: Agent)
    requires Inv(s) && Inside(s, path, a) && Inside(s, path, b)
    ensures a == b
  {
    OneHolder(s, a, b);
  }

  /** A step that does not release the store's lock leaves every surviving holder a holder. */
  lemma HoldersStay(s: State, path: string, act: Action, a: Agent)
    requires Inv(s) && Inside(s, path, a) && Foreign(s, path, act) && a in Apply(s, act).agents
    ensures Inside(Apply(s, act), path, a)
  {
    match act
    case Step(b) =>
      if b in s.agents && b != a {
        assert CallOk(s, s.agents[b]);
        if s.agents[b].run.Acquiring? { AdvanceEffect(s, b); }
      }
    case _ =>
  }

  /** A live holder finds its own token in the file until it releases it. */
  lemma HolderStillHolds(s: State, acts: seq<Action>, a: Agent)
    requires Init(s)
    requires a in Exec(s, acts).agents && Exec(s, acts).agents[a].run.Holding?
    ensures StillHeld(Exec(s, acts), a)
  {
    ExecKeepsInv(s, acts);
    assert CallOk(Exec(s, acts), Exec(s, acts).agents[a]);
  }

  lemma GoneStaysGone(s: State, act: Action, t: Token)
    requires Inv(s) && Gone(s, t)
    ensures Gone(Apply(s, act), t)
  {
    match act
    case Step(a) =>
      if a in s.agents {
        assert CallOk(s, s.agents[a]);
        if s.agents[a].run.Acquiring? {
          AdvanceEffect(s, a);
        }
      }
    case Spawn(a, pid, path) =>
      if a !in s.agents {
        assert ClaimOf(Apply(s, act).agents[a]).NoClaim?;
      }
    case _ =>
  }

  lemma {:induction false} GoneForever(s: State, acts: seq<Action>, t: Token)
    requires Inv(s) && Gone(s, t)
    ensures Gone(Exec(s, acts), t)
    decreases |acts|
  {
    if acts != [] {
      GoneStaysGone(s, acts[0], t);
      ApplyKeepsInv(s, acts[0]);
      GoneForever(Apply(s, acts[0]), acts[1..], t);
    }
  }

  /** Whoever removes a lock file removes its own, or one whose owner holds nothing and never will again:
      a delayed reaper cannot remove a later owner's file. `later` is any continuation of the run. */
  lemma RemovalsAreJust(s: State, acts: seq<Action>, act: Action, n: Name, later: seq<Action>)
    requires Init(s)
    requires n in Exec(s, acts).files && n !in Apply(Exec(s, acts), act).files
    ensures var t := Exec(s, acts);
            && act.Step? && act.agent in t.agents && t.files[n].Owned?
            && var o := t.files[n].owner;
               || ClaimOf(t.agents[act.agent]) == Claim(n, o.token)
               || Gone(Exec(t, later), o.token)
  {
    ExecKeepsInv(s, acts);
    var t := Exec(s, acts);
    assert act.Step? && act.agent in t.agents;
    var c := t.agents[act.agent];
    assert CallOk(t, c);
    if c.run.Acquiring? {
      AdvanceEffect(t, act.agent);
      assert MayRemove(t, c, n);
    }
    var o := t.files[n].owner;
    if ClaimOf(c) != Claim(n, o.token) { GoneForever(t, later, o.token); }
  }

  // ---------------------------------------------------------------------------------------------
  // Progress: a call that runs alone
  // ---------------------------------------------------------------------------------------------

  function Solo(s: State, a: Agent, n: nat): State
    decreases n
  {
    if n == 0 then s else Solo(Apply(s, Step(a)), a, n - 1)
  }

  lemma {:induction false} SoloThen(s: State, a: Agent, m: nat, n: nat)
    ensures Solo(Solo(s, a, m), a, n) == Solo(s, a, m + n)
    decreases m
  {
    if m != 0 { SoloThen(Apply(s, Step(a)), a, m - 1, n); }
  }

  /** `file` is held by a dead owner, its reaper lock by a dead reaper, and so on `k` deep; the last
      reaper lock is free. */
  ghost predicate DeadChain(s: State, file: Name, k: nat)
    decreases k
  {
    if k == 0 then file !in s.files
    else
      && file in s.files && s.files[file].Owned?
      && s.files[file].owner.pid !in s.alive
      && DeadChain(s, Reaper(file, s.files[file].owner.token), k - 1)
  }

  ghost function ChainNames(s: State, file: Name, k: nat): set<Name>
    requires DeadChain(s, file, k)
    decreases k
  {
    if k == 0 then {}
    else {file} + ChainNames(s, Reaper(file, s.files[file].owner.token), k - 1)
  }

  function Nesting(n: Name): nat {
    if n.Store? then 0 else 1 + Nesting(n.base)
  }

  lemma {:induction false} ChainNests(s: State, file: Name, k: nat)
    requires DeadChain(s, file, k)
    ensures forall n | n in ChainNames(s, file, k) :: Nesting(n) >= Nesting(file)
    ensures k > 0 ==> file in ChainNames(s, file, k)
    decreases k
  {
    if k > 0 { ChainNests(s, Reaper(file, s.files[file].owner.token), k - 1); }
  }

  /** `a`'s innermost activation starts on `file` at `depth`, over the waiting activations `base`. */
  ghost predicate Starts(s: State, a: Agent, base: seq<Frame>, file: Name, depth: nat) {
    && a in s.agents
    && s.agents[a].run == Acquiring(base + [Frame(file, depth, Linking)])
    && forall i | 0 <= i < |base| :: base[i].pc.Waiting?
  }

  /** The state in which `a`'s innermost activation has returned with the lock on `file`, the dead chain gone. */
  ghost function Cleared(s: State, a: Agent, base: seq<Frame>, file: Name, k: nat, uses: nat): State
    requires a in s.agents && DeadChain(s, file, k) && uses > 0
  {
    var token := s.next + uses - 1;
    s.(files := (s.files - ChainNames(s, file, k))[file := Owned(Owner(s.agents[a].pid, token))],
       next := s.next + uses,
       agents := s.agents[a := s.agents[a].(run := Acquired(base, token))])
  }

  /** The first three steps against a dead owner: it starts an activation on the reaper lock. */
  lemma ThreeStepsDown(s: State, a: Agent, base: seq<Frame>, file: Name, depth: nat) returns (n: nat)
    requires Starts(s, a, base, file, depth) && depth <= MAX_DEPTH
    requires file in s.files && s.files[file].Owned? && s.files[file].owner.pid !in s.alive
    ensures var seen := s.files[file].owner;
            var wait := base + [Frame(file, depth, Waiting(seen))];
            && Solo(s, a, n) == Put(s, a, Acquiring(wait + [Frame(Reaper(file, seen.token), depth + 1, Linking)]))
            && Starts(Solo(s, a, n), a, wait, Reaper(file, seen.token), depth + 1)
  {
    var seen := s.files[file].owner;
    var wait := base + [Frame(file, depth, Waiting(seen))];
    var s1 := Apply(s, Step(a));
    assert s1 == Put(s, a, Acquiring(base + [Frame(file, depth, Observing)]));
    var s2 := Apply(s1, Step(a));
    assert s2 == Put(s, a, Acquiring(base + [Frame(file, depth, Judging(seen))]));
    var s3 := Apply(s2, Step(a));
    assert base + [Frame(file, depth, Waiting(seen)), Frame(Reaper(file, seen.token), depth + 1, Linking)]
        == wait + [Frame(Reaper(file, seen.token), depth + 1, Linking)];
    assert s3 == Put(s, a, Acquiring(wait + [Frame(Reaper(file, seen.token), depth + 1, Linking)]));
    n := 3;
    assert Solo(s, a, 3) == Solo(s1, a, 2) == Solo(s2, a, 1) == Solo(s3, a, 0);
  }

  lemma GotoIs(s: State, a: Agent, base: seq<Frame>, f: Frame, pc: Pc)
    requires a in s.agents && s.agents[a].run == Acquiring(base + [f])
    ensures Top(s.agents[a]) == f
    ensures Goto(s, a, pc) == Put(s, a, Acquiring(base + [f.(pc := pc)]))
  {
  }

  /** Under the reaper lock: check the dead owner twice and remove its file. */
  lemma ThreeStepsUnlink(s: State, a: Agent, base: seq<Frame>, file: Name, depth: nat, seen: Owner, guard: Token) returns (n: nat)
    requires a in s.agents && s.agents[a].run == Acquiring(base + [Frame(file, depth, Rechecking(seen, guard))])
    requires seen.pid !in s.alive && HoldsFile(s, file, seen)
    ensures Solo(s, a, n) ==
            Put(s.(files := s.files - {file}), a, Acquiring(base + [Frame(file, depth, CheckingGuard(seen, guard))]))
  {
    var m := TwoChecks(s, a, base, file, depth, seen, guard);
    var s2 := Solo(s, a, m);
    GotoIs(s2.(files := s.files - {file}), a, base, Frame(file, depth, Unlinking(seen, guard)), CheckingGuard(seen, guard));
    assert Solo(s2, a, 1) == Solo(Apply(s2, Step(a)), a, 0);
    SoloThen(s, a, m, 1);
    n := m + 1;
  }

  lemma TwoChecks(s: State, a: Agent, base: seq<Frame>, file: Name, depth: nat, seen: Owner, guard: Token) returns (n: nat)
    requires a in s.agents && s.agents[a].run == Acquiring(base + [Frame(file, depth, Rechecking(seen, guard))])
    requires seen.pid !in s.alive && HoldsFile(s, file, seen)
    ensures Solo(s, a, n) == Put(s, a, Acquiring(base + [Frame(file, depth, Unlinking(seen, guard))]))
  {
    GotoIs(s, a, base, Frame(file, depth, Rechecking(seen, guard)), Rejudging(seen, guard));
    var s1 := Apply(s, Step(a));
    GotoIs(s1, a, base, Frame(file, depth, Rejudging(seen, guard)), Unlinking(seen, guard));
    n := 2;
    assert Solo(s, a, 2) == Solo(s1, a, 1) == Solo(Apply(s1, Step(a)), a, 0);
  }

  /** Then drop the reaper lock and link. */
  lemma ThreeStepsLink(s: State, a: Agent, base: seq<Frame>, file: Name, depth: nat, seen: Owner, guard: Token) returns (n: nat)
    requires a in s.agents && s.agents[a].run == Acquiring(base + [Frame(file, depth, CheckingGuard(seen, guard))])
    requires depth < MAX_DEPTH && file !in s.files
    requires HoldsFile(s, Reaper(file, seen.token), Owner(s.agents[a].pid, guard))
    ensures Solo(s, a, n) ==
            Put(s.(files := (s.files - {Reaper(file, seen.token)})[file := Owned(Owner(s.agents[a].pid, s.next))],
                   next := s.next + 1), a, Acquired(base, s.next))
  {
    var r := Reaper(file, seen.token);
    var s1 := Apply(s, Step(a));
    assert s1 == Put(s, a, Acquiring(base + [Frame(file, depth, DroppingGuard(seen, guard))]));
    var s2 := Apply(s1, Step(a));
    assert s2 == Put(s.(files := s.files - {r}), a, Acquiring(base + [Frame(file, depth + 1, Linking)]));
    var s3 := Apply(s2, Step(a));
    assert (base + [Frame(file, depth + 1, Linking)])[..|base|] == base;
    n := 3;
    assert Solo(s, a, 3) == Solo(s1, a, 2) == Solo(s2, a, 1) == Solo(s3, a, 0);
  }

  lemma SixStepsUp(s: State, a: Agent, base: seq<Frame>, file: Name, depth: nat, seen: Owner, guard: Token) returns (n: nat)
    requires a in s.agents && s.agents[a].run == Acquiring(base + [Frame(file, depth, Rechecking(seen, guard))])
    requires depth < MAX_DEPTH && seen.pid !in s.alive
    requires HoldsFile(s, file, seen) && HoldsFile(s, Reaper(file, seen.token), Owner(s.agents[a].pid, guard))
    ensures Solo(s, a, n) == Relinked(s, a, base, file, seen)
  {
    var m := ThreeStepsUnlink(s, a, base, file, depth, seen, guard);
    var t := Solo(s, a, m);
    var m' := UnlinkedLinks(s, t, a, base, file, depth, seen, guard);
    n := SoloVia(s, a, m, t, m', Relinked(s, a, base, file, seen));
  }

  lemma SoloVia(s: State, a: Agent, m: nat, t: State, n: nat, u: State) returns (k: nat)
    requires Solo(s, a, m) == t && Solo(t, a, n) == u
    ensures Solo(s, a, k) == u
  {
    SoloThen(s, a, m, n);
    k := m + n;
  }

  /** The dead owner's file and the reaper lock are gone, and the file is the call's own. */
  function Relinked(s: State, a: Agent, base: seq<Frame>, file: Name, seen: Owner): State
    requires a in s.agents
  {
    Put(s.(files := (s.files - {file} - {Reaper(file, seen.token)})[file := Owned(Owner(s.agents[a].pid, s.next))],
           next := s.next + 1), a, Acquired(base, s.next))
  }

  lemma UnlinkedLinks(s: State, t: State, a: Agent, base: seq<Frame>, file: Name, depth: nat, seen: Owner, guard: Token) returns (n: nat)
    requires a in s.agents && depth < MAX_DEPTH
    requires HoldsFile(s, Reaper(file, seen.token), Owner(s.agents[a].pid, guard))
    requires t == Put(s.(files := s.files - {file}), a, Acquiring(base + [Frame(file, depth, CheckingGuard(seen, guard))]))
    ensures Solo(t, a, n) == Relinked(s, a, base, file, seen)
  {
    assert Nesting(Reaper(file, seen.token)) == Nesting(file) + 1;
    n := ThreeStepsLink(t, a, base, file, depth, seen, guard);
  }

  lemma LinksFreeFile(s: State, a: Agent, base: seq<Frame>, file: Name, depth: nat) returns (n: nat)
    requires Starts(s, a, base, file, depth) && file !in s.files && depth <= MAX_DEPTH
    ensures Solo(s, a, n) == Cleared(s, a, base, file, 0, 1)
  {
    n := 1;
    assert (base + [Frame(file, depth, Linking)])[..|base|] == base;
    assert s.files - {} == s.files;
    assert Solo(s, a, 1) == Solo(Apply(s, Step(a)), a, 0);
  }

  lemma ClearedSame(s: State, a: Agent, run: Run, base: seq<Frame>, file: Name, k: nat)
    requires a in s.agents && DeadChain(s, file, k)
    ensures DeadChain(Put(s, a, run), file, k)
    ensures forall uses: nat | uses > 0 :: Cleared(Put(s, a, run), a, base, file, k, uses) == Cleared(s, a, base, file, k, uses)
  {
    SameChain(s, Put(s, a, run), file, k);
  }

  /** At a dead owner the call goes on to the reaper lock, whose chain is one shorter. */
  lemma GoesDown(s: State, a: Agent, base: seq<Frame>, file: Name, depth: nat, k: nat, rest: nat)
    returns (down: nat, t: State, wait: seq<Frame>, r: Name)
    requires Starts(s, a, base, file, depth) && k == rest + 1 && DeadChain(s, file, k) && depth + k <= MAX_DEPTH
    ensures t == Solo(s, a, down)
    ensures wait == base + [Frame(file, depth, Waiting(s.files[file].owner))] && r == Reaper(file, s.files[file].owner.token)
    ensures DeadChain(s, r, rest) && Starts(t, a, wait, r, depth + 1) && DeadChain(t, r, rest)
    ensures forall uses: nat | uses > 0 :: Cleared(t, a, wait, r, rest, uses) == Cleared(s, a, wait, r, rest, uses)
  {
    var seen := s.files[file].owner;
    wait, r := base + [Frame(file, depth, Waiting(seen))], Reaper(file, seen.token);
    down := ThreeStepsDown(s, a, base, file, depth);
    t := Solo(s, a, down);
    ClearedSame(s, a, t.agents[a].run, wait, r, rest);
  }

  lemma ClimbsAround(s: State, a: Agent, base: seq<Frame>, file: Name, depth: nat, k: nat, rest: nat, down: nat, below: nat, used: nat,
                     t: State, wait: seq<Frame>, r: Name)
    returns (steps: nat)
    requires Starts(s, a, base, file, depth) && k == rest + 1 && DeadChain(s, file, k) && depth + k <= MAX_DEPTH && used > 0
    requires wait == base + [Frame(file, depth, Waiting(s.files[file].owner))] && r == Reaper(file, s.files[file].owner.token)
    requires DeadChain(s, r, rest) && t == Solo(s, a, down)
    requires Solo(t, a, below) == Cleared(s, a, wait, r, rest, used)
    ensures Solo(s, a, steps) == Cleared(s, a, base, file, k, used + 1)
  {
    var up := ClimbsBackUp(s, a, base, file, depth, k, rest, used, wait, r);
    steps := SoloVia(s, a, down, t, below, Cleared(s, a, wait, r, rest, used));
    steps := SoloVia(s, a, steps, Cleared(s, a, wait, r, rest, used), up, Cleared(s, a, base, file, k, used + 1));
  }

  /** A chain of `k` dead owners within the depth limit: the activation returns with the lock, every dead
      file is gone and no reaper lock is left. */
  lemma {:induction false} ClimbsDeadChain(s: State, a: Agent, base: seq<Frame>, file: Name, depth: nat, k: nat)
    returns (steps: nat, uses: nat)
    requires Starts(s, a, base, file, depth) && DeadChain(s, file, k) && depth + k <= MAX_DEPTH
    ensures uses > 0 && Solo(s, a, steps) == Cleared(s, a, base, file, k, uses)
    decreases k
  {
    if k == 0 {
      uses := 1;
      steps := LinksFreeFile(s, a, base, file, depth);
    } else {
      var rest := k - 1;
      var down, t, wait, r := GoesDown(s, a, base, file, depth, k, rest);
      var below, used := ClimbsDeadChain(t, a, wait, r, depth + 1, rest);
      assert Cleared(t, a, wait, r, rest, used) == Cleared(s, a, wait, r, rest, used);
      steps := ClimbsAround(s, a, base, file, depth, k, rest, down, below, used, t, wait, r);
      uses := used + 1;
    }
  }

  /** From the return of the activation on the reaper lock to the return of the one on `file`. */
  lemma ClimbsBackUp(s: State, a: Agent, base: seq<Frame>, file: Name, depth: nat, k: nat, rest: nat, used: nat,
                     wait: seq<Frame>, r: Name)
    returns (n: nat)
    requires Starts(s, a, base, file, depth) && k == rest + 1 && DeadChain(s, file, k) && depth + k <= MAX_DEPTH && used > 0
    requires wait == base + [Frame(file, depth, Waiting(s.files[file].owner))] && r == Reaper(file, s.files[file].owner.token)
    requires DeadChain(s, r, rest)
    ensures Solo(Cleared(s, a, wait, r, rest, used), a, n) == Cleared(s, a, base, file, k, used + 1)
  {
    var seen := s.files[file].owner;
    var t := Cleared(s, a, wait, r, rest, used);
    var guard := s.next + used - 1;
    assert wait[..|base|] == base;
    ChainNests(s, r, rest);
    assert Nesting(r) == Nesting(file) + 1;
    n := SixStepsUp(t, a, base, file, depth, seen, guard);
    ClearedFiles(s, file, k, Owned(Owner(s.agents[a].pid, guard)), Owned(Owner(s.agents[a].pid, guard + 1)));
  }

  lemma ClearedFiles(s: State, file: Name, k: nat, guard: Content, own: Content)
    requires k > 0 && DeadChain(s, file, k)
    ensures var r := Reaper(file, s.files[file].owner.token);
            ((s.files - ChainNames(s, r, k - 1))[r := guard] - {file} - {r})[file := own]
              == (s.files - ChainNames(s, file, k))[file := own]
  {
    ChainNests(s, Reaper(file, s.files[file].owner.token), k - 1);
  }

  lemma {:induction false} SameChain(s: State, t: State, file: Name, k: nat)
    requires DeadChain(s, file, k) && t.files == s.files && t.alive == s.alive
    ensures DeadChain(t, file, k) && ChainNames(t, file, k) == ChainNames(s, file, k)
    decreases k
  {
    if k > 0 { SameChain(s, t, Reaper(file, s.files[file].owner.token), k - 1); }
  }

  /** A chain beyond the depth limit: the call gives up and no file has changed. */
  lemma {:induction false} GivesUpOnDeepChain(s: State, a: Agent, base: seq<Frame>, file: Name, depth: nat, k: nat)
    returns (steps: nat)
    requires Starts(s, a, base, file, depth) && DeadChain(s, file, k)
    requires depth <= MAX_DEPTH + 1 && depth + k > MAX_DEPTH
    ensures Solo(s, a, steps) == Put(s, a, Finished)
    decreases k
  {
    if depth > MAX_DEPTH {
      steps := 1;
      assert Solo(s, a, 1) == Solo(Apply(s, Step(a)), a, 0);
    } else {
      var seen := s.files[file].owner;
      var down := ThreeStepsDown(s, a, base, file, depth);
      var s3 := Solo(s, a, down);
      SameChain(s, s3, Reaper(file, seen.token), k - 1);
      var below := GivesUpOnDeepChain(s3, a, base + [Frame(file, depth, Waiting(seen))],
                                      Reaper(file, seen.token), depth + 1, k - 1);
      SoloThen(s, a, down, below);
      steps := down + below;
    }
  }

  /** A lone call facing `k` dead owners ends holding the lock exactly when `k <= 8`. Then nothing of the
      dead chain and no reaper lock is left; otherwise no file has changed. */
  lemma SoloAcquires(s: State, a: Agent, k: nat) returns (steps: nat)
    requires a in s.agents && s.agents[a].run == Acquiring([Frame(s.agents[a].file, 0, Linking)])
    requires DeadChain(s, s.agents[a].file, k)
    ensures var t := Solo(s, a, steps);
            var file := s.agents[a].file;
            && a in t.agents
            && (t.agents[a].run.Holding? <==> k <= MAX_DEPTH)
            && (k <= MAX_DEPTH ==>
                  && StillHeld(t, a)
                  && t.files.Keys == s.files.Keys - ChainNames(s, file, k) + {file}
                  && forall n | n in t.files && n != file :: t.files[n] == s.files[n])
            && (k > MAX_DEPTH ==> t.agents[a].run.Finished? && t.files == s.files)
  {
    var file := s.agents[a].file;
    assert [] + [Frame(file, 0, Linking)] == [Frame(file, 0, Linking)];
    assert Starts(s, a, [], file, 0);
    if k <= MAX_DEPTH {
      var uses;
      steps, uses := ClimbsDeadChain(s, a, [], file, 0, k);
    } else {
      steps := GivesUpOnDeepChain(s, a, [], file, 0, k);
    }
  }
}
