/** What a lock leaves behind (shared/lib/credential-lock.js): a release frees its file, and no file of a process that has not
    crashed is without a live call. */
module LockRelease {
  import opened CredentialLock

  // ---------------------------------------------------------------------------------------------
  // One release
  // ---------------------------------------------------------------------------------------------

  function Released(s: State, a: Agent): State {
    Apply(Apply(s, Release(a)), Step(a))
  }

  /** A holder that releases removes its own lock file and no other, and is done. */
  lemma ReleaseFrees(s: State, a: Agent)
    requires Inv(s) && a in s.agents && s.agents[a].run.Holding?
    ensures var t, file := Released(s, a), s.agents[a].file;
            && file in s.files && file !in t.files && t.files == s.files - {file}
            && t.agents == s.agents[a := s.agents[a].(run := Finished)] && t.alive == s.alive && t.next == s.next
  {
    assert CallOk(s, s.agents[a]);
    assert StillHeld(s, a);
  }

  /** Then a new call for that lock, left alone, gets it, though the process that released goes on living. */
  lemma NextCallAcquires(s: State, a: Agent, b: Agent, pid: Pid, path: string) returns (steps: nat)
    requires Inv(s) && a in s.agents && s.agents[a].run.Holding? && s.agents[a].file == Store(path) && b !in s.agents
    ensures var t := Solo(Apply(Released(s, a), Spawn(b, pid, path)), b, steps);
            b in t.agents && t.agents[b].run.Holding? && StillHeld(t, b) && t.files.Keys == s.files.Keys
  {
    ReleaseFrees(s, a);
    var u := Apply(Released(s, a), Spawn(b, pid, path));
    assert DeadChain(u, Store(path), 0);
    steps := SoloAcquires(u, b, 0);
  }

  // ---------------------------------------------------------------------------------------------
  // All runs
  // ---------------------------------------------------------------------------------------------

  /** A live call claims this file under this owner's token. */
  ghost predicate Claimed(s: State, n: Name, o: Owner) {
    exists a :: a in s.agents && s.agents[a].pid == o.pid && ClaimOf(s.agents[a]) == Claim(n, o.token)
  }

  /** A lock file with a token issued from `first` on, of a process that is not among the crashed. */
  predicate Standing(s: State, first: Token, crashed: set<Pid>, n: Name) {
    n in s.files && s.files[n].Owned? && s.files[n].owner.token >= first && s.files[n].owner.pid !in crashed
  }

  ghost predicate NoOrphans(s: State, first: Token, crashed: set<Pid>) {
    forall n | Standing(s, first, crashed, n) :: Claimed(s, n, s.files[n].owner)
  }

  /** A call gives up a claim only with the file, and publishes only what it claims. */
  ghost predicate KeepsHouse(s: State, t: State, a: Agent) {
    && a in s.agents && a in t.agents
    && (ClaimOf(s.agents[a]).Claim? ==> ClaimOf(t.agents[a]) == ClaimOf(s.agents[a]) || ClaimOf(s.agents[a]).name !in t.files)
    && (forall n | n in t.files && n !in s.files :: ClaimOf(t.agents[a]) == Claim(n, s.next))
  }

  lemma PublishKeepsHouse(s: State, a: Agent)
    requires Active(s, a) && Top(s.agents[a]).pc.Linking?
    ensures KeepsHouse(s, Advance(s, a), a)
  {
    var stack := s.agents[a].run.stack;
    assert CallOk(s, s.agents[a]) && StackOk(s, stack);
    var n := |stack| - 1;
    if n > 0 { assert stack[n - 1].pc.Waiting? && stack[n].file == ReaperOf(stack[n - 1]); }
  }

  lemma GuardKeepsHouse(s: State, a: Agent)
    requires Active(s, a) && HasGuard(Top(s.agents[a]))
    ensures KeepsHouse(s, Advance(s, a), a)
  {
    assert CallOk(s, s.agents[a]);
  }

  lemma OpenKeepsHouse(s: State, a: Agent)
    requires Active(s, a) && !HasGuard(Top(s.agents[a])) && !Top(s.agents[a]).pc.Linking?
    ensures KeepsHouse(s, Advance(s, a), a)
  {
  }

  lemma StepKeepsHouse(s: State, a: Agent)
    requires Inv(s) && a in s.agents
    ensures KeepsHouse(s, Apply(s, Step(a)), a)
  {
    assert CallOk(s, s.agents[a]);
    if s.agents[a].run.Acquiring? {
      if Top(s.agents[a]).pc.Linking? { PublishKeepsHouse(s, a); }
      else if HasGuard(Top(s.agents[a])) { GuardKeepsHouse(s, a); }
      else { OpenKeepsHouse(s, a); }
    }
  }

  lemma StepEffect(s: State, a: Agent)
    requires Inv(s) && a in s.agents
    ensures Effect(s, Apply(s, Step(a)), a)
  {
    assert CallOk(s, s.agents[a]);
    if s.agents[a].run.Acquiring? {
      AdvanceEffect(s, a);
    } else if s.agents[a].run.Releasing? {
      assert MayRemove(s, s.agents[a], s.agents[a].file);
      RemoveEffect(s, a, s.agents[a].file, Finished);
    }
  }

  lemma StepLeavesNone(s: State, a: Agent, first: Token, crashed: set<Pid>)
    requires Inv(s) && a in s.agents && NoOrphans(s, first, crashed)
    ensures NoOrphans(Apply(s, Step(a)), first, crashed)
  {
    var t := Apply(s, Step(a));
    StepEffect(s, a);
    StepKeepsHouse(s, a);
    HouseLeavesNone(s, t, a, first, crashed);
  }

  lemma HouseLeavesNone(s: State, t: State, a: Agent, first: Token, crashed: set<Pid>)
    requires NoOrphans(s, first, crashed) && Effect(s, t, a) && KeepsHouse(s, t, a)
    ensures NoOrphans(t, first, crashed)
  {
    forall n | Standing(t, first, crashed, n) ensures Claimed(t, n, t.files[n].owner) {
      if n in s.files {
        assert t.files[n] == s.files[n] && Standing(s, first, crashed, n);
        var b :| b in s.agents && s.agents[b].pid == s.files[n].owner.pid && ClaimOf(s.agents[b]) == Claim(n, s.files[n].owner.token);
        assert t.agents[b].pid == s.files[n].owner.pid && ClaimOf(t.agents[b]) == Claim(n, s.files[n].owner.token);
      } else {
        assert t.agents[a].pid == t.files[n].owner.pid && ClaimOf(t.agents[a]) == Claim(n, s.next);
      }
    }
  }

  lemma ReleaseLeavesNone(s: State, a: Agent, first: Token, crashed: set<Pid>)
    requires Inv(s) && NoOrphans(s, first, crashed)
    ensures NoOrphans(Apply(s, Release(a)), first, crashed)
  {
    var t := Apply(s, Release(a));
    if a in s.agents && s.agents[a].run.Holding? {
      assert CallOk(s, s.agents[a]);
      LocalEffect(s, a, t.agents[a].run);
      HouseLeavesNone(s, t, a, first, crashed);
    }
  }

  /** The processes that have crashed after a step. */
  function Crashed(crashed: set<Pid>, act: Action): set<Pid> {
    match act
    case Crash(pid) => crashed + {pid}
    case _ => crashed
  }

  lemma CrashLeavesNone(s: State, pid: Pid, first: Token, crashed: set<Pid>)
    requires NoOrphans(s, first, crashed)
    ensures NoOrphans(Apply(s, Crash(pid)), first, crashed + {pid})
  {
    var t := Apply(s, Crash(pid));
    forall n | Standing(t, first, crashed + {pid}, n) ensures Claimed(t, n, t.files[n].owner) {
      assert Standing(s, first, crashed, n);
      var b :| b in s.agents && s.agents[b].pid == s.files[n].owner.pid && ClaimOf(s.agents[b]) == Claim(n, s.files[n].owner.token);
      assert b in t.agents && t.agents[b] == s.agents[b];
    }
  }

  lemma SpawnLeavesNone(s: State, a: Agent, pid: Pid, path: string, first: Token, crashed: set<Pid>)
    requires NoOrphans(s, first, crashed)
    ensures NoOrphans(Apply(s, Spawn(a, pid, path)), first, crashed)
  {
    var t := Apply(s, Spawn(a, pid, path));
    forall n | Standing(t, first, crashed, n) ensures Claimed(t, n, t.files[n].owner) {
      assert Standing(s, first, crashed, n);
      var b :| b in s.agents && s.agents[b].pid == s.files[n].owner.pid && ClaimOf(s.agents[b]) == Claim(n, s.files[n].owner.token);
      assert b in t.agents && t.agents[b] == s.agents[b];
    }
  }

  lemma ApplyLeavesNone(s: State, act: Action, first: Token, crashed: set<Pid>)
    requires Inv(s) && NoOrphans(s, first, crashed)
    ensures NoOrphans(Apply(s, act), first, Crashed(crashed, act))
  {
    match act
    case Spawn(a, pid, path) => SpawnLeavesNone(s, a, pid, path, first, crashed);
    case Step(a) => if a in s.agents { StepLeavesNone(s, a, first, crashed); }
    case Release(a) => ReleaseLeavesNone(s, a, first, crashed);
    case Crash(pid) => CrashLeavesNone(s, pid, first, crashed);
  }

  function CrashedIn(crashed: set<Pid>, acts: seq<Action>): set<Pid>
    decreases |acts|
  {
    if acts == [] then crashed else CrashedIn(Crashed(crashed, acts[0]), acts[1..])
  }

  lemma {:induction false} ExecLeavesNone(s: State, acts: seq<Action>, first: Token, crashed: set<Pid>)
    requires Inv(s) && NoOrphans(s, first, crashed)
    ensures NoOrphans(Exec(s, acts), first, CrashedIn(crashed, acts))
    decreases |acts|
  {
    if acts != [] {
      ApplyKeepsInv(s, acts[0]);
      ApplyLeavesNone(s, acts[0], first, crashed);
      ExecLeavesNone(Apply(s, acts[0]), acts[1..], first, Crashed(crashed, acts[0]));
    }
  }

  /** No other process crashed than those the run says. */
  lemma {:induction false} CrashedOnlyThen(crashed: set<Pid>, acts: seq<Action>, pid: Pid)
    ensures pid in CrashedIn(crashed, acts) <==> pid in crashed || Crash(pid) in acts
    decreases |acts|
  {
    if acts != [] {
      assert acts == [acts[0]] + acts[1..];
      CrashedOnlyThen(Crashed(crashed, acts[0]), acts[1..], pid);
    }
  }

  /** In every run: a lock file, store lock or reaper lock, under a token issued in the run and of a process that did not crash is
      claimed by a live call of that process. So what is left in the way is only what the run found there or a crash left. */
  lemma NothingLeftBehind(s: State, acts: seq<Action>, n: Name)
    requires Init(s)
    requires var t := Exec(s, acts);
             n in t.files && t.files[n].Owned? && t.files[n].owner.token >= s.next && Crash(t.files[n].owner.pid) !in acts
    ensures var t := Exec(s, acts); Claimed(t, n, t.files[n].owner)
  {
    var t := Exec(s, acts);
    ExecLeavesNone(s, acts, s.next, {});
    CrashedOnlyThen({}, acts, t.files[n].owner.pid);
    assert Standing(t, s.next, CrashedIn({}, acts), n);
  }
}
