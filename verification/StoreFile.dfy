/** The locked read-modify-write of shared/lib/store-file.js, on top of the lock of CredentialLock: any
    number of `mutateFile` attempts on one store, interleaved with every step of the lock and with crashes
    of any process between any two steps. */
module StoreFile {
  import Lock = CredentialLock

  type Fields = map<string, string>

  /** The file as bytes on disk: absent, not a JSON object, or the text of one. */
  datatype Raw = Absent | Corrupt(bytes: seq<bv8>) | Object(fields: Fields)

  /** `readObject`: what is not a JSON object reads as empty. */
  function ReadObject(raw: Raw): Fields {
    if raw.Object? then raw.fields else map[]
  }

  /** What a mutator leaves behind: `false`, or a store to write. */
  datatype Outcome = Skip | Write(fields: Fields)

  type Mutator = Fields -> Outcome

  /** The steps of one attempt, all between taking the lock and releasing it. A corrupt file is copied aside before it is
      replaced; an error ends an attempt wherever it is. */
  datatype Phase =
    | HasBaseline(baseline: Raw)
    | HasStore(baseline: Raw, store: Fields)
    | Cleared(baseline: Raw, next: Fields)
    | Kept(baseline: Raw, next: Fields)
    | Committed(written: Fields)
    | Skipped
    | Preempted
    | Thrown

  /** `aside` are the copies made of corrupt files; `log` are the attempts that committed, in order. */
  datatype State = State(lock: Lock.State, raw: Raw, aside: seq<Raw>, phases: map<Lock.Agent, Phase>, log: seq<Lock.Agent>)

  datatype Action =
    | Locking(act: Lock.Action)
    | ReadBaseline(agent: Lock.Agent)
    | ReadStore(agent: Lock.Agent)
    | Mutate(agent: Lock.Agent)
    | Preserve(agent: Lock.Agent)
    | Replace(agent: Lock.Agent)
    | Throw(agent: Lock.Agent)
    | Leave(agent: Lock.Agent)

  /** The store's lock file, and the mutator each attempt was called with. */
  datatype Env = Env(path: string, mutator: Lock.Agent -> Mutator)

  function Apply(env: Env, s: State, act: Action): State {
    match act
    case Locking(l) =>
      if !Lock.Foreign(s.lock, env.path, l) then s
      else
        var lock := Lock.Apply(s.lock, l);
        s.(lock := lock, phases := map a | a in s.phases && a in lock.agents :: s.phases[a])
    case ReadBaseline(a) =>
      if Lock.Inside(s.lock, env.path, a) && a !in s.phases then s.(phases := s.phases[a := HasBaseline(s.raw)]) else s
    case ReadStore(a) =>
      if a in s.phases && s.phases[a].HasBaseline? then
        s.(phases := s.phases[a := HasStore(s.phases[a].baseline, ReadObject(s.raw))])
      else s
    case Mutate(a) =>
      if a in s.phases && s.phases[a].HasStore? then
        var baseline := s.phases[a].baseline;
        match env.mutator(a)(s.phases[a].store)
        case Skip => s.(phases := s.phases[a := Skipped])
        case Write(next) =>
          if !Lock.StillHeld(s.lock, a) || s.raw != baseline then s.(phases := s.phases[a := Preempted])
          else s.(phases := s.phases[a := Cleared(baseline, next)])
      else s
    case Preserve(a) =>
      if a in s.phases && s.phases[a].Cleared? && s.phases[a].baseline.Corrupt? then
        s.(aside := s.aside + [s.raw], phases := s.phases[a := Kept(s.phases[a].baseline, s.phases[a].next)])
      else s
    case Replace(a) =>
      if a in s.phases && MayReplace(s.phases[a]) then
        State(s.lock, Object(s.phases[a].next), s.aside, s.phases[a := Committed(s.phases[a].next)], s.log + [a])
      else s
    case Throw(a) =>
      if a in s.phases && !Over(s.phases[a]) then s.(phases := s.phases[a := Thrown]) else s
    case Leave(a) =>
      if a in s.phases && Over(s.phases[a]) then
        s.(lock := Lock.Apply(s.lock, Lock.Release(a)), phases := s.phases - {a})
      else s
  }

  predicate MayReplace(p: Phase) {
    p.Kept? || (p.Cleared? && !p.baseline.Corrupt?)
  }

  predicate Over(p: Phase) {
    p.Committed? || p.Skipped? || p.Preempted? || p.Thrown?
  }

  function Exec(env: Env, s: State, acts: seq<Action>): State
    decreases |acts|
  {
    if acts == [] then s else Exec(env, Apply(env, s, acts[0]), acts[1..])
  }

  ghost predicate Init(s: State) {
    Lock.Init(s.lock) && s.aside == [] && s.phases == map[] && s.log == []
  }

  // ---------------------------------------------------------------------------------------------
  // Serializability
  // ---------------------------------------------------------------------------------------------

  /** The specification: the mutators of `log` applied one after another, each to what the last one left. */
  function Replay(env: Env, raw: Raw, log: seq<Lock.Agent>): Raw
    decreases |log|
  {
    if log == [] then raw
    else
      var before := Replay(env, raw, log[..|log| - 1]);
      match env.mutator(log[|log| - 1])(ReadObject(before))
      case Skip => before
      case Write(next) => Object(next)
  }

  /** What an attempt has read is still what the file holds. */
  ghost predicate PhaseOk(env: Env, s: State, a: Lock.Agent, p: Phase) {
    match p
    case HasBaseline(baseline) => baseline == s.raw
    case HasStore(baseline, store) => baseline == s.raw && store == ReadObject(s.raw)
    case Cleared(baseline, next) => baseline == s.raw && env.mutator(a)(ReadObject(s.raw)) == Write(next)
    case Kept(baseline, next) => baseline == s.raw && s.aside != [] && env.mutator(a)(ReadObject(s.raw)) == Write(next)
    case Committed(written) => s.raw == Object(written)
    case Thrown => true
    case Skipped => env.mutator(a)(ReadObject(s.raw)) == Skip
    case Preempted => false
  }

  ghost predicate Inv(env: Env, first: Raw, s: State) {
    && Lock.Inv(s.lock)
    && (forall a | a in s.phases :: Lock.Inside(s.lock, env.path, a) && PhaseOk(env, s, a, s.phases[a]))
    && s.raw == Replay(env, first, s.log)
    && CopiesOf(first, s.aside)
    && (first.Corrupt? && s.log != [] ==> s.aside != [])
    && (s.log != [] ==> s.raw.Object?)
  }

  /** Every copy is of the first file, which is corrupt. */
  predicate CopiesOf(first: Raw, aside: seq<Raw>) {
    forall i | 0 <= i < |aside| :: aside[i] == first && first.Corrupt?
  }

  lemma LockingKeepsInv(env: Env, first: Raw, s: State, l: Lock.Action)
    requires Inv(env, first, s) && Lock.Foreign(s.lock, env.path, l)
    ensures Inv(env, first, Apply(env, s, Locking(l)))
  {
    var t := Apply(env, s, Locking(l));
    Lock.ApplyKeepsInv(s.lock, l);
    forall a | a in t.phases ensures Lock.Inside(t.lock, env.path, a) && PhaseOk(env, t, a, t.phases[a]) {
      Lock.HoldersStay(s.lock, env.path, l, a);
    }
  }

  lemma ReplaceKeepsInv(env: Env, first: Raw, s: State, a: Lock.Agent)
    requires Inv(env, first, s) && a in s.phases && MayReplace(s.phases[a])
    ensures Inv(env, first, Apply(env, s, Replace(a)))
  {
    var t := Apply(env, s, Replace(a));
    assert PhaseOk(env, s, a, s.phases[a]);
    forall b | b in t.phases ensures Lock.Inside(t.lock, env.path, b) && PhaseOk(env, t, b, t.phases[b]) {
      Lock.OneInside(s.lock, env.path, a, b);
    }
    assert t.log[..|t.log| - 1] == s.log;
  }

  /** Nothing has been committed when a corrupt file is copied, so it is the first file. */
  lemma PreserveKeepsInv(env: Env, first: Raw, s: State, a: Lock.Agent)
    requires Inv(env, first, s) && a in s.phases && s.phases[a].Cleared? && s.phases[a].baseline.Corrupt?
    ensures Inv(env, first, Apply(env, s, Preserve(a)))
  {
    var t := Apply(env, s, Preserve(a));
    assert PhaseOk(env, s, a, s.phases[a]);
    assert s.log == [];
    forall b | b in t.phases ensures Lock.Inside(t.lock, env.path, b) && PhaseOk(env, t, b, t.phases[b]) {
      Lock.OneInside(s.lock, env.path, a, b);
    }
  }

  lemma ThrowKeepsInv(env: Env, first: Raw, s: State, a: Lock.Agent)
    requires Inv(env, first, s)
    ensures Inv(env, first, Apply(env, s, Throw(a)))
  {
    var t := Apply(env, s, Throw(a));
    forall b | b in t.phases ensures Lock.Inside(t.lock, env.path, b) && PhaseOk(env, t, b, t.phases[b]) {
      assert Lock.Inside(s.lock, env.path, b) && PhaseOk(env, s, b, s.phases[b]);
    }
  }

  lemma LeaveKeepsInv(env: Env, first: Raw, s: State, a: Lock.Agent)
    requires Inv(env, first, s) && a in s.phases
    ensures Inv(env, first, Apply(env, s, Leave(a)))
  {
    var t := Apply(env, s, Leave(a));
    Lock.ReleaseKeepsInv(s.lock, a);
    forall b | b in t.phases ensures Lock.Inside(t.lock, env.path, b) && PhaseOk(env, t, b, t.phases[b]) {
      assert Lock.Inside(s.lock, env.path, b) && PhaseOk(env, s, b, s.phases[b]);
    }
  }

  lemma MutateKeepsInv(env: Env, first: Raw, s: State, a: Lock.Agent)
    requires Inv(env, first, s) && a in s.phases && s.phases[a].HasStore?
    ensures Inv(env, first, Apply(env, s, Mutate(a)))
  {
    assert Lock.Inside(s.lock, env.path, a) && PhaseOk(env, s, a, s.phases[a]);
    assert Lock.CallOk(s.lock, s.lock.agents[a]);
    assert Lock.StillHeld(s.lock, a);
    var t := Apply(env, s, Mutate(a));
    forall b | b in t.phases ensures Lock.Inside(t.lock, env.path, b) && PhaseOk(env, t, b, t.phases[b]) {
      Lock.OneInside(s.lock, env.path, a, b);
    }
  }

  lemma ReadKeepsInv(env: Env, first: Raw, s: State, act: Action)
    requires Inv(env, first, s) && (act.ReadBaseline? || act.ReadStore?)
    ensures Inv(env, first, Apply(env, s, act))
  {
    var t := Apply(env, s, act);
    forall b | b in t.phases ensures Lock.Inside(t.lock, env.path, b) && PhaseOk(env, t, b, t.phases[b]) {
      assert b in s.phases ==> Lock.Inside(s.lock, env.path, b) && PhaseOk(env, s, b, s.phases[b]);
    }
  }

  lemma ApplyKeepsInv(env: Env, first: Raw, s: State, act: Action)
    requires Inv(env, first, s)
    ensures Inv(env, first, Apply(env, s, act))
  {
    match act {
      case Locking(l) => if Lock.Foreign(s.lock, env.path, l) { LockingKeepsInv(env, first, s, l); }
      case Mutate(a) => if a in s.phases && s.phases[a].HasStore? { MutateKeepsInv(env, first, s, a); }
      case Preserve(a) =>
        if a in s.phases && s.phases[a].Cleared? && s.phases[a].baseline.Corrupt? { PreserveKeepsInv(env, first, s, a); }
      case Replace(a) => if a in s.phases && MayReplace(s.phases[a]) { ReplaceKeepsInv(env, first, s, a); }
      case Throw(a) => ThrowKeepsInv(env, first, s, a);
      case Leave(a) => if a in s.phases { LeaveKeepsInv(env, first, s, a); }
      case _ => ReadKeepsInv(env, first, s, act);
    }
  }

  lemma {:induction false} ExecKeepsInv(env: Env, first: Raw, s: State, acts: seq<Action>)
    requires Inv(env, first, s)
    ensures Inv(env, first, Exec(env, s, acts))
    decreases |acts|
  {
    if acts != [] {
      ApplyKeepsInv(env, first, s, acts[0]);
      ExecKeepsInv(env, first, Apply(env, s, acts[0]), acts[1..]);
    }
  }

  /** In every interleaving, with crashes and errors anywhere: the file is what the committed mutators leave when run
      one after another from the first file; no attempt ever sees itself preempted; every copy aside is of a corrupt
      first file; and there is one as soon as anything was written over it. */
  lemma Serializable(env: Env, s: State, acts: seq<Action>)
    requires Init(s)
    ensures var t := Exec(env, s, acts);
            && t.raw == Replay(env, s.raw, t.log)
            && (forall a | a in t.phases :: !t.phases[a].Preempted?)
            && CopiesOf(s.raw, t.aside)
            && (s.raw.Corrupt? && t.log != [] ==> t.aside != [])
  {
    ExecKeepsInv(env, s.raw, s, acts);
  }

  /** Once anything was committed no further copy is made: all of them were made before the first commit. */
  lemma CopiesSettle(env: Env, s: State, acts: seq<Action>, more: seq<Action>)
    requires Init(s) && Exec(env, s, acts).log != []
    ensures Exec(env, Exec(env, s, acts), more).aside == Exec(env, s, acts).aside
  {
    ExecKeepsInv(env, s.raw, s, acts);
    NoMoreCopies(env, s.raw, Exec(env, s, acts), more);
  }

  lemma {:induction false} NoMoreCopies(env: Env, first: Raw, s: State, acts: seq<Action>)
    requires Inv(env, first, s) && s.log != []
    ensures Exec(env, s, acts).aside == s.aside
    decreases |acts|
  {
    if acts != [] {
      var t := Apply(env, s, acts[0]);
      ApplyKeepsInv(env, first, s, acts[0]);
      if acts[0].Preserve? && acts[0].agent in s.phases { assert PhaseOk(env, s, acts[0].agent, s.phases[acts[0].agent]); }
      NoMoreCopies(env, first, t, acts[1..]);
    }
  }

  /** An attempt that fails anywhere, or is over, leaves the store as it is and the lock free. */
  lemma AttemptEnds(env: Env, first: Raw, s: State, a: Lock.Agent)
    requires Inv(env, first, s) && a in s.phases
    ensures var thrown := Apply(env, s, Throw(a));
            var t := Apply(env, Apply(env, thrown, Leave(a)), Locking(Lock.Step(a)));
            && a !in t.phases && t.raw == s.raw && t.log == s.log && t.aside == s.aside
            && t.lock.files == s.lock.files - {Lock.Store(env.path)}
  {
    assert Lock.Inside(s.lock, env.path, a) && Lock.CallOk(s.lock, s.lock.agents[a]);
    var thrown := Apply(env, s, Throw(a));
    assert thrown.lock == s.lock && a in thrown.phases && Over(thrown.phases[a]);
    var left := Apply(env, thrown, Leave(a));
    assert Lock.StillHeld(s.lock, a);
    assert a !in left.phases;
  }

  // ---------------------------------------------------------------------------------------------
  // As many copies as attempts that died
  // ---------------------------------------------------------------------------------------------

  /** Nobody is at work, and the lock is free or was left by a dead process. */
  ghost predicate Resting(env: Env, s: State) {
    var lock, file := s.lock, Lock.Store(env.path);
    && lock.agents == map[] && s.phases == map[]
    && (file in lock.files ==> lock.files[file].Owned? && lock.files[file].owner.pid !in lock.alive)
    && (forall token :: Lock.Reaper(file, token) !in lock.files)
  }

  /** A new process `pid` can take the lock. */
  ghost predicate Fresh(env: Env, s: State, pid: Lock.Pid) {
    var file := Lock.Store(env.path);
    file in s.lock.files && s.lock.files[file].Owned? ==> s.lock.files[file].owner.pid != pid
  }

  lemma {:induction false} ExecOn(env: Env, s: State, a: seq<Action>, b: seq<Action>)
    ensures Exec(env, s, a + b) == Exec(env, Exec(env, s, a), b)
    decreases |a|
  {
    if a == [] {
      assert a + b == b;
    } else {
      ExecOn(env, Apply(env, s, a[0]), a[1..], b);
      assert (a + b)[1..] == a[1..] + b;
    }
  }

  lemma ExecOne(env: Env, s: State, act: Action)
    ensures Exec(env, s, [act]) == Apply(env, s, act)
  {
    assert Exec(env, Apply(env, s, act), [act][1..]) == Apply(env, s, act);
  }

  /** A lone call steps on. */
  lemma {:induction false} SoloRun(env: Env, s: State, a: Lock.Agent, n: nat) returns (acts: seq<Action>)
    requires s.phases == map[]
    ensures Exec(env, s, acts) == s.(lock := Lock.Solo(s.lock, a, n))
    decreases n
  {
    if n == 0 {
      acts := [];
    } else {
      var act := Locking(Lock.Step(a));
      var t := Apply(env, s, act);
      assert t == s.(lock := Lock.Apply(s.lock, Lock.Step(a)));
      var rest := SoloRun(env, t, a, n - 1);
      ExecOn(env, s, [act], rest);
      ExecOne(env, s, act);
      acts := [act] + rest;
    }
  }

  /** A call's own steps change neither who is there nor who is alive. */
  lemma {:induction false} SoloStays(s: Lock.State, a: Lock.Agent, n: nat)
    requires a in s.agents
    ensures var t := Lock.Solo(s, a, n);
            && t.agents.Keys == s.agents.Keys && t.alive == s.alive
            && t.agents[a].pid == s.agents[a].pid && t.agents[a].file == s.agents[a].file
    decreases n
  {
    if n > 0 {
      StepStays(s, a);
      SoloStays(Lock.Apply(s, Lock.Step(a)), a, n - 1);
    }
  }

  lemma StepStays(s: Lock.State, a: Lock.Agent)
    requires a in s.agents
    ensures var t := Lock.Apply(s, Lock.Step(a));
            && t.agents.Keys == s.agents.Keys && t.alive == s.alive
            && t.agents[a].pid == s.agents[a].pid && t.agents[a].file == s.agents[a].file
  {
  }

  /** A new process takes the lock, over a dead one if need be. */
  lemma TakesLock(env: Env, s: State, a: Lock.Agent, pid: Lock.Pid) returns (acts: seq<Action>, t: State)
    requires Resting(env, s) && Fresh(env, s, pid)
    ensures t == Exec(env, s, acts) && t == s.(lock := t.lock)
    ensures t.lock.agents.Keys == {a} && t.lock.agents[a].pid == pid && Lock.Inside(t.lock, env.path, a) && Lock.StillHeld(t.lock, a)
    ensures forall token :: Lock.Reaper(Lock.Store(env.path), token) !in t.lock.files
  {
    var file := Lock.Store(env.path);
    var spawn := Locking(Lock.Spawn(a, pid, env.path));
    var one := Apply(env, s, spawn);
    assert one == s.(lock := Lock.Apply(s.lock, Lock.Spawn(a, pid, env.path)));
    var k := if file in s.lock.files then 1 else 0;
    OneDead(one.lock, file, k);
    var steps := Lock.SoloAcquires(one.lock, a, k);
    SoloStays(one.lock, a, steps);
    var rest := SoloRun(env, one, a, steps);
    t := one.(lock := Lock.Solo(one.lock, a, steps));
    ExecOne(env, s, spawn);
    ExecOn(env, s, [spawn], rest);
    acts := [spawn] + rest;
  }

  lemma OneDead(lock: Lock.State, file: Lock.Name, k: nat)
    requires k == if file in lock.files then 1 else 0
    requires file in lock.files ==> lock.files[file].Owned? && lock.files[file].owner.pid !in lock.alive
    requires forall token :: Lock.Reaper(file, token) !in lock.files
    ensures Lock.DeadChain(lock, file, k)
  {
    if k == 1 { assert Lock.DeadChain(lock, Lock.Reaper(file, lock.files[file].owner.token), k - 1); }
  }

  /** Under the lock a corrupt file is read, judged and copied. */
  lemma CopiesAside(env: Env, s: State, a: Lock.Agent, next: Fields) returns (acts: seq<Action>)
    requires s.phases == map[] && Lock.Inside(s.lock, env.path, a) && Lock.StillHeld(s.lock, a)
    requires s.raw.Corrupt? && env.mutator(a)(map[]) == Write(next)
    ensures Exec(env, s, acts) == s.(aside := s.aside + [s.raw], phases := map[a := Kept(s.raw, next)])
  {
    var s1 := Apply(env, s, ReadBaseline(a));
    var s2 := Apply(env, s1, ReadStore(a));
    var s3 := Apply(env, s2, Mutate(a));
    var s4 := Apply(env, s3, Preserve(a));
    assert s3 == s.(phases := map[a := Cleared(s.raw, next)]);
    assert s4 == s.(aside := s.aside + [s.raw], phases := map[a := Kept(s.raw, next)]);
    ExecOne(env, s, ReadBaseline(a));
    ExecOne(env, s1, ReadStore(a));
    ExecOne(env, s2, Mutate(a));
    ExecOne(env, s3, Preserve(a));
    ExecOn(env, s, [ReadBaseline(a)], [ReadStore(a)]);
    ExecOn(env, s, [ReadBaseline(a)] + [ReadStore(a)], [Mutate(a)]);
    ExecOn(env, s, [ReadBaseline(a)] + [ReadStore(a)] + [Mutate(a)], [Preserve(a)]);
    acts := [ReadBaseline(a)] + [ReadStore(a)] + [Mutate(a)] + [Preserve(a)];
  }

  /** What one attempt does to the store: nothing, or its mutator on what the store held, a corrupt file copied aside first. */
  function Attempted(env: Env, s: State, a: Lock.Agent): State {
    match env.mutator(a)(ReadObject(s.raw))
    case Skip => s.(phases := map[a := Skipped])
    case Write(next) =>
      State(s.lock, Object(next), if s.raw.Corrupt? then s.aside + [s.raw] else s.aside, map[a := Committed(next)], s.log + [a])
  }

  lemma Prepend(env: Env, s: State, act: Action, next: State, rest: seq<Action>, t: State) returns (acts: seq<Action>)
    requires next == Apply(env, s, act) && t == Exec(env, next, rest)
    ensures t == Exec(env, s, acts)
  {
    ExecOne(env, s, act);
    ExecOn(env, s, [act], rest);
    acts := [act] + rest;
  }

  lemma ReplacesFile(env: Env, s: State, a: Lock.Agent, next: Fields) returns (acts: seq<Action>)
    requires s.phases == map[] && Lock.Inside(s.lock, env.path, a) && Lock.StillHeld(s.lock, a)
    requires env.mutator(a)(ReadObject(s.raw)) == Write(next)
    ensures Exec(env, s, acts) == Attempted(env, s, a)
  {
    if s.raw.Corrupt? {
      acts := CopiesAside(env, s, a, next);
    } else {
      var s1 := Apply(env, s, ReadBaseline(a));
      var s2 := Apply(env, s1, ReadStore(a));
      var s3 := Apply(env, s2, Mutate(a));
      assert s3 == s.(phases := map[a := Cleared(s.raw, next)]);
      acts := Prepend(env, s2, Mutate(a), s3, [], s3);
      acts := Prepend(env, s1, ReadStore(a), s2, acts, s3);
      acts := Prepend(env, s, ReadBaseline(a), s1, acts, s3);
    }
    var ready := Exec(env, s, acts);
    ExecOn(env, s, acts, [Replace(a)]);
    ExecOne(env, ready, Replace(a));
    acts := acts + [Replace(a)];
  }

  lemma SkipsFile(env: Env, s: State, a: Lock.Agent) returns (acts: seq<Action>)
    requires s.phases == map[] && Lock.Inside(s.lock, env.path, a)
    requires env.mutator(a)(ReadObject(s.raw)) == Skip
    ensures Exec(env, s, acts) == Attempted(env, s, a)
  {
    var s1 := Apply(env, s, ReadBaseline(a));
    var s2 := Apply(env, s1, ReadStore(a));
    var s3 := Apply(env, s2, Mutate(a));
    assert s3 == s.(phases := map[a := Skipped]);
    acts := Prepend(env, s2, Mutate(a), s3, [], s3);
    acts := Prepend(env, s1, ReadStore(a), s2, acts, s3);
    acts := Prepend(env, s, ReadBaseline(a), s1, acts, s3);
  }

  /** An attempt that is over releases the lock and leaves no file of it. */
  lemma Leaves(env: Env, s: State, a: Lock.Agent) returns (acts: seq<Action>)
    requires s.phases.Keys == {a} && Over(s.phases[a]) && Lock.Inside(s.lock, env.path, a) && Lock.StillHeld(s.lock, a)
    ensures var t := Exec(env, s, acts);
            && t == s.(lock := t.lock, phases := map[]) && t.lock.files == s.lock.files - {Lock.Store(env.path)}
            && t.lock.alive == s.lock.alive && t.lock.agents == s.lock.agents[a := s.lock.agents[a].(run := Lock.Finished)]
  {
    var s1 := Apply(env, s, Leave(a));
    assert s1.phases == map[];
    var s2 := Apply(env, s1, Locking(Lock.Step(a)));
    assert s2 == s1.(lock := Lock.Apply(s1.lock, Lock.Step(a)));
    acts := Prepend(env, s1, Locking(Lock.Step(a)), s2, [], s2);
    acts := Prepend(env, s, Leave(a), s1, acts, s2);
  }

  /** Nobody else at work, a new process comes through `mutateFile`: the store is what its mutator makes of it, or as it was when the
      mutator declines, and the lock is free again. */
  lemma AttemptCompletes(env: Env, s: State, a: Lock.Agent, pid: Lock.Pid) returns (acts: seq<Action>)
    requires Resting(env, s) && Fresh(env, s, pid)
    ensures var t := Exec(env, s, acts);
            && t.phases == map[] && Lock.Store(env.path) !in t.lock.files
            && match env.mutator(a)(ReadObject(s.raw))
               case Skip => t.raw == s.raw && t.log == s.log && t.aside == s.aside
               case Write(next) =>
                 t.raw == Object(next) && t.log == s.log + [a] && t.aside == if s.raw.Corrupt? then s.aside + [s.raw] else s.aside
  {
    var taking, inside := TakesLock(env, s, a, pid);
    var working: seq<Action>;
    match env.mutator(a)(ReadObject(s.raw)) {
      case Skip => working := SkipsFile(env, inside, a);
      case Write(next) => working := ReplacesFile(env, inside, a, next);
    }
    var done := Attempted(env, inside, a);
    var leaving := Leaves(env, done, a);
    ExecOn(env, s, taking, working);
    ExecOn(env, s, taking + working, leaving);
    acts := taking + working + leaving;
  }

  /** A process dies between the copy and the write: the corrupt file is still there. */
  lemma CopiesAndDies(env: Env, s: State, a: Lock.Agent, pid: Lock.Pid, next: Fields) returns (acts: seq<Action>, t: State)
    requires Resting(env, s) && Fresh(env, s, pid) && s.raw.Corrupt? && env.mutator(a)(map[]) == Write(next)
    ensures t == Exec(env, s, acts) && t.raw == s.raw && t.log == s.log && t.aside == s.aside + [s.raw]
    ensures Resting(env, t) && forall other | other != pid :: Fresh(env, t, other)
  {
    var taking, inside := TakesLock(env, s, a, pid);
    var copying := CopiesAside(env, inside, a, next);
    var copied := Exec(env, inside, copying);
    var crash := Locking(Lock.Crash(pid));
    t := Apply(env, copied, crash);
    ExecOne(env, copied, crash);
    ExecOn(env, s, taking, copying);
    ExecOn(env, s, taking + copying, [crash]);
    acts := taking + copying + [crash];
  }

  /** Any number of attempts on a corrupt file may copy it and die before they write: as many copies, and nothing committed. */
  lemma {:induction false} DeadAttemptsCopy(env: Env, s: State, a: Lock.Agent, next: Fields, n: nat) returns (acts: seq<Action>, t: State)
    requires Resting(env, s) && Fresh(env, s, n) && s.raw.Corrupt? && env.mutator(a)(map[]) == Write(next)
    ensures t == Exec(env, s, acts) && t.raw == s.raw && t.log == s.log
    ensures |t.aside| == |s.aside| + n && Resting(env, t) && Fresh(env, t, 0)
    decreases n
  {
    if n == 0 {
      acts, t := [], s;
    } else {
      var first, one := CopiesAndDies(env, s, a, n, next);
      var rest;
      rest, t := DeadAttemptsCopy(env, one, a, next, n - 1);
      ExecOn(env, s, first, rest);
      acts := first + rest;
    }
  }

  /** So the copies are not one: before the first commit there may be any number of them, and after it any number but none. */
  lemma AnyNumberOfCopies(env: Env, s: State, a: Lock.Agent, next: Fields, n: nat) returns (acts: seq<Action>, last: seq<Action>)
    requires Init(s) && Resting(env, s) && Fresh(env, s, n) && s.raw.Corrupt? && env.mutator(a)(map[]) == Write(next)
    ensures var t := Exec(env, s, acts); t.log == [] && |t.aside| == n
    ensures var u := Exec(env, s, acts + last); u.log == [a] && |u.aside| == n + 1 && u.raw == Object(next)
  {
    var t;
    acts, t := DeadAttemptsCopy(env, s, a, next, n);
    var taking, inside := TakesLock(env, t, a, 0);
    var copying := CopiesAside(env, inside, a, next);
    ExecOn(env, t, taking, copying);
    ExecOn(env, t, taking + copying, [Replace(a)]);
    ExecOne(env, Exec(env, inside, copying), Replace(a));
    last := taking + copying + [Replace(a)];
    ExecOn(env, s, acts, last);
  }

  // ---------------------------------------------------------------------------------------------
  // The device identity (shared/lib/device-identity.js)
  // ---------------------------------------------------------------------------------------------

  /** The value of `key`, when it is one JavaScript takes for true. */
  function Field(fields: Fields, key: string): (v: string) {
    if key in fields then fields[key] else ""
  }

  /** The mutator of `ensureIdentityField`, with the value `create` would make. */
  function Ensure(key: string, created: string): Mutator {
    (fields: Fields) => Write(if Field(fields, key) == "" then fields[key := created] else fields)
  }

  /** Every writer of the shared store keeps a field that is set, as `Ensure` does. */
  ghost predicate Honest(env: Env, key: string) {
    forall a, fields: Fields | Field(fields, key) != "" ::
      env.mutator(a)(fields).Write? ==> Field(env.mutator(a)(fields).fields, key) == Field(fields, key)
  }

  /** In a store that only `ensureIdentityField` writes, for whatever keys, every key is safe. */
  lemma EnsureIsHonest(path: string, keys: Lock.Agent -> string, created: Lock.Agent -> string, key: string)
    ensures Honest(Env(path, a => Ensure(keys(a), created(a))), key)
  {
    var env := Env(path, a => Ensure(keys(a), created(a)));
    forall a, fields: Fields | Field(fields, key) != ""
      ensures env.mutator(a)(fields).Write? && Field(env.mutator(a)(fields).fields, key) == Field(fields, key)
    {
      assert env.mutator(a) == Ensure(keys(a), created(a));
    }
  }

  lemma {:induction false} FieldStays(env: Env, first: Raw, s: State, acts: seq<Action>, key: string)
    requires Inv(env, first, s) && Honest(env, key) && Field(ReadObject(s.raw), key) != ""
    ensures Field(ReadObject(Exec(env, s, acts).raw), key) == Field(ReadObject(s.raw), key)
    decreases |acts|
  {
    if acts != [] {
      var t := Apply(env, s, acts[0]);
      ApplyKeepsInv(env, first, s, acts[0]);
      if t.raw != s.raw {
        var a := acts[0].agent;
        assert env.mutator(a)(ReadObject(s.raw)) == Write(s.phases[a].next);
      }
      FieldStays(env, first, t, acts[1..], key);
    }
  }

  /** A call of `ensureIdentityField` can return `v` in state `s`: it read the field without the lock
      (before trying, or after the store stayed busy), or its own attempt has just committed. */
  ghost predicate CanReturn(env: Env, s: State, key: string, v: string) {
    && v != ""
    && (|| Field(ReadObject(s.raw), key) == v
        || exists a, created :: a in s.phases && s.phases[a].Committed? && env.mutator(a) == Ensure(key, created)
                                && Field(s.phases[a].written, key) == v)
  }

  /** Every two values returned for a key, however far apart in the run, are equal. */
  lemma IdentityAgreement(env: Env, s: State, acts: seq<Action>, more: seq<Action>, key: string, v: string, w: string)
    requires Init(s) && Honest(env, key)
    requires CanReturn(env, Exec(env, s, acts), key, v)
    requires CanReturn(env, Exec(env, Exec(env, s, acts), more), key, w)
    ensures v == w
  {
    var t := Exec(env, s, acts);
    ExecKeepsInv(env, s.raw, s, acts);
    ReturnedIsStored(env, s.raw, t, key, v);
    FieldStays(env, s.raw, t, more, key);
    ExecKeepsInv(env, s.raw, t, more);
    ReturnedIsStored(env, s.raw, Exec(env, t, more), key, w);
  }

  /** Whatever can be returned is what the store holds. */
  lemma ReturnedIsStored(env: Env, raw: Raw, t: State, key: string, v: string)
    requires Inv(env, raw, t) && Honest(env, key) && CanReturn(env, t, key, v)
    ensures Field(ReadObject(t.raw), key) == v
  {
    assert forall a | a in t.phases :: PhaseOk(env, t, a, t.phases[a]);
  }

  /** An attempt of `ensureIdentityField` that has committed leaves the field set. */
  lemma EnsureSets(env: Env, s: State, acts: seq<Action>, a: Lock.Agent, key: string, created: string)
    requires Init(s) && created != "" && env.mutator(a) == Ensure(key, created)
    requires var t := Exec(env, s, acts); a in t.phases && MayReplace(t.phases[a])
    ensures var t := Exec(env, s, acts);
            var u := Apply(env, t, Replace(a));
            && u.phases[a].Committed?
            && Field(ReadObject(u.raw), key)
                 == (if Field(ReadObject(t.raw), key) == "" then created else Field(ReadObject(t.raw), key))
            && forall k | k != key ::
                 && (k in ReadObject(u.raw) <==> k in ReadObject(t.raw))
                 && (k in ReadObject(t.raw) ==> ReadObject(u.raw)[k] == ReadObject(t.raw)[k])
  {
    ExecKeepsInv(env, s.raw, s, acts);
    var t := Exec(env, s, acts);
    assert PhaseOk(env, t, a, t.phases[a]);
  }
}
