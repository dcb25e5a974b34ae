/** Transcript records and where each may be sent: `turnNumbers` and `turnDestinations` of
    clients/claude-code/skillmeter/scripts/lib/transcript-delta.js. */
module TurnRouting {
  import opened Options

  /** One parsed transcript line. `uuid` and `cwd` are "" when the line carries none; `promptId` is None when
      it is not a string. `body` stands for the rest of the line. */
  datatype Record = Record(uuid: string, user: bool, promptId: Option<string>, toolResult: bool, cwd: string, body: nat)

  predicate HasPrompt(r: Record) {
    r.promptId.Some? && r.promptId.value != ""
  }

  predicate StartsTurn(r: Record, promptId: Option<string>) {
    if HasPrompt(r) then r.promptId != promptId else !r.toolResult
  }

  /** The turn count and the prompt id of the last turn started, after all of `objs`. */
  function TurnsStarted(objs: seq<Record>): (state: (nat, Option<string>))
    decreases |objs|
  {
    if objs == [] then (0, None)
    else
      var before := TurnsStarted(objs[..|objs| - 1]);
      var r := objs[|objs| - 1];
      if r.user && StartsTurn(r, before.1) then (before.0 + 1, r.promptId) else before
  }

  function TurnOf(objs: seq<Record>, i: nat): nat
    requires i < |objs|
  {
    TurnsStarted(objs[..i + 1]).0
  }

  /** The turn number of every record. */
  function TurnsOf(objs: seq<Record>): (turns: seq<nat>)
    ensures |turns| == |objs| && forall i | 0 <= i < |objs| :: turns[i] == TurnOf(objs, i)
  {
    seq(|objs|, i requires 0 <= i < |objs| => TurnOf(objs, i))
  }

  method TurnNumbers(objs: seq<Record>) returns (turns: seq<nat>)
    ensures turns == TurnsOf(objs)
  {
    var numbers := new nat[|objs|];
    var turn, promptId := 0, None;
    for i := 0 to |objs|
      invariant (turn, promptId) == TurnsStarted(objs[..i])
      invariant forall k | 0 <= k < i :: numbers[k] == TurnOf(objs, k)
    {
      var record := objs[i];
      assert objs[..i + 1][..i] == objs[..i];
      if record.user && StartsTurn(record, promptId) {
        turn := turn + 1;
        promptId := record.promptId;
      }
      numbers[i] := turn;
    }
    turns := numbers[..];
  }

  /** Turn numbers never decrease and grow by one at most from a record to the next. */
  lemma {:induction false} TurnsNeverDecrease(objs: seq<Record>, i: nat, j: nat)
    requires i <= j < |objs|
    ensures TurnOf(objs, i) <= TurnOf(objs, j) <= TurnOf(objs, i) + (j - i)
    decreases j - i
  {
    if i < j {
      TurnsNeverDecrease(objs, i, j - 1);
      assert objs[..j + 1][..j] == objs[..j];
    }
  }

  /** A user record that repeats the prompt id of the turn it is in, or answers a tool, starts no turn. */
  lemma SamePromptSameTurn(objs: seq<Record>, i: nat)
    requires 0 < i < |objs| && objs[i].user
    requires HasPrompt(objs[i]) ==> TurnsStarted(objs[..i]).1 == objs[i].promptId
    requires !HasPrompt(objs[i]) ==> objs[i].toolResult
    ensures TurnOf(objs, i) == TurnOf(objs, i - 1)
  {
    assert objs[..i + 1][..i] == objs[..i];
  }

  // ---- The rule, on the numbers alone ----

  /** Record `i` has a higher number than the one before it, or than 0. */
  predicate Rises(turns: seq<nat>, i: nat)
    requires i < |turns|
  {
    turns[i] > if i == 0 then 0 else turns[i - 1]
  }

  /** Of the records before `i`, `j` is the last that raised the number. */
  ghost predicate RoseLast(turns: seq<nat>, i: nat, j: nat)
    requires i <= |turns|
  {
    j < i && Rises(turns, j) && forall m: nat | j < m < i :: !Rises(turns, m)
  }

  lemma RisesStarts(objs: seq<Record>, turns: seq<nat>, i: nat)
    requires i < |objs| && turns == TurnsOf(objs)
    ensures Rises(turns, i) <==> objs[i].user && StartsTurn(objs[i], TurnsStarted(objs[..i]).1)
    ensures TurnsStarted(objs[..i + 1]).1 == if Rises(turns, i) then objs[i].promptId else TurnsStarted(objs[..i]).1
  {
    assert objs[..i + 1][..i] == objs[..i];
    if i == 0 { assert objs[..i] == []; } else { assert TurnOf(objs, i - 1) == TurnsStarted(objs[..i]).0; }
  }

  /** The prompt id that counts before record `i` is that of the last record that raised the number. */
  ghost predicate PromptFrom(objs: seq<Record>, turns: seq<nat>, i: nat, promptId: Option<string>)
    requires i <= |objs| == |turns|
  {
    || ((forall j: nat | j < i :: !Rises(turns, j)) && promptId == None)
    || exists j: nat :: RoseLast(turns, i, j) && promptId == objs[j].promptId
  }

  lemma {:induction false} PromptOfLast(objs: seq<Record>, turns: seq<nat>, i: nat)
    requires i <= |objs| && turns == TurnsOf(objs)
    ensures PromptFrom(objs, turns, i, TurnsStarted(objs[..i]).1)
    decreases i
  {
    if i > 0 {
      PromptOfLast(objs, turns, i - 1);
      RisesStarts(objs, turns, i - 1);
      PromptStays(objs, turns, i - 1, TurnsStarted(objs[..i - 1]).1);
    }
  }

  lemma PromptStays(objs: seq<Record>, turns: seq<nat>, i: nat, promptId: Option<string>)
    requires i < |objs| == |turns| && PromptFrom(objs, turns, i, promptId)
    ensures PromptFrom(objs, turns, i + 1, if Rises(turns, i) then objs[i].promptId else promptId)
  {
    if Rises(turns, i) {
      assert RoseLast(turns, i + 1, i);
    } else if j: nat :| RoseLast(turns, i, j) && promptId == objs[j].promptId {
      assert RoseLast(turns, i + 1, j);
    }
  }

  /** A record raises the number exactly when it is a user record that carries a prompt id other than that of the last record
      that raised it, or carries none and answers no tool. */
  lemma TurnRises(objs: seq<Record>, i: nat)
    requires i < |objs|
    ensures Rises(TurnsOf(objs), i) <==>
              && objs[i].user
              && if objs[i].promptId.Some? && objs[i].promptId.value != ""
                 then !exists j: nat :: RoseLast(TurnsOf(objs), i, j) && objs[j].promptId == objs[i].promptId
                 else !objs[i].toolResult
  {
    var turns := TurnsOf(objs);
    RisesStarts(objs, turns, i);
    PromptOfLast(objs, turns, i);
    OnePrompt(objs, turns, i, TurnsStarted(objs[..i]).1, objs[i].promptId);
  }

  lemma OnePrompt(objs: seq<Record>, turns: seq<nat>, i: nat, last: Option<string>, promptId: Option<string>)
    requires i <= |objs| == |turns| && PromptFrom(objs, turns, i, last)
    ensures promptId.Some? ==> (last == promptId <==> exists j: nat :: RoseLast(turns, i, j) && objs[j].promptId == promptId)
  {
    forall j: nat, m: nat | RoseLast(turns, i, j) && RoseLast(turns, i, m) ensures j == m { OnlyLast(turns, i, j, m); }
  }

  lemma OnlyLast(turns: seq<nat>, i: nat, j: nat, m: nat)
    requires i <= |turns| && RoseLast(turns, i, j) && RoseLast(turns, i, m)
    ensures j == m
  {
  }

  /** A number above 0 is reached exactly when some record so far is a user record with a prompt id or without a tool's answer. */
  lemma {:induction false} AnyTurnStarted(objs: seq<Record>)
    ensures TurnsStarted(objs).0 > 0 <==> exists j :: 0 <= j < |objs| && Opens(objs[j])
    decreases |objs|
  {
    if objs != [] {
      var n := |objs| - 1;
      AnyTurnStarted(objs[..n]);
      if TurnsStarted(objs[..n]).0 == 0 { NoPromptYet(objs[..n]); }
      if j :| 0 <= j < n && Opens(objs[..n][j]) { assert Opens(objs[j]); }
      if j :| 0 <= j < |objs| && Opens(objs[j]) && j < n { assert Opens(objs[..n][j]); }
    }
  }

  predicate Opens(r: Record) {
    r.user && ((r.promptId.Some? && r.promptId.value != "") || !r.toolResult)
  }

  lemma {:induction false} NoPromptYet(objs: seq<Record>)
    requires TurnsStarted(objs).0 == 0
    ensures TurnsStarted(objs).1 == None
    decreases |objs|
  {
    if objs != [] { NoPromptYet(objs[..|objs| - 1]); }
  }

  // ---------------------------------------------------------------------------------------------
  // Destinations
  // ---------------------------------------------------------------------------------------------

  /** `placeOf(cwd)`: a directory that is gone, one outside any repository, or one inside. */
  datatype Place = Gone | Outside | In(key: string, recording: bool)

  /** Left to the repository that stages it, sent nowhere, or sent for one repository. */
  datatype Destination = Unclaimed | Nowhere | Repository(key: string)

  /** Record `k` is one of the first `n` and belongs to turn `t`. */
  predicate InTurn(turns: seq<nat>, t: nat, k: int, n: nat) {
    0 <= k < n <= |turns| && turns[k] == t
  }

  predicate InsideRepository(objs: seq<Record>, placeOf: string -> Place, k: nat)
    requires k < |objs|
  {
    objs[k].cwd != "" && placeOf(objs[k].cwd).In?
  }

  /** The record shows that its turn was written where it was not recorded. */
  predicate NotRecording(objs: seq<Record>, placeOf: string -> Place, k: nat)
    requires k < |objs|
  {
    objs[k].cwd != "" && var p := placeOf(objs[k].cwd); p.Gone? || (p.In? && !p.recording)
  }

  ghost predicate NamesDirectory(objs: seq<Record>, turns: seq<nat>, t: nat, n: nat)
    requires |turns| == |objs|
  {
    exists k :: InTurn(turns, t, k, n) && objs[k].cwd != ""
  }

  ghost predicate AlwaysRecording(objs: seq<Record>, placeOf: string -> Place, turns: seq<nat>, t: nat, n: nat)
    requires |turns| == |objs|
  {
    forall k :: InTurn(turns, t, k, n) ==> !NotRecording(objs, placeOf, k)
  }

  /** Among the first `n` records, `k` is the last of turn `t` written inside a repository. */
  ghost predicate EndedAt(objs: seq<Record>, placeOf: string -> Place, turns: seq<nat>, t: nat, n: nat, k: int)
    requires |turns| == |objs|
  {
    && InTurn(turns, t, k, n) && InsideRepository(objs, placeOf, k)
    && forall j :: InTurn(turns, t, j, n) && j > k ==> !InsideRepository(objs, placeOf, j)
  }

  /** Among the first `n` records, `k` is the first of turn `t` with a prompt id. */
  ghost predicate PromptAt(objs: seq<Record>, turns: seq<nat>, t: nat, n: nat, k: int)
    requires |turns| == |objs|
  {
    && InTurn(turns, t, k, n) && HasPrompt(objs[k])
    && forall j :: InTurn(turns, t, j, n) && j < k ==> !HasPrompt(objs[j])
  }

  /** The turn's first prompt id was marked as not recorded. */
  ghost predicate Marked(objs: seq<Record>, turns: seq<nat>, unrecorded: string -> bool, t: nat)
    requires |turns| == |objs|
  {
    exists k :: PromptAt(objs, turns, t, |objs|, k) && unrecorded(objs[k].promptId.value)
  }

  /** The rule, stated over the whole turn: it goes to repository R exactly when the last of its records
      written inside a repository was written in R, none was written where nothing is recorded or in a
      directory that is gone, and its first prompt id is unmarked. */
  ghost predicate GoesTo(objs: seq<Record>, placeOf: string -> Place, unrecorded: string -> bool, turns: seq<nat>, t: nat, key: string)
    requires |turns| == |objs|
  {
    && !Marked(objs, turns, unrecorded, t)
    && AlwaysRecording(objs, placeOf, turns, t, |objs|)
    && exists k :: EndedAt(objs, placeOf, turns, t, |objs|, k) && placeOf(objs[k].cwd).key == key
  }

  datatype Seen = Seen(key: Option<string>, recording: bool)

  ghost predicate SeenOk(objs: seq<Record>, placeOf: string -> Place, turns: seq<nat>, n: nat, seen: map<nat, Seen>, t: nat)
    requires |turns| == |objs|
  {
    && (t in seen <==> NamesDirectory(objs, turns, t, n))
    && (t in seen ==>
          && (seen[t].recording <==> AlwaysRecording(objs, placeOf, turns, t, n))
          && (seen[t].key.None? ==> forall k :: InTurn(turns, t, k, n) ==> !InsideRepository(objs, placeOf, k))
          && (seen[t].key.Some? ==>
                exists k :: EndedAt(objs, placeOf, turns, t, n, k) && placeOf(objs[k].cwd).key == seen[t].key.value))
  }

  ghost predicate PromptOk(objs: seq<Record>, turns: seq<nat>, n: nat, prompts: map<nat, string>, t: nat)
    requires |turns| == |objs|
  {
    && (t in prompts ==> exists k :: PromptAt(objs, turns, t, n, k) && objs[k].promptId.value == prompts[t])
    && (t !in prompts ==> forall k :: InTurn(turns, t, k, n) ==> !HasPrompt(objs[k]))
  }

  lemma SeenStep(objs: seq<Record>, placeOf: string -> Place, turns: seq<nat>, n: nat, seen: map<nat, Seen>, next: map<nat, Seen>, t: nat)
    requires |turns| == |objs| && n < |objs| && SeenOk(objs, placeOf, turns, n, seen, t)
    requires objs[n].cwd == "" ==> next == seen
    requires objs[n].cwd != "" ==>
               var was := if turns[n] in seen then seen[turns[n]] else Seen(None, true);
               next == seen[turns[n] := match placeOf(objs[n].cwd)
                                        case Gone => was.(recording := false)
                                        case Outside => was
                                        case In(key, recording) => Seen(Some(key), was.recording && recording)]
    ensures SeenOk(objs, placeOf, turns, n + 1, next, t)
  {
    forall k ensures InTurn(turns, t, k, n + 1) <==> InTurn(turns, t, k, n) || (k == n && turns[n] == t) {}
    if turns[n] != t || objs[n].cwd == "" {
      assert t in next <==> t in seen;
      if t in seen && seen[t].key.Some? {
        var k :| EndedAt(objs, placeOf, turns, t, n, k) && placeOf(objs[k].cwd).key == seen[t].key.value;
        assert EndedAt(objs, placeOf, turns, t, n + 1, k);
      }
    } else {
      assert InTurn(turns, t, n, n + 1);
      if placeOf(objs[n].cwd).In? {
        assert EndedAt(objs, placeOf, turns, t, n + 1, n);
      } else if t in seen && seen[t].key.Some? {
        var k :| EndedAt(objs, placeOf, turns, t, n, k) && placeOf(objs[k].cwd).key == seen[t].key.value;
        assert EndedAt(objs, placeOf, turns, t, n + 1, k);
      }
    }
  }

  lemma PromptStep(objs: seq<Record>, turns: seq<nat>, n: nat, prompts: map<nat, string>, next: map<nat, string>, t: nat)
    requires |turns| == |objs| && n < |objs| && PromptOk(objs, turns, n, prompts, t)
    requires next == if HasPrompt(objs[n]) && turns[n] !in prompts then prompts[turns[n] := objs[n].promptId.value] else prompts
    ensures PromptOk(objs, turns, n + 1, next, t)
  {
    forall k ensures InTurn(turns, t, k, n + 1) <==> InTurn(turns, t, k, n) || (k == n && turns[n] == t) {}
    if t in prompts {
      var k :| PromptAt(objs, turns, t, n, k) && objs[k].promptId.value == prompts[t];
      assert PromptAt(objs, turns, t, n + 1, k);
    } else if t in next {
      assert PromptAt(objs, turns, t, n + 1, n);
    }
  }

  /** `turnDestinations`, its maps filled record by record. */
  method TurnDestinations(objs: seq<Record>, placeOf: string -> Place, unrecorded: string -> bool)
    returns (destinations: seq<Destination>)
    ensures |destinations| == |objs|
    ensures forall i, j | 0 <= i < j < |objs| && TurnOf(objs, i) == TurnOf(objs, j) :: destinations[i] == destinations[j]
    ensures forall i, key | 0 <= i < |objs| ::
              destinations[i] == Repository(key) <==> GoesTo(objs, placeOf, unrecorded, TurnsOf(objs), TurnOf(objs, i), key)
    ensures forall i | 0 <= i < |objs| ::
              destinations[i] == Unclaimed <==>
                !Marked(objs, TurnsOf(objs), unrecorded, TurnOf(objs, i)) && !NamesDirectory(objs, TurnsOf(objs), TurnOf(objs, i), |objs|)
  {
    var numbers := TurnNumbers(objs);
    var seen: map<nat, Seen> := map[];
    var prompts: map<nat, string> := map[];
    for i := 0 to |objs|
      invariant forall t :: SeenOk(objs, placeOf, numbers, i, seen, t)
      invariant forall t :: PromptOk(objs, numbers, i, prompts, t)
    {
      ghost var seen0, prompts0, next := seen, prompts, i + 1;
      if HasPrompt(objs[i]) && numbers[i] !in prompts {
        prompts := prompts[numbers[i] := objs[i].promptId.value];
      }
      forall t ensures PromptOk(objs, numbers, next, prompts, t) {
        PromptStep(objs, numbers, i, prompts0, prompts, t);
      }
      var cwd := objs[i].cwd;
      if cwd != "" {
        var place := placeOf(cwd);
        var turn := if numbers[i] in seen then seen[numbers[i]] else Seen(None, true);
        if place.Gone? {
          turn := turn.(recording := false);
        } else if place.In? {
          turn := Seen(Some(place.key), turn.recording && place.recording);
        }
        seen := seen[numbers[i] := turn];
      }
      forall t ensures SeenOk(objs, placeOf, numbers, next, seen, t) {
        SeenStep(objs, placeOf, numbers, i, seen0, seen, t);
      }
    }
    destinations := [];
    for i := 0 to |objs|
      invariant |destinations| == i
      invariant forall k | 0 <= k < i :: destinations[k] == Decide(seen, prompts, unrecorded, numbers[k])
    {
      destinations := destinations + [Decide(seen, prompts, unrecorded, numbers[i])];
    }
    forall i, key | 0 <= i < |objs|
      ensures destinations[i] == Repository(key) <==> GoesTo(objs, placeOf, unrecorded, numbers, numbers[i], key)
    {
      DecidesByRule(objs, placeOf, unrecorded, numbers, seen, prompts, numbers[i], key);
    }
    forall i | 0 <= i < |objs|
      ensures destinations[i] == Unclaimed <==>
                !Marked(objs, numbers, unrecorded, numbers[i]) && !NamesDirectory(objs, numbers, numbers[i], |objs|)
    {
      DecidesByRule(objs, placeOf, unrecorded, numbers, seen, prompts, numbers[i], "");
    }
  }

  function Decide(seen: map<nat, Seen>, prompts: map<nat, string>, unrecorded: string -> bool, t: nat): Destination {
    if t in prompts && unrecorded(prompts[t]) then Nowhere
    else if t !in seen then Unclaimed
    else if seen[t].recording && seen[t].key.Some? then Repository(seen[t].key.value)
    else Nowhere
  }

  lemma DecidesByRule(objs: seq<Record>, placeOf: string -> Place, unrecorded: string -> bool, turns: seq<nat>,
                      seen: map<nat, Seen>, prompts: map<nat, string>, t: nat, key: string)
    requires |turns| == |objs|
    requires SeenOk(objs, placeOf, turns, |objs|, seen, t) && PromptOk(objs, turns, |objs|, prompts, t)
    ensures Decide(seen, prompts, unrecorded, t) == Repository(key) <==> GoesTo(objs, placeOf, unrecorded, turns, t, key)
    ensures Decide(seen, prompts, unrecorded, t) == Unclaimed <==>
              !Marked(objs, turns, unrecorded, t) && !NamesDirectory(objs, turns, t, |objs|)
  {
    var n := |objs|;
    assert Marked(objs, turns, unrecorded, t) <==> t in prompts && unrecorded(prompts[t]) by {
      if t in prompts {
        var k :| PromptAt(objs, turns, t, n, k) && objs[k].promptId.value == prompts[t];
        forall j | PromptAt(objs, turns, t, n, j) ensures j == k {}
      }
    }
    if t in seen && seen[t].key.Some? {
      var k :| EndedAt(objs, placeOf, turns, t, n, k) && placeOf(objs[k].cwd).key == seen[t].key.value;
      forall j | EndedAt(objs, placeOf, turns, t, n, j) ensures j == k {}
    }
    if exists k :: EndedAt(objs, placeOf, turns, t, n, k) {
      var k :| EndedAt(objs, placeOf, turns, t, n, k);
      assert NamesDirectory(objs, turns, t, n);
    }
  }
}
