/** Uploading queued chunks: `eligibleChunksInOrder`, `settleWithLimit`, `uploadInTranscriptOrder` and
    `retryUnauthorizedOnce` of clients/claude-code/skillmeter/scripts/lib/transfer.js, with
    `isChunkEligible` of chunk-retry.js. */
module Drain {
  import opened Options

  const DRAIN_CONCURRENCY: nat := 4

  // ---------------------------------------------------------------------------------------------
  // Grouping by transcript
  // ---------------------------------------------------------------------------------------------

  /** The positions at which `key` occurs, ascending. */
  function IndicesOf<K(==)>(keys: seq<K>, key: K): (indices: seq<nat>)
    decreases |keys|
  {
    if keys == [] then []
    else
      var n := |keys| - 1;
      IndicesOf(keys[..n], key) + (if keys[n] == key then [n] else [])
  }

  lemma {:induction false} IndicesAscend<K>(keys: seq<K>, key: K)
    ensures forall j | 0 <= j < |IndicesOf(keys, key)| :: IndicesOf(keys, key)[j] < |keys| && keys[IndicesOf(keys, key)[j]] == key
    ensures forall i, j | 0 <= i < j < |IndicesOf(keys, key)| :: IndicesOf(keys, key)[i] < IndicesOf(keys, key)[j]
    ensures forall k | 0 <= k < |keys| && keys[k] == key :: k in IndicesOf(keys, key)
    decreases |keys|
  {
    if keys != [] {
      var n := |keys| - 1;
      IndicesAscend(keys[..n], key);
      var before, all := IndicesOf(keys[..n], key), IndicesOf(keys, key);
      assert forall j | 0 <= j < |before| :: all[j] == before[j];
      assert forall k | 0 <= k < n :: keys[..n][k] == keys[k];
      forall k | 0 <= k < |keys| && keys[k] == key ensures k in all {
        if k == n { assert all[|all| - 1] == n; } else { assert keys[..n][k] == key; assert k in before; }
      }
    }
  }

  /** A `Map` from key to indices, filled in one pass; `order` is its insertion order. */
  method GroupIndices<K(==)>(keys: seq<K>) returns (order: seq<K>, groups: map<K, seq<nat>>)
    ensures forall k :: k in order <==> k in keys
    ensures forall i, j | 0 <= i < j < |order| :: order[i] != order[j]
    ensures groups.Keys == (set k | k in order)
    ensures forall k | k in groups :: groups[k] == IndicesOf(keys, k)
  {
    order, groups := [], map[];
    for i := 0 to |keys|
      invariant forall k :: k in order <==> k in keys[..i]
      invariant forall a, b | 0 <= a < b < |order| :: order[a] != order[b]
      invariant groups.Keys == (set k | k in order)
      invariant forall k :: k in groups ==> groups[k] == IndicesOf(keys[..i], k)
      invariant forall k :: k !in groups ==> IndicesOf(keys[..i], k) == []
    {
      var key := keys[i];
      assert keys[..i + 1][..i] == keys[..i] && keys[..i + 1] == keys[..i] + [key];
      if key !in groups {
        order := order + [key];
        groups := groups[key := []];
      }
      groups := groups[key := groups[key] + [i]];
    }
    assert keys[..|keys|] == keys;
  }

  // ---------------------------------------------------------------------------------------------
  // Which chunks may be tried now
  // ---------------------------------------------------------------------------------------------

  /** A queued chunk: its transcript, its file name as its rank in the locale order, its number, its backoff. */
  datatype Entry = Entry(key: string, file: int, seqNumber: Option<int>, nextAttemptAt: Option<int>)

  function SeqOf(e: Entry): int {
    match e.seqNumber case Some(n) => n case None => 0
  }

  predicate IsChunkEligible(e: Entry, now: int) {
    e.nextAttemptAt.Some? ==> now >= e.nextAttemptAt.value
  }

  /** The comparator of the sort: by number, then by file. */
  predicate AtMost(a: Entry, b: Entry) {
    SeqOf(a) < SeqOf(b) || (SeqOf(a) == SeqOf(b) && a.file <= b.file)
  }

  predicate Precedes(a: Entry, b: Entry) {
    AtMost(a, b) && a.file != b.file
  }

  predicate InOrder(entries: seq<Entry>) {
    forall i, j | 0 <= i < j < |entries| :: Precedes(entries[i], entries[j])
  }

  predicate FilesDiffer(entries: seq<Entry>) {
    forall i, j | 0 <= i < j < |entries| :: entries[i].file != entries[j].file
  }

  function Insert(e: Entry, rest: seq<Entry>): (sorted: seq<Entry>) {
    if rest == [] then [e]
    else if AtMost(e, rest[0]) then [e] + rest
    else [rest[0]] + Insert(e, rest[1..])
  }

  function Sort(entries: seq<Entry>): (sorted: seq<Entry>) {
    if entries == [] then [] else Insert(entries[0], Sort(entries[1..]))
  }

  lemma {:induction false} InsertInOrder(e: Entry, rest: seq<Entry>)
    requires InOrder(rest) && forall i | 0 <= i < |rest| :: rest[i].file != e.file
    ensures InOrder(Insert(e, rest)) && |Insert(e, rest)| == |rest| + 1
    ensures forall x :: x in Insert(e, rest) <==> x == e || x in rest
  {
    if rest != [] {
      assert forall x :: x in rest <==> x == rest[0] || x in rest[1..];
      if !AtMost(e, rest[0]) {
        InsertInOrder(e, rest[1..]);
        var tail := Insert(e, rest[1..]);
        forall j | 0 <= j < |tail| ensures Precedes(rest[0], tail[j]) {
          assert tail[j] in tail;
        }
      } else {
        forall j | 0 <= j < |rest| ensures Precedes(e, rest[j]) {
          assert j == 0 || Precedes(rest[0], rest[j]);
        }
      }
    }
  }

  /** Sorting chunks of different files puts exactly them in strict order. */
  lemma {:induction false} SortInOrder(entries: seq<Entry>)
    requires FilesDiffer(entries)
    ensures InOrder(Sort(entries)) && |Sort(entries)| == |entries|
    ensures forall x :: x in Sort(entries) <==> x in entries
  {
    if entries != [] {
      var rest := entries[1..];
      SortInOrder(rest);
      assert forall x :: x in entries <==> x == entries[0] || x in rest;
      forall i | 0 <= i < |Sort(rest)| ensures Sort(rest)[i].file != entries[0].file {
        assert Sort(rest)[i] in rest;
      }
      InsertInOrder(entries[0], Sort(rest));
    }
  }

  function KeysOf(entries: seq<Entry>): (keys: seq<string>)
    ensures |keys| == |entries| && forall i | 0 <= i < |keys| :: keys[i] == entries[i].key
  {
    seq(|entries|, i requires 0 <= i < |entries| => entries[i].key)
  }

  function Select(entries: seq<Entry>, indices: seq<nat>): (chosen: seq<Entry>)
    requires forall j | 0 <= j < |indices| :: indices[j] < |entries|
    ensures |chosen| == |indices| && forall j | 0 <= j < |chosen| :: chosen[j] == entries[indices[j]]
  {
    seq(|indices|, j requires 0 <= j < |indices| => entries[indices[j]])
  }

  /** A chunk is due when neither it nor a chunk of its transcript before it, by number and then by file, still waits for its
      next attempt. */
  ghost predicate Due(entries: seq<Entry>, e: Entry, now: int) {
    e in entries && forall d | d in entries && d.key == e.key && !LaterInQueue(d, e) ::
                      !(d.nextAttemptAt.Some? && now < d.nextAttemptAt.value)
  }

  /** Chunks are numbered, one without a number counting as 0; files break ties. */
  predicate LaterInQueue(d: Entry, e: Entry) {
    var m, n := if d.seqNumber.Some? then d.seqNumber.value else 0, if e.seqNumber.Some? then e.seqNumber.value else 0;
    m > n || (m == n && d.file > e.file)
  }

  /** The chunks of one transcript, sorted. */
  lemma SortedOfKey(entries: seq<Entry>, key: string)
    requires FilesDiffer(entries)
    ensures forall j | 0 <= j < |IndicesOf(KeysOf(entries), key)| :: IndicesOf(KeysOf(entries), key)[j] < |entries|
    ensures GroupOf(entries, key, Sort(Select(entries, IndicesOf(KeysOf(entries), key))))
  {
    var keys := KeysOf(entries);
    IndicesAscend(keys, key);
    var chosen := Select(entries, IndicesOf(keys, key));
    SortInOrder(chosen);
    forall e | e in entries && e.key == key ensures e in chosen { InChosen(entries, IndicesOf(keys, key), chosen, e); }
  }

  lemma InChosen(entries: seq<Entry>, indices: seq<nat>, chosen: seq<Entry>, e: Entry)
    requires e in entries && forall i | 0 <= i < |entries| && entries[i].key == e.key :: i in indices
    requires |chosen| == |indices| && forall j | 0 <= j < |indices| :: indices[j] < |entries| && chosen[j] == entries[indices[j]]
    ensures e in chosen
  {
    var i :| 0 <= i < |entries| && entries[i] == e;
    var j :| 0 <= j < |indices| && indices[j] == i;
    assert chosen[j] == e;
  }

  ghost predicate GroupOf(entries: seq<Entry>, key: string, group: seq<Entry>) {
    InOrder(group) && forall e :: e in group <==> e in entries && e.key == key
  }

  predicate FirstWaiting(group: seq<Entry>, now: int, n: nat) {
    n <= |group| && (n < |group| ==> !IsChunkEligible(group[n], now)) && forall i | 0 <= i < n :: IsChunkEligible(group[i], now)
  }

  /** The part of a sorted group before its first chunk still waiting is exactly its due chunks. */
  lemma PrefixIsDue(entries: seq<Entry>, key: string, group: seq<Entry>, n: nat, now: int)
    requires GroupOf(entries, key, group) && FirstWaiting(group, now, n)
    ensures forall e: Entry :: e in group[..n] <==> e.key == key && Due(entries, e, now)
  {
    forall e | e in group[..n] ensures e.key == key && Due(entries, e, now) {
      var i :| 0 <= i < n && group[i] == e;
      assert e in group;
      forall d | d in entries && d.key == e.key && AtMost(d, e) ensures IsChunkEligible(d, now) {
        assert d in group;
        var j :| 0 <= j < |group| && group[j] == d;
        assert i < j ==> Precedes(e, d);
      }
    }
    assert n < |group| ==> group[n] in group;
    assert forall i | n < i < |group| :: Precedes(group[n], group[i]);
    forall e: Entry | e.key == key && Due(entries, e, now) ensures e in group[..n] {
      assert e in group;
      var i :| 0 <= i < |group| && group[i] == e;
    }
  }

  ghost predicate DueIn(entries: seq<Entry>, keys: seq<string>, now: int, eligible: seq<Entry>) {
    forall e: Entry :: e in eligible <==> e.key in keys && Due(entries, e, now)
  }

  predicate InQueueOrder(eligible: seq<Entry>) {
    forall i, j | 0 <= i < j < |eligible| && eligible[i].key == eligible[j].key :: LaterInQueue(eligible[j], eligible[i])
  }

  /** The inner loop: the chunks of a sorted group up to the first one still waiting. */
  method UpToFirstWaiting(group: seq<Entry>, now: int) returns (n: nat)
    ensures FirstWaiting(group, now, n)
  {
    n := 0;
    while n < |group| && IsChunkEligible(group[n], now)
      invariant n <= |group|
      invariant forall i | 0 <= i < n :: IsChunkEligible(group[i], now)
    {
      n := n + 1;
    }
  }

  lemma NextGroup(entries: seq<Entry>, keys: seq<string>, key: string, now: int, before: seq<Entry>, group: seq<Entry>, n: nat)
    requires DueIn(entries, keys, now, before) && InQueueOrder(before) && key !in keys
    requires GroupOf(entries, key, group) && FirstWaiting(group, now, n)
    ensures DueIn(entries, keys + [key], now, before + group[..n]) && InQueueOrder(before + group[..n])
  {
    PrefixIsDue(entries, key, group, n, now);
    var after := before + group[..n];
    forall i, j | 0 <= i < j < |after| && after[i].key == after[j].key ensures LaterInQueue(after[j], after[i]) {
      assert j >= |before| ==> after[j] in group[..n];
    }
  }

  /** `eligibleChunksInOrder`: exactly the due chunks, each transcript's in the order of its queue. */
  method EligibleChunksInOrder(entries: seq<Entry>, now: int) returns (eligible: seq<Entry>)
    requires FilesDiffer(entries)
    ensures forall e: Entry :: e in eligible <==> Due(entries, e, now)
    ensures InQueueOrder(eligible)
  {
    var order, groups := GroupIndices(KeysOf(entries));
    eligible := [];
    for g := 0 to |order|
      invariant DueIn(entries, order[..g], now, eligible) && InQueueOrder(eligible)
    {
      var key := order[g];
      SortedOfKey(entries, key);
      var group := Sort(Select(entries, groups[key]));
      var n := UpToFirstWaiting(group, now);
      NextGroup(entries, order[..g], key, now, eligible, group, n);
      eligible := eligible + group[..n];
      assert order[..g + 1] == order[..g] + [key];
    }
    assert order[..|order|] == order;
    DueKeys(entries, order, now);
  }

  lemma DueKeys(entries: seq<Entry>, order: seq<string>, now: int)
    requires forall k :: k in order <==> k in KeysOf(entries)
    ensures forall e: Entry | Due(entries, e, now) :: e.key in order
  {
    forall e: Entry | Due(entries, e, now) ensures e.key in order {
      var i :| 0 <= i < |entries| && entries[i] == e;
      assert KeysOf(entries)[i] == e.key;
    }
  }

  // ---------------------------------------------------------------------------------------------
  // The upload machine
  // ---------------------------------------------------------------------------------------------

  /** A file's result: acknowledged, refused with 401, not accepted, thrown, or held back by an earlier one. */
  datatype Result = Ok | Unauthorized | NotAccepted | Thrown | Held

  /** An upload of the file at position `pos` of a group. */
  datatype Upload = Upload(group: nat, pos: nat)

  datatype Worker =
    | Choosing
    | InGroup(group: nat, pos: nat, held: bool)
    | Sending(upload: Upload)
    | Finished

  /** `progress` counts the files of each group that have their result; `sent` are the uploads begun, in
      order; `answers` is what the collector said of each file. */
  datatype State = State(next: nat, workers: seq<Worker>, results: seq<Option<Result>>, sent: seq<Upload>,
                         answers: map<nat, Result>, progress: seq<nat>)

  /** A worker takes its next step, or its upload is answered. */
  datatype Action = Turn(worker: nat) | Answer(worker: nat, result: Result)

  function Start(groups: seq<seq<nat>>, files: nat): State {
    State(0, seq(if |groups| < DRAIN_CONCURRENCY then |groups| else DRAIN_CONCURRENCY, _ => Choosing),
          seq(files, _ => None), [], map[], seq(|groups|, _ => 0))
  }

  /** What the steps read and write exists. */
  ghost predicate InBounds(groups: seq<seq<nat>>, s: State) {
    && |s.progress| == |groups| && s.next <= |groups|
    && (forall g, j | 0 <= g < |groups| && 0 <= j < |groups[g]| :: groups[g][j] < |s.results|)
    && (forall w | 0 <= w < |s.workers| :: WorkerInBounds(groups, s.workers[w]))
  }

  predicate WorkerInBounds(groups: seq<seq<nat>>, w: Worker) {
    match w
    case InGroup(g, p, _) => g < |groups| && p <= |groups[g]|
    case Sending(u) => u.group < |groups| && u.pos < |groups[u.group]|
    case _ => true
  }

  /** The file at `groups[g][p]` gets its result, and the worker goes to the next file of the group. */
  function Settle(groups: seq<seq<nat>>, s: State, w: nat, g: nat, p: nat, result: Result): State
    requires InBounds(groups, s) && w < |s.workers| && g < |groups| && p < |groups[g]|
  {
    s.(workers := s.workers[w := InGroup(g, p + 1, result != Ok)],
       results := s.results[groups[g][p] := Some(result)],
       progress := s.progress[g := p + 1])
  }

  function Apply(groups: seq<seq<nat>>, s: State, act: Action): State
    requires InBounds(groups, s)
  {
    if act.worker >= |s.workers| then s
    else
      var w := act.worker;
      match (act, s.workers[w])
      case (Turn(_), Choosing) =>
        if s.next < |groups| then s.(workers := s.workers[w := InGroup(s.next, 0, false)], next := s.next + 1)
        else s.(workers := s.workers[w := Finished])
      case (Turn(_), InGroup(g, p, held)) =>
        if p == |groups[g]| then s.(workers := s.workers[w := Choosing])
        else if held then Settle(groups, s, w, g, p, Held)
        else s.(workers := s.workers[w := Sending(Upload(g, p))], sent := s.sent + [Upload(g, p)])
      case (Answer(_, result), Sending(Upload(g, p))) =>
        if result.Held? then s
        else Settle(groups, s, w, g, p, result).(answers := s.answers[groups[g][p] := result])
      case _ => s
  }

  // ---- Partition ----

  predicate At(groups: seq<seq<nat>>, g: int, j: int, f: nat) {
    0 <= g < |groups| && 0 <= j < |groups[g]| && groups[g][j] == f
  }

  ghost predicate Placed(groups: seq<seq<nat>>, f: nat) {
    exists g, j :: At(groups, g, j, f)
  }

  ghost predicate Ascends(group: seq<nat>, files: nat) {
    && (forall j | 0 <= j < |group| :: group[j] < files)
    && (forall i, j | 0 <= i < j < |group| :: group[i] < group[j])
  }

  ghost predicate Disjoint(a: seq<nat>, b: seq<nat>) {
    forall i, j | 0 <= i < |a| && 0 <= j < |b| :: a[i] != b[j]
  }

  /** The groups partition the files: indices ascend in a group, no file is in two, every file is in one. */
  ghost predicate Partition(groups: seq<seq<nat>>, files: nat) {
    && (forall g | 0 <= g < |groups| :: Ascends(groups[g], files))
    && (forall g, h | 0 <= g < h < |groups| :: Disjoint(groups[g], groups[h]))
    && (forall f | 0 <= f < files :: Placed(groups, f))
  }

  /** The groups of `uploadInTranscriptOrder`, in the insertion order of its map. */
  ghost predicate GroupsOf<K(!new)>(keys: seq<K>, order: seq<K>, groups: seq<seq<nat>>) {
    && (forall k :: k in order <==> k in keys)
    && (forall i, j | 0 <= i < j < |order| :: order[i] != order[j])
    && |groups| == |order|
    && (forall g | 0 <= g < |groups| :: groups[g] == IndicesOf(keys, order[g]))
  }

  /** They partition the files, and each holds the files of one transcript. */
  lemma GroupsPartition<K(!new)>(keys: seq<K>, order: seq<K>, groups: seq<seq<nat>>)
    requires GroupsOf(keys, order, groups)
    ensures Partition(groups, |keys|)
    ensures forall g, j | 0 <= g < |groups| && 0 <= j < |groups[g]| :: groups[g][j] < |keys| && keys[groups[g][j]] == order[g]
  {
    forall g | 0 <= g < |groups|
      ensures Ascends(groups[g], |keys|) && forall j | 0 <= j < |groups[g]| :: keys[groups[g][j]] == order[g]
    {
      IndicesAscend(keys, order[g]);
    }
    forall f | 0 <= f < |keys| ensures Placed(groups, f) {
      assert keys[f] in order;
      var g :| 0 <= g < |order| && order[g] == keys[f];
      IndicesAscend(keys, order[g]);
      var j :| 0 <= j < |groups[g]| && groups[g][j] == f;
      assert At(groups, g, j, f);
    }
  }

  // ---- Invariant ----

  /** The first `n` results of a group: acknowledged before position `k`, one that was not at `k`, then held back. */
  ghost predicate Shape(results: seq<Option<Result>>, group: seq<nat>, n: nat, k: nat) {
    && k <= n <= |group| && (forall j | 0 <= j < |group| :: group[j] < |results|)
    && (forall j | 0 <= j < k :: results[group[j]] == Some(Ok))
    && (k < n ==> results[group[k]].Some? && results[group[k]] != Some(Ok) && results[group[k]] != Some(Held))
    && (forall j | k < j < n :: results[group[j]] == Some(Held))
    && (forall j | n <= j < |group| :: results[group[j]].None?)
  }

  ghost predicate Shaped(results: seq<Option<Result>>, group: seq<nat>, n: nat) {
    exists k: nat :: Shape(results, group, n, k)
  }

  predicate Owns(w: Worker, g: nat) {
    match w
    case InGroup(h, _, _) => h == g
    case Sending(u) => u.group == g
    case _ => false
  }

  ghost predicate Owned(workers: seq<Worker>, g: nat) {
    exists w :: 0 <= w < |workers| && Owns(workers[w], g)
  }

  ghost predicate WorkerOk(groups: seq<seq<nat>>, s: State, w: Worker) {
    && InBoundsShape(groups, s)
    && match w
       case InGroup(g, p, held) =>
         && g < s.next && p == s.progress[g] <= |groups[g]|
         && (held ==> exists k: nat :: k < p && Shape(s.results, groups[g], p, k))
         && (!held ==> Shape(s.results, groups[g], p, p))
         && (forall i | 0 <= i < |s.sent| && s.sent[i].group == g :: s.sent[i].pos < p)
       case Sending(Upload(g, p)) =>
         && g < s.next && p == s.progress[g] < |groups[g]|
         && Shape(s.results, groups[g], p, p)
       case Choosing => true
       case Finished => s.next == |groups|
  }

  predicate InBoundsShape(groups: seq<seq<nat>>, s: State) {
    |s.progress| == |groups| && s.next <= |groups|
  }

  /** A file was sent after its transcript's earlier files were acknowledged, and either has its result or is being uploaded. */
  ghost predicate SentOk(groups: seq<seq<nat>>, s: State, u: Upload) {
    && |s.progress| == |groups| && u.group < s.next <= |groups| && u.pos < |groups[u.group]|
    && u.pos <= s.progress[u.group]
    && (u.pos == s.progress[u.group] ==> exists w :: 0 <= w < |s.workers| && s.workers[w] == Sending(u))
    && (forall i | 0 <= i < u.pos :: groups[u.group][i] < |s.results| && s.results[groups[u.group][i]] == Some(Ok))
  }

  /** A file's result is the collector's answer to it, or that it was held back. */
  ghost predicate AnswerOk(s: State, f: nat) {
    && f < |s.results|
    && (f in s.answers ==> s.results[f] == Some(s.answers[f]) && s.answers[f] != Held)
    && (s.results[f].Some? && s.results[f] != Some(Held) ==> f in s.answers)
  }

  ghost predicate Inv(groups: seq<seq<nat>>, files: nat, s: State) {
    && Partition(groups, files)
    && |s.results| == files && |s.progress| == |groups| && s.next <= |groups|
    && (|groups| > 0 ==> |s.workers| > 0) && |s.workers| <= DRAIN_CONCURRENCY
    && (forall g | 0 <= g < |groups| :: Shaped(s.results, groups[g], s.progress[g]))
    && (forall g | s.next <= g < |groups| :: s.progress[g] == 0)
    && WorkersOk(groups, s)
    && (forall w | 0 <= w < |s.workers| :: WorkerOk(groups, s, s.workers[w]))
    && (forall i | 0 <= i < |s.sent| :: SentOk(groups, s, s.sent[i]))
    && (forall i, j | 0 <= i < j < |s.sent| :: s.sent[i] != s.sent[j])
    && (forall f | 0 <= f < files :: AnswerOk(s, f))
    && (forall f | f in s.answers :: f < files)
  }

  /** No two workers have one group, and a group begun but not done has a worker. */
  ghost predicate WorkersOk(groups: seq<seq<nat>>, s: State)
    requires |s.progress| == |groups| && s.next <= |groups|
  {
    && (forall v, w | 0 <= v < w < |s.workers| :: Apart(s.workers[v], s.workers[w]))
    && (forall g | 0 <= g < s.next && s.progress[g] < |groups[g]| :: Owned(s.workers, g))
  }

  predicate Apart(v: Worker, w: Worker) {
    match v
    case InGroup(g, _, _) => !Owns(w, g)
    case Sending(u) => !Owns(w, u.group)
    case _ => true
  }

  lemma InvInBounds(groups: seq<seq<nat>>, files: nat, s: State)
    requires Inv(groups, files, s)
    ensures InBounds(groups, s)
  {
    forall w | 0 <= w < |s.workers| ensures WorkerInBounds(groups, s.workers[w]) {
      assert WorkerOk(groups, s, s.workers[w]);
    }
    forall g, j | 0 <= g < |groups| && 0 <= j < |groups[g]| ensures groups[g][j] < |s.results| {
      assert Ascends(groups[g], files);
    }
  }

  lemma StartInv(groups: seq<seq<nat>>, files: nat)
    requires Partition(groups, files)
    ensures Inv(groups, files, Start(groups, files))
  {
    var s := Start(groups, files);
    forall g | 0 <= g < |groups| ensures Shaped(s.results, groups[g], s.progress[g]) {
      assert Ascends(groups[g], files);
      assert Shape(s.results, groups[g], 0, 0);
    }
  }

  lemma ChooseWorker(groups: seq<seq<nat>>, files: nat, s: State, w: nat, v: nat)
    requires Inv(groups, files, s) && InBounds(groups, s) && w < |s.workers| && s.workers[w].Choosing? && v < |s.workers|
    ensures WorkerOk(groups, Apply(groups, s, Turn(w)), Apply(groups, s, Turn(w)).workers[v])
  {
    var t := Apply(groups, s, Turn(w));
    assert WorkerOk(groups, s, s.workers[v]);
    if v == w && s.next < |groups| {
      assert Shaped(s.results, groups[s.next], s.progress[s.next]);
      forall i | 0 <= i < |t.sent| ensures t.sent[i].group != s.next { assert SentOk(groups, s, s.sent[i]); }
    }
  }

  lemma ChooseApart(groups: seq<seq<nat>>, files: nat, s: State, w: nat)
    requires Inv(groups, files, s) && InBounds(groups, s) && w < |s.workers| && s.workers[w].Choosing?
    ensures WorkersOk(groups, Apply(groups, s, Turn(w)))
  {
    var t := Apply(groups, s, Turn(w));
    forall v, u | 0 <= v < u < |t.workers| ensures Apart(t.workers[v], t.workers[u]) {
      assert Apart(s.workers[v], s.workers[u]) && WorkerOk(groups, s, s.workers[v]) && WorkerOk(groups, s, s.workers[u]);
    }
    forall g | 0 <= g < t.next && t.progress[g] < |groups[g]| ensures Owned(t.workers, g) {
      if g == s.next { assert Owns(t.workers[w], g); } else { OwnedStays(s.workers, w, t.workers[w], g); }
    }
  }

  lemma ChooseInv(groups: seq<seq<nat>>, files: nat, s: State, w: nat)
    requires Inv(groups, files, s) && InBounds(groups, s) && w < |s.workers| && s.workers[w].Choosing?
    ensures Inv(groups, files, Apply(groups, s, Turn(w)))
  {
    var t := Apply(groups, s, Turn(w));
    forall v | 0 <= v < |t.workers| ensures WorkerOk(groups, t, t.workers[v]) { ChooseWorker(groups, files, s, w, v); }
    ChooseApart(groups, files, s, w);
    forall i | 0 <= i < |t.sent| ensures SentOk(groups, t, t.sent[i]) { SentStays(groups, s, t, w, s.sent[i]); }
    AnswersStay(s, t);
  }

  lemma AnswersStay(s: State, t: State)
    requires t.answers == s.answers && t.results == s.results && forall f | 0 <= f < |s.results| :: AnswerOk(s, f)
    ensures forall f | 0 <= f < |s.results| :: AnswerOk(t, f)
  {
    forall f | 0 <= f < |s.results| ensures AnswerOk(t, f) { assert AnswerOk(s, f); }
  }

  lemma OwnedStays(workers: seq<Worker>, w: nat, to: Worker, g: nat)
    requires w < |workers| && Owned(workers, g) && (Owns(workers[w], g) ==> Owns(to, g))
    ensures Owned(workers[w := to], g)
  {
    var v :| 0 <= v < |workers| && Owns(workers[v], g);
    assert Owns(workers[w := to][v], g);
  }

  /** A step that changes no result and no progress, of a worker that is not uploading, keeps what was sent. */
  lemma SentStays(groups: seq<seq<nat>>, s: State, t: State, w: nat, u: Upload)
    requires SentOk(groups, s, u) && w < |s.workers| && !s.workers[w].Sending?
    requires t.results == s.results && t.progress == s.progress && s.next <= t.next <= |groups|
    requires |t.workers| == |s.workers| && forall v | 0 <= v < |s.workers| && v != w :: t.workers[v] == s.workers[v]
    ensures SentOk(groups, t, u)
  {
    if u.pos == s.progress[u.group] {
      var v :| 0 <= v < |s.workers| && s.workers[v] == Sending(u);
      assert t.workers[v] == Sending(u);
    }
  }

  lemma LeaveInv(groups: seq<seq<nat>>, files: nat, s: State, w: nat)
    requires Inv(groups, files, s) && InBounds(groups, s) && w < |s.workers| && s.workers[w].InGroup?
    requires s.workers[w].pos == |groups[s.workers[w].group]|
    ensures Inv(groups, files, Apply(groups, s, Turn(w)))
  {
    var t := Apply(groups, s, Turn(w));
    assert WorkerOk(groups, s, s.workers[w]);
    forall v | 0 <= v < |t.workers| ensures WorkerOk(groups, t, t.workers[v]) {
      assert WorkerOk(groups, s, s.workers[v]);
    }
    forall i | 0 <= i < |t.sent| ensures SentOk(groups, t, t.sent[i]) { SentStays(groups, s, t, w, s.sent[i]); }
    forall v, u | 0 <= v < u < |t.workers| ensures Apart(t.workers[v], t.workers[u]) {
      assert Apart(s.workers[v], s.workers[u]);
    }
    forall g | 0 <= g < t.next && t.progress[g] < |groups[g]| ensures Owned(t.workers, g) {
      OwnedStays(s.workers, w, Choosing, g);
    }
    AnswersStay(s, t);
  }

  lemma SendWorker(groups: seq<seq<nat>>, files: nat, s: State, w: nat, v: nat)
    requires Inv(groups, files, s) && InBounds(groups, s) && w < |s.workers| && s.workers[w].InGroup? && v < |s.workers|
    requires s.workers[w].pos < |groups[s.workers[w].group]| && !s.workers[w].held
    ensures WorkerOk(groups, Apply(groups, s, Turn(w)), Apply(groups, s, Turn(w)).workers[v])
  {
    assert WorkerOk(groups, s, s.workers[w]) && WorkerOk(groups, s, s.workers[v]);
    if v != w { NoOtherOwner(groups, files, s, w, v, s.workers[w].group); }
  }

  lemma SendInv(groups: seq<seq<nat>>, files: nat, s: State, w: nat)
    requires Inv(groups, files, s) && InBounds(groups, s) && w < |s.workers| && s.workers[w].InGroup?
    requires s.workers[w].pos < |groups[s.workers[w].group]| && !s.workers[w].held
    ensures Inv(groups, files, Apply(groups, s, Turn(w)))
  {
    var t := Apply(groups, s, Turn(w));
    var g, p := s.workers[w].group, s.workers[w].pos;
    assert WorkerOk(groups, s, s.workers[w]);
    assert t.workers[w] == Sending(Upload(g, p));
    forall v | 0 <= v < |t.workers| ensures WorkerOk(groups, t, t.workers[v]) { SendWorker(groups, files, s, w, v); }
    forall i | 0 <= i < |t.sent| ensures SentOk(groups, t, t.sent[i]) {
      if i < |s.sent| { SentStays(groups, s, t, w, s.sent[i]); }
    }
    SameOwners(groups, s, t, w);
    AnswersStay(s, t);
  }

  /** A worker that keeps its group leaves the division of the groups as it was. */
  lemma SameOwners(groups: seq<seq<nat>>, s: State, t: State, w: nat)
    requires |s.progress| == |t.progress| == |groups| && s.next == t.next <= |groups| && WorkersOk(groups, s)
    requires forall g | 0 <= g < |groups| && t.progress[g] < |groups[g]| :: s.progress[g] < |groups[g]|
    requires w < |s.workers| && |t.workers| == |s.workers| && t.workers == s.workers[w := t.workers[w]]
    requires forall g: nat :: Owns(t.workers[w], g) <==> Owns(s.workers[w], g)
    ensures WorkersOk(groups, t)
  {
    forall v, u | 0 <= v < u < |t.workers| ensures Apart(t.workers[v], t.workers[u]) {
      assert Apart(s.workers[v], s.workers[u]);
      SameApart(s.workers[v], t.workers[v], s.workers[u], t.workers[u]);
    }
    forall h | 0 <= h < t.next && t.progress[h] < |groups[h]| ensures Owned(t.workers, h) {
      OwnedStays(s.workers, w, t.workers[w], h);
    }
  }

  lemma SameApart(v: Worker, v': Worker, w: Worker, w': Worker)
    requires Apart(v, w)
    requires forall g: nat :: Owns(v', g) <==> Owns(v, g)
    requires forall g: nat :: Owns(w', g) <==> Owns(w, g)
    ensures Apart(v', w')
  {
    match v'
    case InGroup(g, _, _) => assert Owns(v', g);
    case Sending(u) => assert Owns(v', u.group);
    case _ =>
  }

  /** The results a file of group `g` does not belong to keep their shape. */
  lemma ShapeElsewhere(groups: seq<seq<nat>>, files: nat, results: seq<Option<Result>>, g: nat, p: nat, r: Result, h: nat, n: nat, k: nat)
    requires Partition(groups, files) && |results| == files
    requires g < |groups| && p < |groups[g]| && groups[g][p] < files && h < |groups| && h != g
    requires Shape(results, groups[h], n, k)
    ensures Shape(results[groups[g][p] := Some(r)], groups[h], n, k)
  {
    assert g < h ==> Disjoint(groups[g], groups[h]);
    assert h < g ==> Disjoint(groups[h], groups[g]);
    assert forall j | 0 <= j < |groups[h]| :: groups[h][j] != groups[g][p];
  }

  /** The next result of a group: after an acknowledged part it is the upload's, after an unacknowledged file it is held. */
  lemma ShapeHere(results: seq<Option<Result>>, group: seq<nat>, p: nat, k: nat, r: Result, files: nat)
    requires Ascends(group, files) && |results| == files
    requires p < |group| && Shape(results, group, p, k)
    requires if k < p then r == Held else r != Held
    ensures Shape(results[group[p] := Some(r)], group, p + 1, if k == p && r == Ok then p + 1 else k)
  {
    assert forall j | 0 <= j < |group| && j != p :: group[j] != group[p];
  }

  /** Worker `w` may settle the next file of group `g` with `r`; `k` is where the group stopped, if it did. */
  ghost predicate MaySettle(groups: seq<seq<nat>>, files: nat, s: State, w: nat, g: nat, p: nat, k: nat, r: Result) {
    && Inv(groups, files, s) && InBounds(groups, s) && w < |s.workers|
    && g < |groups| && p < |groups[g]| && p == s.progress[g] && g < s.next && Owns(s.workers[w], g)
    && Shape(s.results, groups[g], p, k) && (if k < p then r == Held else r != Held)
    && (if s.workers[w].Sending? then s.workers[w] == Sending(Upload(g, p))
        else forall i | 0 <= i < |s.sent| && s.sent[i].group == g :: s.sent[i].pos < p)
  }

  function AfterSettling(groups: seq<seq<nat>>, s: State, w: nat, g: nat, p: nat, r: Result): State
    requires InBounds(groups, s) && w < |s.workers| && g < |groups| && p < |groups[g]|
  {
    var t := Settle(groups, s, w, g, p, r);
    if r == Held then t else t.(answers := s.answers[groups[g][p] := r])
  }

  lemma SettleShapes(groups: seq<seq<nat>>, files: nat, s: State, w: nat, g: nat, p: nat, k: nat, r: Result)
    requires MaySettle(groups, files, s, w, g, p, k, r)
    ensures forall h | 0 <= h < |groups| :: Shaped(AfterSettling(groups, s, w, g, p, r).results, groups[h], AfterSettling(groups, s, w, g, p, r).progress[h])
  {
    var t := AfterSettling(groups, s, w, g, p, r);
    forall h | 0 <= h < |groups| ensures Shaped(t.results, groups[h], t.progress[h]) {
      assert Ascends(groups[g], files);
      if h == g {
        ShapeHere(s.results, groups[g], p, k, r, files);
      } else {
        assert Shaped(s.results, groups[h], s.progress[h]);
        var m: nat :| Shape(s.results, groups[h], s.progress[h], m);
        ShapeElsewhere(groups, files, s.results, g, p, r, h, s.progress[h], m);
      }
    }
  }

  lemma NoOtherOwner(groups: seq<seq<nat>>, files: nat, s: State, w: nat, v: nat, g: nat)
    requires Inv(groups, files, s) && w < |s.workers| && v < |s.workers| && v != w && Owns(s.workers[w], g)
    ensures !Owns(s.workers[v], g)
  {
    assert v < w ==> Apart(s.workers[v], s.workers[w]);
    assert w < v ==> Apart(s.workers[w], s.workers[v]);
  }

  lemma SettleWorker(groups: seq<seq<nat>>, files: nat, s: State, w: nat, g: nat, p: nat, k: nat, r: Result, v: nat)
    requires MaySettle(groups, files, s, w, g, p, k, r) && v < |s.workers|
    ensures WorkerOk(groups, AfterSettling(groups, s, w, g, p, r), AfterSettling(groups, s, w, g, p, r).workers[v])
  {
    var t := AfterSettling(groups, s, w, g, p, r);
    assert Ascends(groups[g], files);
    if v == w {
      ShapeHere(s.results, groups[g], p, k, r, files);
      forall i | 0 <= i < |t.sent| && t.sent[i].group == g ensures t.sent[i].pos < p + 1 { assert SentOk(groups, s, s.sent[i]); }
    } else {
      assert WorkerOk(groups, s, s.workers[v]);
      NoOtherOwner(groups, files, s, w, v, g);
      match s.workers[v]
      case InGroup(h, q, held) =>
        if held {
          var m: nat :| m < q && Shape(s.results, groups[h], q, m);
          ShapeElsewhere(groups, files, s.results, g, p, r, h, q, m);
        } else {
          ShapeElsewhere(groups, files, s.results, g, p, r, h, q, q);
        }
      case Sending(Upload(h, q)) => ShapeElsewhere(groups, files, s.results, g, p, r, h, q, q);
      case _ =>
    }
  }

  /** What was acknowledged stays so. */
  lemma SettleKeepsOk(groups: seq<seq<nat>>, files: nat, s: State, w: nat, g: nat, p: nat, k: nat, r: Result, f: nat)
    requires MaySettle(groups, files, s, w, g, p, k, r) && f < files && s.results[f].Some?
    ensures AfterSettling(groups, s, w, g, p, r).results[f] == s.results[f] && f != groups[g][p]
  {
  }

  lemma SettleSent(groups: seq<seq<nat>>, files: nat, s: State, w: nat, g: nat, p: nat, k: nat, r: Result, u: Upload)
    requires MaySettle(groups, files, s, w, g, p, k, r) && u in s.sent
    ensures SentOk(groups, AfterSettling(groups, s, w, g, p, r), u)
  {
    var t := AfterSettling(groups, s, w, g, p, r);
    assert SentOk(groups, s, u);
    forall i | 0 <= i < u.pos ensures t.results[groups[u.group][i]] == Some(Ok) {
      SettleKeepsOk(groups, files, s, w, g, p, k, r, groups[u.group][i]);
    }
    if u.pos == t.progress[u.group] {
      assert u.group != g;
      var v :| 0 <= v < |s.workers| && s.workers[v] == Sending(u);
      assert v != w && t.workers[v] == Sending(u);
    }
  }

  lemma SettleInv(groups: seq<seq<nat>>, files: nat, s: State, w: nat, g: nat, p: nat, k: nat, r: Result)
    requires MaySettle(groups, files, s, w, g, p, k, r)
    ensures Inv(groups, files, AfterSettling(groups, s, w, g, p, r))
  {
    var t := AfterSettling(groups, s, w, g, p, r);
    SettleShapes(groups, files, s, w, g, p, k, r);
    forall v | 0 <= v < |t.workers| ensures WorkerOk(groups, t, t.workers[v]) { SettleWorker(groups, files, s, w, g, p, k, r, v); }
    forall i | 0 <= i < |t.sent| ensures SentOk(groups, t, t.sent[i]) { SettleSent(groups, files, s, w, g, p, k, r, s.sent[i]); }
    SameOwners(groups, s, t, w);
    assert Ascends(groups[g], files);
    forall e | 0 <= e < files ensures AnswerOk(t, e) {
      assert AnswerOk(s, e);
      if e == groups[g][p] { assert s.results[e].None?; }
    }
  }

  /** Every step keeps the invariant. */
  lemma StepInv(groups: seq<seq<nat>>, files: nat, s: State, act: Action)
    requires Inv(groups, files, s)
    ensures InBounds(groups, s) && Inv(groups, files, Apply(groups, s, act))
  {
    InvInBounds(groups, files, s);
    if act.worker < |s.workers| {
      var w := act.worker;
      assert WorkerOk(groups, s, s.workers[w]);
      match (act, s.workers[w])
      case (Turn(_), Choosing) => ChooseInv(groups, files, s, w);
      case (Turn(_), InGroup(g, p, held)) =>
        if p == |groups[g]| { LeaveInv(groups, files, s, w); }
        else if held {
          var k: nat :| k < p && Shape(s.results, groups[g], p, k);
          SettleInv(groups, files, s, w, g, p, k, Held);
        } else { SendInv(groups, files, s, w); }
      case (Answer(_, r), Sending(Upload(g, p))) =>
        if r != Held { SettleInv(groups, files, s, w, g, p, p, r); }
      case _ =>
    }
  }

  // ---- Runs ----

  ghost predicate Reachable(groups: seq<seq<nat>>, files: nat, run: seq<Action>, s: State)
    decreases |run|
  {
    if run == [] then s == Start(groups, files)
    else exists before: State :: Reachable(groups, files, run[..|run| - 1], before) && InBounds(groups, before) && Apply(groups, before, run[|run| - 1]) == s
  }

  lemma {:induction false} RunsKeepInv(groups: seq<seq<nat>>, files: nat, run: seq<Action>, s: State)
    requires Partition(groups, files) && Reachable(groups, files, run, s)
    ensures Inv(groups, files, s)
    decreases |run|
  {
    if run == [] {
      StartInv(groups, files);
    } else {
      var before: State :| Reachable(groups, files, run[..|run| - 1], before) && InBounds(groups, before) && Apply(groups, before, run[|run| - 1]) == s;
      RunsKeepInv(groups, files, run[..|run| - 1], before);
      StepInv(groups, files, before, run[|run| - 1]);
    }
  }

  /** The file an upload sends. */
  function FileOf(groups: seq<seq<nat>>, u: Upload): nat
    requires u.group < |groups| && u.pos < |groups[u.group]|
  {
    groups[u.group][u.pos]
  }

  /** A file and the earlier ones of its transcript sit in one group. */
  lemma SameGroup<K(!new)>(keys: seq<K>, order: seq<K>, groups: seq<seq<nat>>, e: nat, f: nat) returns (g: nat, i: nat, j: nat)
    requires GroupsOf(keys, order, groups) && e < f < |keys| && keys[e] == keys[f]
    ensures At(groups, g, i, e) && At(groups, g, j, f) && i < j
  {
    GroupsPartition(keys, order, groups);
    assert Placed(groups, e) && Placed(groups, f);
    var h: nat, a: nat :| At(groups, h, a, e);
    var c: nat, b: nat :| At(groups, c, b, f);
    assert keys[groups[h][a]] == order[h] && keys[groups[c][b]] == order[c];
    assert h == c;
    assert Ascends(groups[h], |keys|);
    g, i, j := h, a, b;
  }

  /** At every moment of every interleaving: an upload was begun at most once per file, and only after every
      earlier file of its transcript was acknowledged. */
  lemma UploadsInTurn<K(!new)>(keys: seq<K>, order: seq<K>, groups: seq<seq<nat>>, run: seq<Action>, s: State)
    requires GroupsOf(keys, order, groups) && Reachable(groups, |keys|, run, s)
    ensures |s.workers| <= DRAIN_CONCURRENCY && |s.results| == |keys|
    ensures forall i | 0 <= i < |s.sent| :: s.sent[i].group < |groups| && s.sent[i].pos < |groups[s.sent[i].group]|
    ensures forall i, j | 0 <= i < j < |s.sent| :: FileOf(groups, s.sent[i]) != FileOf(groups, s.sent[j])
    ensures forall i, e | 0 <= i < |s.sent| && 0 <= e < FileOf(groups, s.sent[i]) < |keys| && keys[e] == keys[FileOf(groups, s.sent[i])] ::
              s.results[e] == Some(Ok)
  {
    GroupsPartition(keys, order, groups);
    RunsKeepInv(groups, |keys|, run, s);
    forall i | 0 <= i < |s.sent| ensures s.sent[i].group < |groups| && s.sent[i].pos < |groups[s.sent[i].group]| {
      assert SentOk(groups, s, s.sent[i]);
    }
    forall i, j | 0 <= i < j < |s.sent| ensures FileOf(groups, s.sent[i]) != FileOf(groups, s.sent[j]) {
      var u, v := s.sent[i], s.sent[j];
      assert u != v;
      assert Ascends(groups[u.group], |keys|);
      assert u.group < v.group ==> Disjoint(groups[u.group], groups[v.group]);
      assert v.group < u.group ==> Disjoint(groups[v.group], groups[u.group]);
    }
    forall i, e | 0 <= i < |s.sent| && 0 <= e < FileOf(groups, s.sent[i]) < |keys| && keys[e] == keys[FileOf(groups, s.sent[i])]
      ensures s.results[e] == Some(Ok)
    {
      var u := s.sent[i];
      assert SentOk(groups, s, u);
      var f := FileOf(groups, u);
      var g, a, b := SameGroup(keys, order, groups, e, f);
      assert keys[groups[g][b]] == order[g] && keys[groups[u.group][u.pos]] == order[u.group];
      assert Ascends(groups[g], |keys|);
    }
  }

  // ---- The order of sending ----

  ghost predicate SentFile(groups: seq<seq<nat>>, sent: seq<Upload>, f: nat) {
    exists i :: 0 <= i < |sent| && sent[i].group < |groups| && sent[i].pos < |groups[sent[i].group]| && FileOf(groups, sent[i]) == f
  }

  /** A group's files are sent in order, and what is under way or answered was sent. */
  ghost predicate SentOrder(groups: seq<seq<nat>>, s: State) {
    && (forall i, j | 0 <= i < j < |s.sent| && s.sent[i].group == s.sent[j].group :: s.sent[i].pos < s.sent[j].pos)
    && (forall w | 0 <= w < |s.workers| && s.workers[w].Sending? :: s.workers[w].upload in s.sent)
    && (forall f | f in s.answers :: SentFile(groups, s.sent, f))
  }

  lemma StepSentOrder(groups: seq<seq<nat>>, files: nat, s: State, act: Action)
    requires Inv(groups, files, s) && InBounds(groups, s) && SentOrder(groups, s)
    ensures SentOrder(groups, Apply(groups, s, act))
  {
    if act.worker < |s.workers| {
      var w := act.worker;
      assert WorkerOk(groups, s, s.workers[w]);
      match (act, s.workers[w])
      case (Turn(_), InGroup(g, p, held)) =>
        if p < |groups[g]| && !held { SendOrder(groups, s, Apply(groups, s, act), w, Upload(g, p)); }
        else { NothingSent(groups, s, Apply(groups, s, act), w); }
      case (Answer(_, r), Sending(u)) =>
        if r != Held {
          SentAnswered(groups, s.sent, u);
          AnswerOrder(groups, s, Apply(groups, s, act), w, FileOf(groups, u), r);
        }
      case (Turn(_), Choosing) => NothingSent(groups, s, Apply(groups, s, act), w);
      case _ =>
    }
  }

  lemma SentAnswered(groups: seq<seq<nat>>, sent: seq<Upload>, u: Upload)
    requires u in sent && u.group < |groups| && u.pos < |groups[u.group]|
    ensures SentFile(groups, sent, FileOf(groups, u))
  {
    var i :| 0 <= i < |sent| && sent[i] == u;
  }

  lemma NothingSent(groups: seq<seq<nat>>, s: State, t: State, w: nat)
    requires SentOrder(groups, s) && t.sent == s.sent && t.answers == s.answers && w < |s.workers| == |t.workers|
    requires t.workers == s.workers[w := t.workers[w]] && !t.workers[w].Sending?
    ensures SentOrder(groups, t)
  {
  }

  lemma AnswerOrder(groups: seq<seq<nat>>, s: State, t: State, w: nat, f: nat, r: Result)
    requires SentOrder(groups, s) && t.sent == s.sent && t.answers == s.answers[f := r] && SentFile(groups, s.sent, f)
    requires w < |s.workers| == |t.workers| && t.workers == s.workers[w := t.workers[w]] && !t.workers[w].Sending?
    ensures SentOrder(groups, t)
  {
  }

  lemma SendOrder(groups: seq<seq<nat>>, s: State, t: State, w: nat, u: Upload)
    requires SentOrder(groups, s) && t.sent == s.sent + [u] && t.answers == s.answers && w < |s.workers| == |t.workers|
    requires t.workers == s.workers[w := Sending(u)]
    requires forall i | 0 <= i < |s.sent| && s.sent[i].group == u.group :: s.sent[i].pos < u.pos
    ensures SentOrder(groups, t)
  {
    MoreSent(groups, s.sent, t.sent);
    assert t.sent[|s.sent|] == u;
    forall v | 0 <= v < |t.workers| && t.workers[v].Sending? ensures t.workers[v].upload in t.sent {
      if v != w { assert s.workers[v].upload in s.sent; }
    }
  }

  lemma MoreSent(groups: seq<seq<nat>>, sent: seq<Upload>, more: seq<Upload>)
    requires sent <= more
    ensures forall f :: SentFile(groups, sent, f) ==> SentFile(groups, more, f)
  {
    forall f | SentFile(groups, sent, f) ensures SentFile(groups, more, f) {
      var i :| 0 <= i < |sent| && sent[i].group < |groups| && sent[i].pos < |groups[sent[i].group]| && FileOf(groups, sent[i]) == f;
      assert more[i] == sent[i];
    }
  }

  lemma {:induction false} RunsKeepSentOrder(groups: seq<seq<nat>>, files: nat, run: seq<Action>, s: State)
    requires Partition(groups, files) && Reachable(groups, files, run, s)
    ensures SentOrder(groups, s)
    decreases |run|
  {
    if run != [] {
      var before: State :| Reachable(groups, files, run[..|run| - 1], before) && InBounds(groups, before) && Apply(groups, before, run[|run| - 1]) == s;
      RunsKeepInv(groups, files, run[..|run| - 1], before);
      RunsKeepSentOrder(groups, files, run[..|run| - 1], before);
      StepSentOrder(groups, files, before, run[|run| - 1]);
    }
  }

  /** The files sent, in order. */
  function FilesSent(groups: seq<seq<nat>>, sent: seq<Upload>): (files: seq<nat>)
    requires forall i | 0 <= i < |sent| :: sent[i].group < |groups| && sent[i].pos < |groups[sent[i].group]|
    ensures |files| == |sent| && forall i | 0 <= i < |files| :: files[i] == FileOf(groups, sent[i])
  {
    seq(|sent|, i requires 0 <= i < |sent| => FileOf(groups, sent[i]))
  }

  /** Files of one transcript are sent in their order, and every file with an answer was sent. */
  ghost predicate InSendingOrder<K(!new)>(keys: seq<K>, sent: seq<nat>, answers: map<nat, Result>) {
    && (forall i | 0 <= i < |sent| :: sent[i] < |keys|)
    && (forall i, j | 0 <= i < j < |sent| && keys[sent[i]] == keys[sent[j]] :: sent[i] < sent[j])
    && (forall f | f in answers :: f in sent)
  }

  /** At every moment of every interleaving the files of one transcript were sent in their order, and every file with an answer
      was sent. */
  lemma SentInOrder<K(!new)>(keys: seq<K>, order: seq<K>, groups: seq<seq<nat>>, run: seq<Action>, s: State)
    requires GroupsOf(keys, order, groups) && Reachable(groups, |keys|, run, s)
    ensures forall i | 0 <= i < |s.sent| :: s.sent[i].group < |groups| && s.sent[i].pos < |groups[s.sent[i].group]|
    ensures InSendingOrder(keys, FilesSent(groups, s.sent), s.answers)
  {
    UploadsInTurn(keys, order, groups, run, s);
    GroupsPartition(keys, order, groups);
    RunsKeepSentOrder(groups, |keys|, run, s);
    var sent := FilesSent(groups, s.sent);
    forall i, j | 0 <= i < j < |sent| && keys[sent[i]] == keys[sent[j]] ensures sent[i] < sent[j] {
      var u, v := s.sent[i], s.sent[j];
      assert keys[groups[u.group][u.pos]] == order[u.group] && keys[groups[v.group][v.pos]] == order[v.group];
      assert u.group == v.group;
      assert Ascends(groups[u.group], |keys|);
    }
    forall f | f in s.answers ensures f in sent {
      assert SentFile(groups, s.sent, f);
      var i :| 0 <= i < |s.sent| && FileOf(groups, s.sent[i]) == f;
      assert sent[i] == f;
    }
  }

  /** A pass has come to its end when every worker has. */
  predicate Over(s: State) {
    forall w | 0 <= w < |s.workers| :: s.workers[w].Finished?
  }

  /** What a finished pass leaves: each file has the answer to its own upload, or was held back, which it is
      exactly when an earlier file of its transcript was not acknowledged. */
  ghost predicate PassResults<K(!new)>(keys: seq<K>, results: seq<Option<Result>>, answers: map<nat, Result>) {
    && |results| == |keys|
    && (forall f | 0 <= f < |keys| :: results[f].Some?)
    && (forall f | 0 <= f < |keys| :: if f in answers then results[f] == Some(answers[f]) && answers[f] != Held else results[f] == Some(Held))
    && (forall f | 0 <= f < |keys| :: results[f] == Some(Held) <==> Blocked(keys, results, f))
  }

  /** An earlier file of the transcript was not acknowledged. */
  ghost predicate Blocked<K(!new)>(keys: seq<K>, results: seq<Option<Result>>, f: nat)
    requires f < |keys| == |results|
  {
    exists e :: 0 <= e < f && keys[e] == keys[f] && results[e] != Some(Ok)
  }

  lemma FinishedPass<K(!new)>(keys: seq<K>, order: seq<K>, groups: seq<seq<nat>>, run: seq<Action>, s: State)
    requires GroupsOf(keys, order, groups) && Reachable(groups, |keys|, run, s) && Over(s)
    ensures PassResults(keys, s.results, s.answers)
  {
    GroupsPartition(keys, order, groups);
    RunsKeepInv(groups, |keys|, run, s);
    AllWorkDone(groups, |keys|, s);
    forall f | 0 <= f < |keys|
      ensures s.results[f].Some?
      ensures if f in s.answers then s.results[f] == Some(s.answers[f]) && s.answers[f] != Held else s.results[f] == Some(Held)
      ensures s.results[f] == Some(Held) <==> Blocked(keys, s.results, f)
    {
      assert Placed(groups, f) && AnswerOk(s, f);
      var g: nat, j: nat :| At(groups, g, j, f);
      assert Ascends(groups[g], |keys|);
      var k: nat :| Shape(s.results, groups[g], |groups[g]|, k);
      if j > k {
        var e := groups[g][k];
        assert 0 <= e < f && keys[e] == keys[f] && s.results[e] != Some(Ok);
      }
      forall e | 0 <= e < f && keys[e] == keys[f] && s.results[e] != Some(Ok) ensures j > k {
        var h, a, b := SameGroup(keys, order, groups, e, f);
        assert keys[groups[h][b]] == order[h] && keys[groups[g][j]] == order[g];
      }
    }
  }

  /** When every worker is done, so is every group. */
  lemma AllWorkDone(groups: seq<seq<nat>>, files: nat, s: State)
    requires Inv(groups, files, s) && Over(s)
    ensures forall g | 0 <= g < |groups| :: Shaped(s.results, groups[g], |groups[g]|)
  {
    forall g | 0 <= g < |groups| ensures Shaped(s.results, groups[g], |groups[g]|) {
      assert WorkerOk(groups, s, s.workers[0]) && s.workers[0].Finished?;
      assert g < s.next;
      assert Shaped(s.results, groups[g], s.progress[g]);
      assert !Owned(s.workers, g);
      var k: nat :| Shape(s.results, groups[g], s.progress[g], k);
      assert s.progress[g] == |groups[g]|;
      assert Shape(s.results, groups[g], |groups[g]|, k);
    }
  }

  // ---- A pass comes to its end ----

  function Rank(w: Worker): int {
    match w
    case Choosing => 0
    case InGroup(_, _, _) => -1
    case Sending(_) => 0
    case Finished => 1
  }

  function RankSum(workers: seq<Worker>): int {
    if workers == [] then 0 else RankSum(workers[..|workers| - 1]) + Rank(workers[|workers| - 1])
  }

  function Total(numbers: seq<nat>): nat {
    if numbers == [] then 0 else Total(numbers[..|numbers| - 1]) + numbers[|numbers| - 1]
  }

  /** How far a pass has come. */
  function Effort(s: State): int {
    2 * s.next + RankSum(s.workers) + 2 * Total(s.progress)
  }

  function Sizes(groups: seq<seq<nat>>): (sizes: seq<nat>)
    ensures |sizes| == |groups| && forall g | 0 <= g < |groups| :: sizes[g] == |groups[g]|
  {
    seq(|groups|, g requires 0 <= g < |groups| => |groups[g]|)
  }

  lemma {:induction false} RankReplaced(workers: seq<Worker>, w: nat, to: Worker)
    requires w < |workers|
    ensures RankSum(workers[w := to]) == RankSum(workers) - Rank(workers[w]) + Rank(to)
    decreases |workers|
  {
    var n := |workers| - 1;
    if w < n {
      assert workers[w := to][..n] == workers[..n][w := to];
      RankReplaced(workers[..n], w, to);
    } else {
      assert workers[w := to][..n] == workers[..n];
    }
  }

  lemma {:induction false} TotalReplaced(numbers: seq<nat>, g: nat, to: nat)
    requires g < |numbers|
    ensures Total(numbers[g := to]) == Total(numbers) - numbers[g] + to
    decreases |numbers|
  {
    var n := |numbers| - 1;
    if g < n {
      assert numbers[g := to][..n] == numbers[..n][g := to];
      TotalReplaced(numbers[..n], g, to);
    } else {
      assert numbers[g := to][..n] == numbers[..n];
    }
  }

  lemma {:induction false} TotalWithin(numbers: seq<nat>, most: seq<nat>)
    requires |numbers| == |most| && forall i | 0 <= i < |most| :: numbers[i] <= most[i]
    ensures Total(numbers) <= Total(most)
    decreases |numbers|
  {
    if numbers != [] { TotalWithin(numbers[..|numbers| - 1], most[..|most| - 1]); }
  }

  lemma {:induction false} RankWithin(workers: seq<Worker>)
    ensures RankSum(workers) <= |workers|
    decreases |workers|
  {
    if workers != [] { RankWithin(workers[..|workers| - 1]); }
  }

  lemma MoveBringsFurther(s: State, t: State, w: nat)
    requires w < |s.workers| == |t.workers| && t.workers == s.workers[w := t.workers[w]] && t.progress == s.progress
    requires 2 * t.next + Rank(t.workers[w]) > 2 * s.next + Rank(s.workers[w])
    ensures Effort(t) > Effort(s)
  {
    RankReplaced(s.workers, w, t.workers[w]);
  }

  lemma ResultBringsFurther(s: State, t: State, w: nat, g: nat)
    requires w < |s.workers| == |t.workers| && t.workers == s.workers[w := t.workers[w]] && t.next == s.next
    requires g < |s.progress| && t.progress == s.progress[g := s.progress[g] + 1]
    requires Rank(t.workers[w]) >= Rank(s.workers[w]) - 1
    ensures Effort(t) > Effort(s)
  {
    RankReplaced(s.workers, w, t.workers[w]);
    TotalReplaced(s.progress, g, s.progress[g] + 1);
  }

  /** Every step that changes anything brings the pass further. */
  lemma StepBringsFurther(groups: seq<seq<nat>>, s: State, act: Action)
    requires InBounds(groups, s) && Apply(groups, s, act) != s && act.worker < |s.workers|
    requires WorkerOk(groups, s, s.workers[act.worker])
    ensures Effort(Apply(groups, s, act)) > Effort(s)
  {
    var t, w := Apply(groups, s, act), act.worker;
    match (act, s.workers[w])
    case (Turn(_), InGroup(g, p, held)) => if p < |groups[g]| && held { ResultBringsFurther(s, t, w, g); } else { MoveBringsFurther(s, t, w); }
    case (Answer(_, _), Sending(u)) => ResultBringsFurther(s, t, w, u.group);
    case (Turn(_), Choosing) => MoveBringsFurther(s, t, w);
    case _ =>
  }

  lemma EffortBounded(groups: seq<seq<nat>>, files: nat, s: State)
    requires Inv(groups, files, s)
    ensures Effort(s) <= 2 * |groups| + DRAIN_CONCURRENCY + 2 * Total(Sizes(groups))
  {
    RankWithin(s.workers);
    forall g | 0 <= g < |groups| ensures s.progress[g] <= Sizes(groups)[g] { assert Shaped(s.results, groups[g], s.progress[g]); }
    TotalWithin(s.progress, Sizes(groups));
  }

  /** The next action of a worker that is not finished. */
  function NextOf(s: State, w: nat): Action
    requires w < |s.workers|
  {
    if s.workers[w].Sending? then Answer(w, Ok) else Turn(w)
  }

  lemma NextChanges(groups: seq<seq<nat>>, s: State, w: nat)
    requires InBounds(groups, s) && w < |s.workers| && !s.workers[w].Finished?
    ensures Apply(groups, s, NextOf(s, w)) != s
  {
    assert Apply(groups, s, NextOf(s, w)).workers[w] != s.workers[w];
  }

  /** It can come only so far, every step that changes anything brings it further, whatever the answers are, and as long as it
      is not over some step does: every pass ends. */
  lemma PassEnds<K(!new)>(keys: seq<K>, order: seq<K>, groups: seq<seq<nat>>, run: seq<Action>, s: State)
    requires GroupsOf(keys, order, groups) && Reachable(groups, |keys|, run, s)
    ensures Effort(s) <= 2 * |groups| + DRAIN_CONCURRENCY + 2 * Total(Sizes(groups))
    ensures InBounds(groups, s)
    ensures forall act :: Apply(groups, s, act) != s ==> Effort(Apply(groups, s, act)) > Effort(s)
    ensures forall w | 0 <= w < |s.workers| && !s.workers[w].Finished? :: Apply(groups, s, NextOf(s, w)) != s
  {
    GroupsPartition(keys, order, groups);
    RunsKeepInv(groups, |keys|, run, s);
    InvInBounds(groups, |keys|, s);
    EffortBounded(groups, |keys|, s);
    forall act | Apply(groups, s, act) != s ensures Effort(Apply(groups, s, act)) > Effort(s) {
      assert WorkerOk(groups, s, s.workers[act.worker]);
      StepBringsFurther(groups, s, act);
    }
    forall w | 0 <= w < |s.workers| && !s.workers[w].Finished? ensures Apply(groups, s, NextOf(s, w)) != s {
      NextChanges(groups, s, w);
    }
  }

  // ---------------------------------------------------------------------------------------------
  // The single retry of the files refused with 401
  // ---------------------------------------------------------------------------------------------

  function Rejected(results: seq<Option<Result>>): seq<nat> {
    IndicesOf(results, Some(Unauthorized))
  }

  /** `retryUnauthorizedOnce`, given the license before and after the forced refresh and the results of
      resending the rejected files. */
  method RetryUnauthorizedOnce(results: seq<Option<Result>>, before: Option<string>, after: Option<string>, retried: seq<Option<Result>>)
    returns (merged: seq<Option<Result>>)
    requires |retried| == |Rejected(results)|
    ensures |merged| == |results|
    ensures forall f | 0 <= f < |results| && results[f] != Some(Unauthorized) :: merged[f] == results[f]
    ensures after.None? || after == Some("") || after == before ==> merged == results
    ensures forall j | 0 <= j < |retried| :: Rejected(results)[j] < |results|
    ensures after.Some? && after != Some("") && after != before ==> Merged(results, Rejected(results), retried, merged)
  {
    var rejected := Rejected(results);
    IndicesAscend(results, Some(Unauthorized));
    merged := results;
    if rejected == [] || after.None? || after == Some("") || after == before { return; }
    for i := 0 to |rejected|
      invariant |merged| == |results|
      invariant forall j | 0 <= j < i :: merged[rejected[j]] == retried[j]
      invariant forall f | 0 <= f < |results| && results[f] != Some(Unauthorized) :: merged[f] == results[f]
    {
      merged := merged[rejected[i] := retried[i]];
    }
  }

  /** The resent files have their new results, in order; the others keep theirs. */
  ghost predicate Merged(results: seq<Option<Result>>, rejected: seq<nat>, retried: seq<Option<Result>>, merged: seq<Option<Result>>) {
    && |merged| == |results| && |retried| == |rejected|
    && (forall f | 0 <= f < |results| && results[f] != Some(Unauthorized) :: merged[f] == results[f])
    && (forall j | 0 <= j < |rejected| :: rejected[j] < |results| && merged[rejected[j]] == retried[j])
  }

  /** The transcripts of the rejected files. */
  function RejectedKeys<K>(keys: seq<K>, rejected: seq<nat>): (chosen: seq<K>)
    requires forall j | 0 <= j < |rejected| :: rejected[j] < |keys|
    ensures |chosen| == |rejected| && forall j | 0 <= j < |rejected| :: chosen[j] == keys[rejected[j]]
  {
    seq(|rejected|, j requires 0 <= j < |rejected| => keys[rejected[j]])
  }

  /** Acknowledged files of each transcript come before the ones that are not. */
  ghost predicate AcknowledgedFirst<K(!new)>(keys: seq<K>, results: seq<Option<Result>>) {
    |results| == |keys| && forall e, f | 0 <= e < f < |keys| && keys[e] == keys[f] && results[f] == Some(Ok) :: results[e] == Some(Ok)
  }

  /** After the pass and the one retry pass, both under any interleaving: the acknowledged files of each
      transcript are still its first ones, nothing acknowledged was lost, no resent file was held back, and
      only refused files were resent. */
  lemma RetryKeepsOrder<K(!new)>(keys: seq<K>, results: seq<Option<Result>>, answers: map<nat, Result>, rejected: seq<nat>,
                                 retried: seq<Option<Result>>, retryAnswers: map<nat, Result>, merged: seq<Option<Result>>)
    requires PassResults(keys, results, answers)
    requires rejected == Rejected(results) && forall j | 0 <= j < |rejected| :: rejected[j] < |keys|
    requires PassResults(RejectedKeys(keys, rejected), retried, retryAnswers)
    requires Merged(results, rejected, retried, merged)
    ensures AcknowledgedFirst(keys, results) && AcknowledgedFirst(keys, merged)
    ensures forall f | 0 <= f < |keys| && results[f] == Some(Ok) :: merged[f] == Some(Ok)
    ensures forall j | 0 <= j < |retried| :: retried[j] != Some(Held) && results[rejected[j]] == Some(Unauthorized)
  {
    RejectedOnly(results, rejected);
    PassAcknowledgesFirst(keys, results, answers);
    RefusedOnce(keys, results, answers, rejected);
    NoneHeld(RejectedKeys(keys, rejected), retried, retryAnswers);
    MergedKeepsOrder(keys, results, answers, rejected, retried, merged);
  }

  lemma RejectedOnly(results: seq<Option<Result>>, rejected: seq<nat>)
    requires rejected == Rejected(results)
    ensures forall j | 0 <= j < |rejected| :: rejected[j] < |results| && results[rejected[j]] == Some(Unauthorized)
    ensures forall i, j | 0 <= i < j < |rejected| :: rejected[i] < rejected[j]
    ensures forall f | 0 <= f < |results| && results[f] == Some(Unauthorized) :: f in rejected
  {
    IndicesAscend(results, Some(Unauthorized));
  }

  lemma MergedKeepsOrder<K(!new)>(keys: seq<K>, results: seq<Option<Result>>, answers: map<nat, Result>, rejected: seq<nat>,
                                  retried: seq<Option<Result>>, merged: seq<Option<Result>>)
    requires PassResults(keys, results, answers)
    requires Merged(results, rejected, retried, merged)
    requires forall f | 0 <= f < |keys| && results[f] == Some(Unauthorized) :: f in rejected
    ensures AcknowledgedFirst(keys, merged)
  {
    forall e, f | 0 <= e < f < |keys| && keys[e] == keys[f] && merged[f] == Some(Ok) ensures merged[e] == Some(Ok) {
      NotHeld(keys, results, answers, e, f);
    }
  }

  lemma NotHeld<K(!new)>(keys: seq<K>, results: seq<Option<Result>>, answers: map<nat, Result>, e: nat, f: nat)
    requires PassResults(keys, results, answers) && e < f < |keys| && keys[e] == keys[f] && results[f] != Some(Held)
    ensures results[e] == Some(Ok)
  {
  }

  lemma PassAcknowledgesFirst<K(!new)>(keys: seq<K>, results: seq<Option<Result>>, answers: map<nat, Result>)
    requires PassResults(keys, results, answers)
    ensures AcknowledgedFirst(keys, results)
  {
    forall e, f | 0 <= e < f < |keys| && keys[e] == keys[f] && results[f] == Some(Ok) ensures results[e] == Some(Ok) {
      NotHeld(keys, results, answers, e, f);
    }
  }

  /** A transcript has at most one file refused with 401. */
  lemma RefusedOnce<K(!new)>(keys: seq<K>, results: seq<Option<Result>>, answers: map<nat, Result>, rejected: seq<nat>)
    requires PassResults(keys, results, answers)
    requires forall j | 0 <= j < |rejected| :: rejected[j] < |keys| && results[rejected[j]] == Some(Unauthorized)
    requires forall i, j | 0 <= i < j < |rejected| :: rejected[i] < rejected[j]
    ensures forall i, j | 0 <= i < j < |rejected| :: keys[rejected[i]] != keys[rejected[j]]
  {
    forall i, j | 0 <= i < j < |rejected| ensures keys[rejected[i]] != keys[rejected[j]] {
      if keys[rejected[i]] == keys[rejected[j]] {
        NotHeld(keys, results, answers, rejected[i], rejected[j]);
      }
    }
  }

  /** With one file a transcript, none waits for another. */
  lemma NoneHeld<K(!new)>(keys: seq<K>, results: seq<Option<Result>>, answers: map<nat, Result>)
    requires PassResults(keys, results, answers)
    requires forall i, j | 0 <= i < j < |keys| :: keys[i] != keys[j]
    ensures forall f | 0 <= f < |keys| :: results[f] != Some(Held)
  {
  }

  /** What a drain acknowledges of a transcript is a prefix of its queue: whatever precedes an acknowledged
      chunk in (number, file) order, due or not, was tried and acknowledged too. */
  lemma DrainAcknowledgesPrefix(entries: seq<Entry>, now: int, eligible: seq<Entry>, results: seq<Option<Result>>, x: nat, d: Entry)
    requires forall e: Entry :: e in eligible <==> Due(entries, e, now)
    requires InQueueOrder(eligible)
    requires AcknowledgedFirst(KeysOf(eligible), results)
    requires x < |eligible| && results[x] == Some(Ok)
    requires d in entries && d.key == eligible[x].key && Precedes(d, eligible[x])
    ensures exists y :: 0 <= y < x && eligible[y] == d && results[y] == Some(Ok)
  {
    assert eligible[x] in eligible;
    assert Due(entries, d, now);
    var y :| 0 <= y < |eligible| && eligible[y] == d;
    assert KeysOf(eligible)[x] == KeysOf(eligible)[y];
  }
}
