/** Uploading and delivery together: what the collector holds of a transcript after drains with concurrent workers
    (clients/claude-code/skillmeter/scripts/lib/transfer.js). */
module DrainDelivery {
  import opened Options
  import opened Drain
  import opened Seqs
  import Plan = ChunkPlan
  import Split = ChunkSplit
  import Stages = Staging
  import Collector = Delivery

  ghost predicate Has(entries: seq<Entry>, key: string, m: int) {
    exists e: Entry :: e in entries && e.key == key && SeqOf(e) == m
  }

  /** The queue of one transcript holds the chunks after number `n` up to number `last`, each once. */
  ghost predicate Queued(entries: seq<Entry>, key: string, n: nat, last: nat) {
    && (forall e: Entry | e in entries && e.key == key :: n < SeqOf(e) <= last)
    && (forall m: nat | n < m <= last :: Has(entries, key, m))
    && (forall d: Entry, e: Entry | d in entries && e in entries && d.key == key && e.key == key && SeqOf(d) == SeqOf(e) :: d == e)
  }

  /** The files of a transcript that were sent and acknowledged, in the order they were sent. */
  function Received(eligible: seq<Entry>, key: string, sent: seq<nat>, results: seq<Option<Result>>): seq<nat>
    requires |results| == |eligible| && forall i | 0 <= i < |sent| :: sent[i] < |eligible|
  {
    if sent == [] then []
    else
      var n := |sent| - 1;
      Received(eligible, key, sent[..n], results)
      + if eligible[sent[n]].key == key && results[sent[n]] == Some(Ok) then [sent[n]] else []
  }

  lemma {:induction false} ReceivedAre(eligible: seq<Entry>, key: string, sent: seq<nat>, results: seq<Option<Result>>)
    requires |results| == |eligible| && forall i | 0 <= i < |sent| :: sent[i] < |eligible|
    ensures forall f :: f in Received(eligible, key, sent, results) <==>
                        f in sent && eligible[f].key == key && results[f] == Some(Ok)
    decreases |sent|
  {
    if sent != [] {
      var n := |sent| - 1;
      ReceivedAre(eligible, key, sent[..n], results);
      assert sent == sent[..n] + [sent[n]];
    }
  }

  lemma {:induction false} ReceivedAscend(eligible: seq<Entry>, key: string, sent: seq<nat>, results: seq<Option<Result>>)
    requires |results| == |eligible| && forall i | 0 <= i < |sent| :: sent[i] < |eligible|
    requires forall i, j | 0 <= i < j < |sent| && eligible[sent[i]].key == eligible[sent[j]].key :: sent[i] < sent[j]
    ensures forall i, j | 0 <= i < j < |Received(eligible, key, sent, results)| ::
              Received(eligible, key, sent, results)[i] < Received(eligible, key, sent, results)[j]
    decreases |sent|
  {
    if sent != [] {
      var n := |sent| - 1;
      ReceivedAscend(eligible, key, sent[..n], results);
      ReceivedAre(eligible, key, sent[..n], results);
      var before := Received(eligible, key, sent[..n], results);
      if eligible[sent[n]].key == key {
        forall i | 0 <= i < |before| ensures before[i] < sent[n] {
          assert before[i] in before;
          SentBefore(eligible, sent, n, before[i]);
        }
      }
    }
  }

  lemma SentBefore(eligible: seq<Entry>, sent: seq<nat>, n: nat, f: nat)
    requires n < |sent| && f in sent[..n] && forall i | 0 <= i < |sent| :: sent[i] < |eligible|
    requires forall i | 0 <= i < n && eligible[sent[i]].key == eligible[sent[n]].key :: sent[i] < sent[n]
    requires f < |eligible| && eligible[f].key == eligible[sent[n]].key
    ensures f < sent[n]
  {
    var k :| 0 <= k < n && sent[..n][k] == f;
  }

  /** Files in ascending order that are exactly the acknowledged ones of a transcript. */
  ghost predicate Acknowledged(eligible: seq<Entry>, key: string, results: seq<Option<Result>>, files: seq<nat>) {
    && |results| == |eligible|
    && (forall i, j | 0 <= i < j < |files| :: files[i] < files[j])
    && (forall f :: f in files <==> 0 <= f < |eligible| && eligible[f].key == key && results[f] == Some(Ok))
  }

  /** The resent files that were acknowledged, as files of the first pass. */
  function Resent(rejected: seq<nat>, places: seq<nat>): (files: seq<nat>)
    requires forall i | 0 <= i < |places| :: places[i] < |rejected|
    ensures |files| == |places| && forall i | 0 <= i < |files| :: files[i] == rejected[places[i]]
  {
    seq(|places|, i requires 0 <= i < |places| => rejected[places[i]])
  }

  /** A pass delivers of a transcript its acknowledged files, in order. */
  lemma PassAcknowledges(eligible: seq<Entry>, key: string, results: seq<Option<Result>>, answers: map<nat, Result>, sent: seq<nat>)
    requires PassResults(KeysOf(eligible), results, answers) && InSendingOrder(KeysOf(eligible), sent, answers)
    ensures Acknowledged(eligible, key, results, Received(eligible, key, sent, results))
  {
    ReceivedAre(eligible, key, sent, results);
    var keys := KeysOf(eligible);
    forall i, j | 0 <= i < j < |sent| && eligible[sent[i]].key == eligible[sent[j]].key ensures sent[i] < sent[j] {
      assert keys[sent[i]] == keys[sent[j]];
    }
    ReceivedAscend(eligible, key, sent, results);
    forall f | 0 <= f < |eligible| && results[f] == Some(Ok) ensures f in sent { assert f in answers; }
  }

  /** The refused files of a transcript: at most one, after its acknowledged ones. */
  lemma RefusedAfter(eligible: seq<Entry>, key: string, results: seq<Option<Result>>, answers: map<nat, Result>, rejected: seq<nat>, files: seq<nat>, j: nat)
    requires PassResults(KeysOf(eligible), results, answers) && Acknowledged(eligible, key, results, files)
    requires j < |rejected| && rejected[j] < |eligible| && results[rejected[j]] == Some(Unauthorized) && eligible[rejected[j]].key == key
    ensures forall i | 0 <= i < |files| :: files[i] < rejected[j]
  {
    var keys, r := KeysOf(eligible), rejected[j];
    forall i | 0 <= i < |files| ensures files[i] < r {
      assert files[i] in files;
      RefusedIsLater(keys, results, answers, files[i], r);
    }
  }

  lemma RefusedIsLater(keys: seq<string>, results: seq<Option<Result>>, answers: map<nat, Result>, f: nat, r: nat)
    requires PassResults(keys, results, answers) && f < |keys| && r < |keys| && keys[f] == keys[r]
    requires results[f] == Some(Ok) && results[r] == Some(Unauthorized)
    ensures f < r
  {
    PassAcknowledgesFirst(keys, results, answers);
  }

  /** What the first pass and the retry pass deliver of a transcript, one after the other, are its acknowledged files in order. */
  lemma PassesAcknowledge(eligible: seq<Entry>, key: string, results: seq<Option<Result>>, answers: map<nat, Result>, files: seq<nat>,
                          rejected: seq<nat>, retried: seq<Option<Result>>, places: seq<nat>, merged: seq<Option<Result>>)
    requires PassResults(KeysOf(eligible), results, answers) && Acknowledged(eligible, key, results, files)
    requires rejected == Rejected(results) && forall j | 0 <= j < |rejected| :: rejected[j] < |eligible|
    requires Acknowledged(Select(eligible, rejected), key, retried, places)
    requires Merged(results, rejected, retried, merged)
    ensures forall i | 0 <= i < |places| :: places[i] < |rejected|
    ensures Acknowledged(eligible, key, merged, files + Resent(rejected, places))
  {
    RejectedOnly(results, rejected);
    RefusedOnce(KeysOf(eligible), results, answers, rejected);
    var chosen := Select(eligible, rejected);
    forall i | 0 <= i < |places| ensures places[i] < |rejected| && eligible[rejected[places[i]]].key == key { assert places[i] in places; }
    AtMostOne(eligible, key, rejected, places);
    var more := Resent(rejected, places);
    AllAscend(eligible, key, results, answers, rejected, files, places);
    ExactlyTheOk(eligible, key, results, files, rejected, retried, places, merged);
  }

  lemma AtMostOne(eligible: seq<Entry>, key: string, rejected: seq<nat>, places: seq<nat>)
    requires forall j | 0 <= j < |rejected| :: rejected[j] < |eligible|
    requires forall i, j | 0 <= i < j < |rejected| :: KeysOf(eligible)[rejected[i]] != KeysOf(eligible)[rejected[j]]
    requires forall i | 0 <= i < |places| :: places[i] < |rejected| && eligible[rejected[places[i]]].key == key
    requires forall i, j | 0 <= i < j < |places| :: places[i] < places[j]
    ensures |places| <= 1
  {
    assert forall i | 0 <= i < |places| :: KeysOf(eligible)[rejected[places[i]]] == key;
    if places != [] { assert places[0] <= places[|places| - 1]; }
  }

  lemma AllAscend(eligible: seq<Entry>, key: string, results: seq<Option<Result>>, answers: map<nat, Result>, rejected: seq<nat>, files: seq<nat>, places: seq<nat>)
    requires PassResults(KeysOf(eligible), results, answers) && Acknowledged(eligible, key, results, files)
    requires forall j | 0 <= j < |rejected| :: rejected[j] < |eligible| && results[rejected[j]] == Some(Unauthorized)
    requires |places| <= 1 && forall i | 0 <= i < |places| :: places[i] < |rejected| && eligible[rejected[places[i]]].key == key
    ensures var all := files + Resent(rejected, places); forall i, j | 0 <= i < j < |all| :: all[i] < all[j]
  {
    if |places| == 1 { RefusedAfter(eligible, key, results, answers, rejected, files, places[0]); }
  }

  lemma ExactlyTheOk(eligible: seq<Entry>, key: string, results: seq<Option<Result>>, files: seq<nat>, rejected: seq<nat>,
                     retried: seq<Option<Result>>, places: seq<nat>, merged: seq<Option<Result>>)
    requires Acknowledged(eligible, key, results, files) && Merged(results, rejected, retried, merged)
    requires forall j | 0 <= j < |rejected| :: rejected[j] < |eligible| && results[rejected[j]] == Some(Unauthorized)
    requires forall f | 0 <= f < |results| && results[f] == Some(Unauthorized) :: f in rejected
    requires Acknowledged(Select(eligible, rejected), key, retried, places) && forall i | 0 <= i < |places| :: places[i] < |rejected|
    ensures forall f :: f in files + Resent(rejected, places) <==> 0 <= f < |eligible| && eligible[f].key == key && merged[f] == Some(Ok)
  {
    var more := Resent(rejected, places);
    forall f | 0 <= f < |eligible| && eligible[f].key == key && merged[f] == Some(Ok) ensures f in files + more {
      if results[f] == Some(Unauthorized) {
        var j :| 0 <= j < |rejected| && rejected[j] == f;
        assert j in places;
        var i :| 0 <= i < |places| && places[i] == j;
        assert more[i] == f;
      }
    }
    forall f | f in more ensures 0 <= f < |eligible| && eligible[f].key == key && merged[f] == Some(Ok) {
      var i :| 0 <= i < |more| && more[i] == f;
      assert places[i] in places;
    }
  }

  // ---------------------------------------------------------------------------------------------
  // From files to chunks
  // ---------------------------------------------------------------------------------------------

  /** The acknowledged files of a transcript are the next chunks of its queue, in the order of their numbers. */
  lemma {:induction false} NextNumbers(entries: seq<Entry>, now: int, eligible: seq<Entry>, key: string, results: seq<Option<Result>>,
                                       files: seq<nat>, n: nat, last: nat, j: nat)
    requires AfterDrain(entries, now, eligible, key, results, files) && Queued(entries, key, n, last) && j <= |files|
    ensures forall i | 0 <= i < j :: files[i] < |eligible| && SeqOf(eligible[files[i]]) == n + 1 + i
    decreases j
  {
    if j > 0 {
      NextNumbers(entries, now, eligible, key, results, files, n, last, j - 1);
      NotBelow(entries, now, eligible, key, results, files, n, last, j - 1);
      NotAbove(entries, now, eligible, key, results, files, n, last, j - 1);
    }
  }

  /** The files a drain acknowledged of a transcript, in the order they were sent. */
  ghost predicate AfterDrain(entries: seq<Entry>, now: int, eligible: seq<Entry>, key: string, results: seq<Option<Result>>, files: seq<nat>) {
    && FilesDiffer(entries)
    && (forall e: Entry :: e in eligible <==> Due(entries, e, now)) && InQueueOrder(eligible)
    && |results| == |eligible| && AcknowledgedFirst(KeysOf(eligible), results) && Acknowledged(eligible, key, results, files)
  }

  lemma OfTheQueue(entries: seq<Entry>, now: int, eligible: seq<Entry>, key: string, results: seq<Option<Result>>, files: seq<nat>, j: nat)
    requires AfterDrain(entries, now, eligible, key, results, files) && j < |files|
    ensures files[j] < |eligible| && results[files[j]] == Some(Ok) && eligible[files[j]].key == key && eligible[files[j]] in entries
  {
    assert files[j] in files && eligible[files[j]] in eligible;
  }

  lemma NotBelow(entries: seq<Entry>, now: int, eligible: seq<Entry>, key: string, results: seq<Option<Result>>,
                 files: seq<nat>, n: nat, last: nat, j: nat)
    requires AfterDrain(entries, now, eligible, key, results, files) && Queued(entries, key, n, last) && j < |files|
    requires forall i | 0 <= i < j :: files[i] < |eligible| && SeqOf(eligible[files[i]]) == n + 1 + i
    ensures files[j] < |eligible| && SeqOf(eligible[files[j]]) >= n + 1 + j
  {
    OfTheQueue(entries, now, eligible, key, results, files, j);
    if j > 0 {
      OfTheQueue(entries, now, eligible, key, results, files, j - 1);
      assert Precedes(eligible[files[j - 1]], eligible[files[j]]);
    }
  }

  lemma NotAbove(entries: seq<Entry>, now: int, eligible: seq<Entry>, key: string, results: seq<Option<Result>>,
                 files: seq<nat>, n: nat, last: nat, j: nat)
    requires AfterDrain(entries, now, eligible, key, results, files) && Queued(entries, key, n, last) && j < |files|
    requires forall i | 0 <= i < j :: files[i] < |eligible| && SeqOf(eligible[files[i]]) == n + 1 + i
    ensures files[j] < |eligible| && SeqOf(eligible[files[j]]) <= n + 1 + j
  {
    OfTheQueue(entries, now, eligible, key, results, files, j);
    var x := files[j];
    if SeqOf(eligible[x]) > n + 1 + j {
      assert Has(entries, key, n + 1 + j);
      var d: Entry :| d in entries && d.key == key && SeqOf(d) == n + 1 + j;
      FilesApart(entries, d, eligible[x]);
      DrainAcknowledgesPrefix(entries, now, eligible, results, x, d);
      var y: nat :| y < x && eligible[y] == d && results[y] == Some(Ok);
      EarlierFile(eligible, key, results, files, j, y);
    }
  }

  lemma FilesApart(entries: seq<Entry>, d: Entry, e: Entry)
    requires FilesDiffer(entries) && d in entries && e in entries && SeqOf(d) < SeqOf(e)
    ensures Precedes(d, e)
  {
    var i :| 0 <= i < |entries| && entries[i] == d;
    var j :| 0 <= j < |entries| && entries[j] == e;
    assert i < j || j < i;
  }

  lemma EarlierFile(eligible: seq<Entry>, key: string, results: seq<Option<Result>>, files: seq<nat>, j: nat, y: nat)
    requires Acknowledged(eligible, key, results, files) && j < |files| && y < files[j]
    requires y < |eligible| && eligible[y].key == key && results[y] == Some(Ok)
    ensures exists i :: 0 <= i < j && files[i] == y
  {
    assert y in files;
    var i :| 0 <= i < |files| && files[i] == y;
  }

  /** A finished pass over some files, its workers in any interleaving; `files` are those of a transcript that were sent and
      acknowledged, in the order they were sent. */
  ghost predicate Passed(eligible: seq<Entry>, order: seq<string>, groups: seq<seq<nat>>, run: seq<Action>, s: State, key: string, files: seq<nat>) {
    && GroupsOf(KeysOf(eligible), order, groups) && Reachable(groups, |eligible|, run, s) && Over(s)
    && |s.results| == |eligible|
    && (forall i | 0 <= i < |s.sent| :: s.sent[i].group < |groups| && s.sent[i].pos < |groups[s.sent[i].group]|)
    && (forall i | 0 <= i < |s.sent| :: FileOf(groups, s.sent[i]) < |eligible|)
    && files == Received(eligible, key, FilesSent(groups, s.sent), s.results)
  }

  lemma PassedAcknowledges(eligible: seq<Entry>, order: seq<string>, groups: seq<seq<nat>>, run: seq<Action>, s: State, key: string, files: seq<nat>)
    requires Passed(eligible, order, groups, run, s, key, files)
    ensures PassResults(KeysOf(eligible), s.results, s.answers) && Acknowledged(eligible, key, s.results, files)
  {
    FinishedPass(KeysOf(eligible), order, groups, run, s);
    SentInOrder(KeysOf(eligible), order, groups, run, s);
    PassAcknowledges(eligible, key, s.results, s.answers, FilesSent(groups, s.sent));
  }

  /** A drain is a pass over the due chunks, and, when the license could be renewed, one pass over the refused ones. */
  lemma PassDrains(entries: seq<Entry>, now: int, eligible: seq<Entry>, order: seq<string>, groups: seq<seq<nat>>, run: seq<Action>, s: State,
                   key: string, files: seq<nat>)
    requires FilesDiffer(entries) && (forall e: Entry :: e in eligible <==> Due(entries, e, now)) && InQueueOrder(eligible)
    requires Passed(eligible, order, groups, run, s, key, files)
    ensures AfterDrain(entries, now, eligible, key, s.results, files)
  {
    PassedAcknowledges(eligible, order, groups, run, s, key, files);
    PassAcknowledgesFirst(KeysOf(eligible), s.results, s.answers);
  }

  lemma RetriedPassDrains(entries: seq<Entry>, now: int, eligible: seq<Entry>, order: seq<string>, groups: seq<seq<nat>>, run: seq<Action>, s: State,
                          key: string, files: seq<nat>, rejected: seq<nat>, order2: seq<string>, groups2: seq<seq<nat>>, run2: seq<Action>, t: State,
                          places: seq<nat>, merged: seq<Option<Result>>)
    requires FilesDiffer(entries) && (forall e: Entry :: e in eligible <==> Due(entries, e, now)) && InQueueOrder(eligible)
    requires Passed(eligible, order, groups, run, s, key, files)
    requires rejected == Rejected(s.results) && forall j | 0 <= j < |rejected| :: rejected[j] < |eligible|
    requires Passed(Select(eligible, rejected), order2, groups2, run2, t, key, places)
    requires Merged(s.results, rejected, t.results, merged)
    ensures forall i | 0 <= i < |places| :: places[i] < |rejected|
    ensures AfterDrain(entries, now, eligible, key, merged, files + Resent(rejected, places))
  {
    PassedAcknowledges(eligible, order, groups, run, s, key, files);
    PassedAcknowledges(Select(eligible, rejected), order2, groups2, run2, t, key, places);
    PassesAcknowledge(eligible, key, s.results, s.answers, files, rejected, t.results, places, merged);
    RejectedOnly(s.results, rejected);
    MergedKeepsOrder(KeysOf(eligible), s.results, s.answers, rejected, t.results, merged);
  }

  // ---------------------------------------------------------------------------------------------
  // What the collector holds
  // ---------------------------------------------------------------------------------------------

  /** One drain of the queue directory: what it found there, and what it left. For one transcript: the acknowledged files and
      the chunks they carried, in the order they were sent. */
  datatype Drained = Drained(now: int, entries: seq<Entry>, eligible: seq<Entry>, results: seq<Option<Result>>, rest: seq<Entry>,
                             files: seq<nat>, chunks: seq<Plan.Chunk>)

  /** Left are the files that were not acknowledged. */
  ghost predicate LeftBy(d: Drained) {
    && |d.results| == |d.eligible|
    && forall e: Entry :: e in d.rest <==> e in d.entries && !Acked(d.eligible, d.results, e)
  }

  ghost predicate Acked(eligible: seq<Entry>, results: seq<Option<Result>>, e: Entry)
    requires |results| == |eligible|
  {
    exists y :: 0 <= y < |eligible| && eligible[y] == e && results[y] == Some(Ok)
  }

  predicate Carries(queue: seq<Plan.Chunk>, e: Entry, c: Plan.Chunk) {
    1 <= SeqOf(e) <= |queue| && c == queue[SeqOf(e) - 1]
  }

  ghost predicate DrainOf(key: string, queue: seq<Plan.Chunk>, d: Drained) {
    && AfterDrain(d.entries, d.now, d.eligible, key, d.results, d.files) && LeftBy(d)
    && |d.chunks| == |d.files|
    && forall i | 0 <= i < |d.files| :: d.files[i] < |d.eligible| && Carries(queue, d.eligible[d.files[i]], d.chunks[i])
  }

  /** What a drain delivers of a transcript are the next chunks of its queue, in order, and those after them stay queued. */
  lemma DrainTakesNext(key: string, queue: seq<Plan.Chunk>, n: nat, last: nat, d: Drained)
    requires DrainOf(key, queue, d) && Queued(d.entries, key, n, last) && n <= last <= |queue|
    ensures n + |d.chunks| <= last && d.chunks == queue[n..n + |d.chunks|]
    ensures Queued(d.rest, key, n + |d.chunks|, last)
  {
    NextNumbers(d.entries, d.now, d.eligible, key, d.results, d.files, n, last, |d.files|);
    if d.files != [] {
      var j := |d.files| - 1;
      OfTheQueue(d.entries, d.now, d.eligible, key, d.results, d.files, j);
      assert SeqOf(d.eligible[d.files[j]]) == n + |d.files| <= last;
    }
    RestQueued(key, n, last, d);
  }

  lemma RestQueued(key: string, n: nat, last: nat, d: Drained)
    requires AfterDrain(d.entries, d.now, d.eligible, key, d.results, d.files) && LeftBy(d) && Queued(d.entries, key, n, last)
    requires forall i | 0 <= i < |d.files| :: d.files[i] < |d.eligible| && SeqOf(d.eligible[d.files[i]]) == n + 1 + i
    ensures Queued(d.rest, key, n + |d.files|, last)
  {
    forall e: Entry | e in d.entries && e.key == key ensures Acked(d.eligible, d.results, e) <==> SeqOf(e) <= n + |d.files| {
      if SeqOf(e) <= n + |d.files| { FirstAcked(key, n, last, d, e); } else { LaterNotAcked(key, n, d, e); }
    }
    forall m: nat | n + |d.files| < m <= last ensures Has(d.rest, key, m) {
      assert Has(d.entries, key, m);
      var e: Entry :| e in d.entries && e.key == key && SeqOf(e) == m;
      assert e in d.rest;
    }
  }

  lemma FirstAcked(key: string, n: nat, last: nat, d: Drained, e: Entry)
    requires AfterDrain(d.entries, d.now, d.eligible, key, d.results, d.files) && Queued(d.entries, key, n, last)
    requires forall i | 0 <= i < |d.files| :: d.files[i] < |d.eligible| && SeqOf(d.eligible[d.files[i]]) == n + 1 + i
    requires e in d.entries && e.key == key && SeqOf(e) <= n + |d.files|
    ensures Acked(d.eligible, d.results, e)
  {
    var i := SeqOf(e) - n - 1;
    OfTheQueue(d.entries, d.now, d.eligible, key, d.results, d.files, i);
    assert d.eligible[d.files[i]] == e;
  }

  lemma LaterNotAcked(key: string, n: nat, d: Drained, e: Entry)
    requires |d.results| == |d.eligible| && Acknowledged(d.eligible, key, d.results, d.files)
    requires forall i | 0 <= i < |d.files| :: d.files[i] < |d.eligible| && SeqOf(d.eligible[d.files[i]]) == n + 1 + i
    requires e.key == key && SeqOf(e) > n + |d.files|
    ensures !Acked(d.eligible, d.results, e)
  {
    forall y | 0 <= y < |d.eligible| && d.eligible[y] == e ensures d.results[y] != Some(Ok) { assert y in d.files ==> SeqOf(e) <= n + |d.files|; }
  }

  /** A staging adds the chunks up to number `next` to those up to number `last`. */
  ghost predicate Enqueued(rest: seq<Entry>, key: string, last: nat, entries: seq<Entry>, next: nat) {
    && last <= next
    && (forall e: Entry | e.key == key && SeqOf(e) <= last :: e in entries <==> e in rest)
    && (forall e: Entry | e in entries && e.key == key :: SeqOf(e) <= next)
    && (forall m: nat | last < m <= next :: Has(entries, key, m))
    && (forall d: Entry, e: Entry | d in entries && e in entries && d.key == key && e.key == key && last < SeqOf(d) == SeqOf(e) :: d == e)
  }

  lemma EnqueuedQueued(rest: seq<Entry>, key: string, n: nat, last: nat, entries: seq<Entry>, next: nat)
    requires Queued(rest, key, n, last) && n <= last && Enqueued(rest, key, last, entries, next)
    ensures Queued(entries, key, n, next)
  {
    forall m: nat | n < m <= next ensures Has(entries, key, m) {
      if m <= last {
        assert Has(rest, key, m);
        var e: Entry :| e in rest && e.key == key && SeqOf(e) == m;
        assert e in entries;
      }
    }
  }

  ghost predicate NextDrain(key: string, queue: seq<Plan.Chunk>, rest: seq<Entry>, last: nat, d: Drained, next: nat) {
    Enqueued(rest, key, last, d.entries, next) && next <= |queue| && DrainOf(key, queue, d)
  }

  lemma NextDrainTakesNext(key: string, queue: seq<Plan.Chunk>, rest: seq<Entry>, n: nat, last: nat, d: Drained, next: nat)
    requires Queued(rest, key, n, last) && n <= last && NextDrain(key, queue, rest, last, d, next)
    ensures n + |d.chunks| <= next <= |queue| && d.chunks == queue[n..n + |d.chunks|] && Queued(d.rest, key, n + |d.chunks|, next)
  {
    EnqueuedQueued(rest, key, n, last, d.entries, next);
    DrainTakesNext(key, queue, n, next, d);
  }

  /** Drains of a transcript's chunks, stagings adding chunks in between; `lasts` are the numbers reached before each drain. */
  ghost predicate DrainsOf(key: string, queue: seq<Plan.Chunk>, rest: seq<Entry>, last: nat, drains: seq<Drained>, lasts: seq<nat>)
    decreases |drains|
  {
    && |lasts| == |drains|
    && (drains == [] ||
        (&& NextDrain(key, queue, rest, last, drains[0], lasts[0])
         && DrainsOf(key, queue, drains[0].rest, lasts[0], drains[1..], lasts[1..])))
  }

  /** The chunks of the transcript in the order in which they arrived. */
  function Arrived(drains: seq<Drained>): seq<Plan.Chunk> {
    if drains == [] then [] else drains[0].chunks + Arrived(drains[1..])
  }

  /** What is still queued after the drains. */
  function LeftAfter(rest: seq<Entry>, drains: seq<Drained>): seq<Entry>
    decreases |drains|
  {
    if drains == [] then rest else LeftAfter(drains[0].rest, drains[1..])
  }

  function LastOf(last: nat, lasts: seq<nat>): nat
    decreases |lasts|
  {
    if lasts == [] then last else LastOf(lasts[0], lasts[1..])
  }

  /** Over any number of drains, each with its workers in any interleaving and any answers: what arrived is the queue from
      its front, each chunk once and in order, and exactly the later chunks are still waiting. */
  lemma {:induction false} DrainsDeliver(key: string, queue: seq<Plan.Chunk>, rest: seq<Entry>, n: nat, last: nat, drains: seq<Drained>, lasts: seq<nat>)
    requires Queued(rest, key, n, last) && n <= last <= |queue| && DrainsOf(key, queue, rest, last, drains, lasts)
    ensures n + |Arrived(drains)| <= LastOf(last, lasts) <= |queue|
    ensures Arrived(drains) == queue[n..n + |Arrived(drains)|]
    ensures Queued(LeftAfter(rest, drains), key, n + |Arrived(drains)|, LastOf(last, lasts))
    decreases |drains|
  {
    if drains != [] {
      var d := drains[0];
      NextDrainTakesNext(key, queue, rest, n, last, d, lasts[0]);
      DrainsDeliver(key, queue, d.rest, n + |d.chunks|, lasts[0], drains[1..], lasts[1..]);
      Joined(queue, n, d.chunks, Arrived(drains[1..]));
    }
  }

  lemma Joined(queue: seq<Plan.Chunk>, n: nat, a: seq<Plan.Chunk>, b: seq<Plan.Chunk>)
    requires n + |a| + |b| <= |queue| && a == queue[n..n + |a|] && b == queue[n + |a|..n + |a| + |b|]
    ensures a + b == queue[n..n + |a + b|]
  {
  }

  /** From transcript to collector, uploads included: once no chunk of the transcript is waiting any more, the collector holds
      the lines of the simple form; before that, what the chunks sealed first make of it. */
  lemma DeliveredEndToEnd(cfg: Plan.Config, r: Collector.Run, acts: seq<Stages.Action>, key: string, drains: seq<Drained>, lasts: seq<nat>)
    requires Split.GzipBounded(cfg.sizes) && r.state.files == Stages.NO_FILES && r.spec == Collector.Spec([], false)
    requires Collector.AllKeepCount(cfg, r, acts)
    requires DrainsOf(key, Collector.FollowAll(cfg, r, acts).state.files.queue, [], 0, drains, lasts)
    ensures Delivers(Collector.FollowAll(cfg, r, acts), key, drains, lasts)
  {
    var t := Collector.FollowAll(cfg, r, acts);
    var queue := t.state.files.queue;
    Collector.EndToEnd(cfg, r, acts);
    DrainsDeliver(key, queue, [], 0, 0, drains, lasts);
    var n, last := |Arrived(drains)|, LastOf(0, lasts);
    assert queue[0..n] == queue[..n] && queue[..|queue|] == queue;
    NothingWaits(LeftAfter([], drains), key, n, last);
  }

  /** Once everything sealed has been queued and nothing of the transcript waits, the collector holds the simple form's lines. */
  ghost predicate Delivers(t: Collector.Run, key: string, drains: seq<Drained>, lasts: seq<nat>) {
    var queue, arrived, left := t.state.files.queue, Arrived(drains), LeftAfter([], drains);
    && arrived <= queue
    && (LastOf(0, lasts) == |queue| && (forall e: Entry :: e in left ==> e.key != key)
        ==> arrived == queue && Collector.Collect(Collector.EMPTY, arrived).lines == t.spec.lines)
  }

  lemma NothingWaits(left: seq<Entry>, key: string, n: nat, last: nat)
    requires Queued(left, key, n, last) && n <= last
    ensures (forall e: Entry :: e in left ==> e.key != key) <==> n == last
  {
    if n < last { assert Has(left, key, last); }
  }
}
