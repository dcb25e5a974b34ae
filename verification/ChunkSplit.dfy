/** Cutting serialized lines into uploads: `splitLinesByBudget`, `envelopeBytes` and `splitByEnvelope` of
    clients/claude-code/skillmeter/scripts/lib/transcript-delta.js. */
module ChunkSplit {
  import opened Seqs

  const DEFAULT_CHUNK_MAX_BYTES: nat := 20 * 1024 * 1024
  const MAX_ENVELOPE: nat := 5 * 1024 * 1024
  const ENVELOPE_RESERVE: nat := 128 * 1024

  /** The UTF-8 size of a line, and the size gzip gives a body of lines. */
  datatype Sizes<!T(!new)> = Sizes(line: T -> nat, gzip: seq<T> -> nat)

  /** The size of `lines.join("\n") + "\n"`. */
  function BodyBytes<T(!new)>(sz: Sizes<T>, lines: seq<T>): nat {
    if lines == [] then 0 else BodyBytes(sz, lines[..|lines| - 1]) + sz.line(lines[|lines| - 1]) + 1
  }

  function Flatten<T>(groups: seq<seq<T>>): seq<T> {
    if groups == [] then [] else groups[0] + Flatten(groups[1..])
  }

  lemma {:induction false} FlattenConcat<T>(a: seq<seq<T>>, b: seq<seq<T>>)
    ensures Flatten(a + b) == Flatten(a) + Flatten(b)
    decreases |a|
  {
    if a == [] {
      assert a + b == b;
    } else {
      FlattenConcat(a[1..], b);
      assert (a + b)[1..] == a[1..] + b;
    }
  }

  // ---------------------------------------------------------------------------------------------
  // The uncompressed budget
  // ---------------------------------------------------------------------------------------------

  /** A group the budget accepts: within it, or a single line. */
  predicate Admissible<T(!new)>(sz: Sizes<T>, max: nat, group: seq<T>) {
    group != [] && (|group| == 1 || BodyBytes(sz, group) <= max)
  }

  /** The groups the greedy loop still produces, with `current` open. */
  function Greedy<T(!new)>(sz: Sizes<T>, max: nat, current: seq<T>, lines: seq<T>): seq<seq<T>>
    decreases |lines|
  {
    if lines == [] then (if current == [] then [] else [current])
    else if current != [] && BodyBytes(sz, current) + sz.line(lines[0]) + 1 > max then
      [current] + Greedy(sz, max, [lines[0]], lines[1..])
    else Greedy(sz, max, current + [lines[0]], lines[1..])
  }

  lemma BodyBytesSnoc<T(!new)>(sz: Sizes<T>, lines: seq<T>, line: T)
    ensures BodyBytes(sz, lines + [line]) == BodyBytes(sz, lines) + sz.line(line) + 1
  {
    DropLast(lines, [line]);
    assert lines + [line][..0] == lines;
  }

  /** One turn of the loop closes the open group or extends it. */
  lemma GreedyTurn<T(!new)>(sz: Sizes<T>, max: nat, groups: seq<seq<T>>, current: seq<T>, lines: seq<T>)
    requires lines != []
    ensures var close := current != [] && BodyBytes(sz, current) + sz.line(lines[0]) + 1 > max;
            groups + Greedy(sz, max, current, lines) ==
            if close then groups + [current] + Greedy(sz, max, [lines[0]], lines[1..])
            else groups + Greedy(sz, max, current + [lines[0]], lines[1..])
  {
    Assoc(groups, [current], Greedy(sz, max, [lines[0]], lines[1..]));
  }

  method SplitLinesByBudget<T(!new)>(sz: Sizes<T>, lines: seq<T>, max: nat) returns (groups: seq<seq<T>>)
    ensures groups == Greedy(sz, max, [], lines)
    ensures Flatten(groups) == lines
    ensures forall g | g in groups :: Admissible(sz, max, g)
  {
    groups := [];
    var current: seq<T> := [];
    var size := 0;
    for i := 0 to |lines|
      invariant size == BodyBytes(sz, current)
      invariant groups + Greedy(sz, max, current, lines[i..]) == Greedy(sz, max, [], lines)
    {
      var line := lines[i];
      var lineBytes := sz.line(line) + 1;
      GreedyTurn(sz, max, groups, current, lines[i..]);
      BodyBytesSnoc(sz, current, line);
      BodyBytesSnoc(sz, [], line);
      assert lines[i..][1..] == lines[i + 1..] && [] + [line] == [line];
      if |current| > 0 && size + lineBytes > max {
        groups := groups + [current];
        current := [];
        size := 0;
      }
      current := current + [line];
      size := size + lineBytes;
    }
    if |current| > 0 {
      groups := groups + [current];
    }
    GreedyKeepsLines(sz, max, [], lines);
    GreedyAdmissible(sz, max, [], lines);
  }

  lemma {:induction false} GreedyKeepsLines<T(!new)>(sz: Sizes<T>, max: nat, current: seq<T>, lines: seq<T>)
    ensures Flatten(Greedy(sz, max, current, lines)) == current + lines
    decreases |lines|
  {
    if lines != [] {
      GreedyKeepsLines(sz, max, [lines[0]], lines[1..]);
      GreedyKeepsLines(sz, max, current + [lines[0]], lines[1..]);
      assert [lines[0]] + lines[1..] == lines;
      assert current + [lines[0]] + lines[1..] == current + lines;
    } else {
      assert current + lines == current;
      if current != [] { assert Flatten([current]) == current + Flatten([]); }
    }
  }

  lemma {:induction false} GreedyAdmissible<T(!new)>(sz: Sizes<T>, max: nat, current: seq<T>, lines: seq<T>)
    requires current == [] || Admissible(sz, max, current)
    ensures forall g | g in Greedy(sz, max, current, lines) :: Admissible(sz, max, g)
    decreases |lines|
  {
    if lines != [] {
      assert (current + [lines[0]])[..|current|] == current;
      if current != [] && BodyBytes(sz, current) + sz.line(lines[0]) + 1 > max {
        GreedyAdmissible(sz, max, [lines[0]], lines[1..]);
      } else {
        GreedyAdmissible(sz, max, current + [lines[0]], lines[1..]);
      }
    }
  }

  lemma {:induction false} BodyBytesConcat<T(!new)>(sz: Sizes<T>, a: seq<T>, b: seq<T>)
    ensures BodyBytes(sz, a + b) == BodyBytes(sz, a) + BodyBytes(sz, b)
    decreases |b|
  {
    if b == [] {
      assert a + b == a;
    } else {
      BodyBytesConcat(sz, a, b[..|b| - 1]);
      assert (a + b)[..|a + b| - 1] == a + b[..|b| - 1];
    }
  }

  /** The greedy split stays ahead: with `current` open, whatever admissible groups `rivals` cover `behind`,
      `current` and `lines`, the loop ends with no more groups. */
  lemma {:induction false} GreedyStaysAhead<T(!new)>(sz: Sizes<T>, max: nat, behind: seq<T>, current: seq<T>, lines: seq<T>,
                                                    rivals: seq<seq<T>>)
    requires forall g | g in rivals :: Admissible(sz, max, g)
    requires Flatten(rivals) == behind + current + lines
    ensures |Greedy(sz, max, current, lines)| <= |rivals|
    decreases |rivals|, |lines|
  {
    if rivals == [] {
      assert current == [] && lines == [];
    } else {
      var first := rivals[0];
      assert first in rivals;
      assert Flatten(rivals) == first + Flatten(rivals[1..]);
      var whole := behind + current + lines;
      if |first| <= |behind| {
        var behind' := behind[|first|..];
        assert Flatten(rivals[1..]) == whole[|first|..] == behind' + current + lines;
        GreedyStaysAhead(sz, max, behind', current, lines, rivals[1..]);
      } else if lines == [] {
      } else if |first| <= |behind| + |current| {
        if BodyBytes(sz, current) + sz.line(lines[0]) + 1 > max {
          var rest := whole[|first|..];
          assert Flatten(rivals[1..]) == rest;
          var cut := |first| - |behind|;
          assert rest == current[cut..] + lines;
          assert [lines[0]] + lines[1..] == lines;
          assert rest == current[cut..] + [lines[0]] + lines[1..];
          GreedyStaysAhead(sz, max, current[cut..], [lines[0]], lines[1..], rivals[1..]);
        } else {
          assert behind + (current + [lines[0]]) + lines[1..] == whole;
          GreedyStaysAhead(sz, max, behind, current + [lines[0]], lines[1..], rivals);
        }
      } else {
        assert behind + (current + [lines[0]]) + lines[1..] == whole;
        FirstRivalFits(sz, max, behind, current, lines, first);
        GreedyStaysAhead(sz, max, behind, current + [lines[0]], lines[1..], rivals);
      }
    }
  }

  /** When a rival's group reaches past the open group, the open group can take the next line too. */
  lemma FirstRivalFits<T(!new)>(sz: Sizes<T>, max: nat, behind: seq<T>, current: seq<T>, lines: seq<T>, first: seq<T>)
    requires Admissible(sz, max, first) && lines != []
    requires |behind| + |current| < |first| && first <= behind + current + lines
    ensures current == [] || BodyBytes(sz, current) + sz.line(lines[0]) + 1 <= max
  {
    if current != [] {
      var n := |behind| + |current|;
      var tail := first[n + 1..];
      assert first[n] == lines[0];
      assert first[..n] == behind + current;
      assert first == first[..n] + ([lines[0]] + tail);
      BodyBytesConcat(sz, behind, current);
      BodyBytesConcat(sz, behind + current, [lines[0]] + tail);
      BodyBytesConcat(sz, [lines[0]], tail);
      SingleBytes(sz, lines[0]);
    }
  }

  lemma SingleBytes<T(!new)>(sz: Sizes<T>, line: T)
    ensures BodyBytes(sz, [line]) == sz.line(line) + 1
  {
    assert [line][..0] == [];
  }

  /** No way to cut the lines into admissible groups has fewer groups. */
  lemma BudgetSplitIsMinimal<T(!new)>(sz: Sizes<T>, max: nat, lines: seq<T>, rivals: seq<seq<T>>)
    requires forall g | g in rivals :: Admissible(sz, max, g)
    requires Flatten(rivals) == lines
    ensures |Greedy(sz, max, [], lines)| <= |rivals|
  {
    assert [] + [] + lines == lines;
    GreedyStaysAhead(sz, max, [], [], lines, rivals);
  }

  // ---------------------------------------------------------------------------------------------
  // The envelope
  // ---------------------------------------------------------------------------------------------

  /** Base64 of `body` bytes (section 4 of RFC 4648: four characters for every three bytes or part), and the reserve. */
  function EnvelopeBytes(body: nat): nat {
    4 * ((body + 2) / 3) + ENVELOPE_RESERVE
  }

  /** The most gzip can make of `bytes`. */
  function WorstCase(bytes: nat): nat {
    bytes + ((bytes + 16383) / 16384) * 5 + 64
  }

  predicate Accepted<T(!new)>(sz: Sizes<T>, max: nat, lines: seq<T>) {
    EnvelopeBytes(WorstCase(BodyBytes(sz, lines))) <= max || EnvelopeBytes(sz.gzip(lines)) <= max
  }

  ghost predicate GzipBounded<T(!new)>(sz: Sizes<T>) {
    forall lines: seq<T> :: sz.gzip(lines) <= WorstCase(BodyBytes(sz, lines))
  }

  datatype Split<T> = Split(groups: seq<seq<T>>, oversized: nat)

  function SplitByEnvelope<T(!new)>(sz: Sizes<T>, max: nat, lines: seq<T>): Split<T>
    requires lines != []
    decreases |lines|
  {
    if Accepted(sz, max, lines) then Split([lines], 0)
    else if |lines| == 1 then Split([], 1)
    else
      var middle := (|lines| + 1) / 2;
      var head := SplitByEnvelope(sz, max, lines[..middle]);
      var tail := SplitByEnvelope(sz, max, lines[middle..]);
      Split(head.groups + tail.groups, head.oversized + tail.oversized)
  }

  /** `got` is `full` in order without `n` lines, each of which is unacceptable on its own. */
  ghost predicate Thinned<T(!new)>(sz: Sizes<T>, max: nat, full: seq<T>, got: seq<T>, n: nat)
    decreases |full|
  {
    if full == [] then got == [] && n == 0
    else
      || (got != [] && got[0] == full[0] && Thinned(sz, max, full[1..], got[1..], n))
      || (n > 0 && !Accepted(sz, max, [full[0]]) && Thinned(sz, max, full[1..], got, n - 1))
  }

  lemma {:induction false} ThinnedConcat<T(!new)>(sz: Sizes<T>, max: nat, a: seq<T>, a': seq<T>, m: nat, b: seq<T>, b': seq<T>, n: nat)
    requires Thinned(sz, max, a, a', m) && Thinned(sz, max, b, b', n)
    ensures Thinned(sz, max, a + b, a' + b', m + n)
    decreases |a|
  {
    if a == [] {
      assert a + b == b && a' + b' == b';
    } else {
      assert (a + b)[1..] == a[1..] + b;
      if a' != [] && a'[0] == a[0] && Thinned(sz, max, a[1..], a'[1..], m) {
        assert (a' + b')[1..] == a'[1..] + b';
        ThinnedConcat(sz, max, a[1..], a'[1..], m, b, b', n);
      } else {
        ThinnedConcat(sz, max, a[1..], a', m - 1, b, b', n);
      }
    }
  }

  lemma {:induction false} ThinnedSelf<T(!new)>(sz: Sizes<T>, max: nat, lines: seq<T>)
    ensures Thinned(sz, max, lines, lines, 0)
    decreases |lines|
  {
    if lines != [] { ThinnedSelf(sz, max, lines[1..]); }
  }

  /** Every group of a split is non-empty and within the envelope once compressed and encoded. */
  ghost predicate Sendable<T(!new)>(sz: Sizes<T>, max: nat, groups: seq<seq<T>>) {
    forall g | g in groups :: g != [] && EnvelopeBytes(sz.gzip(g)) <= max
  }

  lemma AcceptedIsSendable<T(!new)>(sz: Sizes<T>, max: nat, lines: seq<T>)
    requires lines != [] && GzipBounded(sz) && Accepted(sz, max, lines)
    ensures Sendable(sz, max, [lines]) && Thinned(sz, max, lines, Flatten([lines]), 0)
  {
    ThinnedSelf(sz, max, lines);
    assert Flatten([lines]) == lines + Flatten([]) == lines;
    assert sz.gzip(lines) <= WorstCase(BodyBytes(sz, lines));
    EnvelopeMonotone(sz.gzip(lines), WorstCase(BodyBytes(sz, lines)));
  }

  /** Within gzip's bound, the test with the worst case first decides no more and no less than the compressed size does. */
  lemma AcceptedExactly<T(!new)>(sz: Sizes<T>, max: nat, lines: seq<T>)
    requires GzipBounded(sz)
    ensures Accepted(sz, max, lines) <==> EnvelopeBytes(sz.gzip(lines)) <= max
  {
    assert sz.gzip(lines) <= WorstCase(BodyBytes(sz, lines));
    EnvelopeMonotone(sz.gzip(lines), WorstCase(BodyBytes(sz, lines)));
  }

  /** The envelope is the reserve and the fewest groups of four characters that hold the body's bits. */
  lemma EnvelopeHoldsBody(body: nat)
    ensures var characters := EnvelopeBytes(body) - ENVELOPE_RESERVE;
            characters % 4 == 0 && 6 * characters >= 8 * body && (body > 0 ==> 6 * (characters - 4) < 8 * body) && (body == 0 ==> characters == 0)
  {
  }

  ghost predicate SplitOk<T(!new)>(sz: Sizes<T>, max: nat, lines: seq<T>, split: Split<T>) {
    Thinned(sz, max, lines, Flatten(split.groups), split.oversized) && Sendable(sz, max, split.groups)
  }

  lemma JoinSound<T(!new)>(sz: Sizes<T>, max: nat, left: seq<T>, right: seq<T>, head: Split<T>, tail: Split<T>)
    requires SplitOk(sz, max, left, head) && SplitOk(sz, max, right, tail)
    ensures SplitOk(sz, max, left + right, Split(head.groups + tail.groups, head.oversized + tail.oversized))
  {
    FlattenConcat(head.groups, tail.groups);
    ThinnedConcat(sz, max, left, Flatten(head.groups), head.oversized, right, Flatten(tail.groups), tail.oversized);
  }

  /** The split keeps the order, leaves out only lines no upload could carry, counts them, and emits only
      groups within the envelope. */
  lemma {:induction false} EnvelopeSplitSound<T(!new)>(sz: Sizes<T>, max: nat, lines: seq<T>)
    requires lines != [] && GzipBounded(sz)
    ensures SplitOk(sz, max, lines, SplitByEnvelope(sz, max, lines))
    decreases |lines|
  {
    if Accepted(sz, max, lines) {
      AcceptedIsSendable(sz, max, lines);
    } else if |lines| == 1 {
      LeftOut(sz, max, lines);
    } else {
      var middle, head, tail := SplitHalves(sz, max, lines);
      EnvelopeSplitSound(sz, max, lines[..middle]);
      EnvelopeSplitSound(sz, max, lines[middle..]);
      JoinSound(sz, max, lines[..middle], lines[middle..], head, tail);
    }
  }

  lemma LeftOut<T(!new)>(sz: Sizes<T>, max: nat, lines: seq<T>)
    requires |lines| == 1 && !Accepted(sz, max, lines)
    ensures SplitOk(sz, max, lines, SplitByEnvelope(sz, max, lines))
  {
    assert lines == [lines[0]];
    assert Thinned(sz, max, lines[1..], [], 0);
  }

  lemma SplitHalves<T(!new)>(sz: Sizes<T>, max: nat, lines: seq<T>) returns (middle: nat, head: Split<T>, tail: Split<T>)
    requires |lines| > 1 && !Accepted(sz, max, lines)
    ensures 0 < middle < |lines| && lines[..middle] + lines[middle..] == lines
    ensures head == SplitByEnvelope(sz, max, lines[..middle]) && tail == SplitByEnvelope(sz, max, lines[middle..])
    ensures SplitByEnvelope(sz, max, lines) == Split(head.groups + tail.groups, head.oversized + tail.oversized)
  {
    middle := (|lines| + 1) / 2;
    head, tail := SplitByEnvelope(sz, max, lines[..middle]), SplitByEnvelope(sz, max, lines[middle..]);
  }

  lemma EnvelopeMonotone(a: nat, b: nat)
    requires a <= b
    ensures EnvelopeBytes(a) <= EnvelopeBytes(b)
  {
    assert (a + 2) / 3 <= (b + 2) / 3;
  }

  /** When every line fits alone, nothing is left out. */
  lemma {:induction false} NothingLeftOut<T(!new)>(sz: Sizes<T>, max: nat, full: seq<T>, got: seq<T>, n: nat)
    requires Thinned(sz, max, full, got, n) && forall l | l in full :: Accepted(sz, max, [l])
    ensures got == full && n == 0
    decreases |full|
  {
    if full != [] { NothingLeftOut(sz, max, full[1..], got[1..], n); }
  }
}
