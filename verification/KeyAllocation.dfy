/** The keys of a scrubbed object: the object branch of `scrubDeep` and `splitExtension` of
    shared/lib/sanitize.js. Two keys may scrub to the same text; the later one gets a numbered name. */
module KeyAllocation {

  // ---------------------------------------------------------------------------------------------
  // Extensions
  // ---------------------------------------------------------------------------------------------

  function LastIndexOf(s: string, c: char): (i: int)
    ensures -1 <= i < |s|
    ensures i >= 0 ==> s[i] == c
    ensures forall k | i < k < |s| :: s[k] != c
  {
    if s == "" then -1
    else if s[|s| - 1] == c then |s| - 1
    else LastIndexOf(s[..|s| - 1], c)
  }

  predicate AlphaNumeric(c: char) {
    'A' <= c <= 'Z' || 'a' <= c <= 'z' || '0' <= c <= '9'
  }

  /** A dot and one to ten letters or digits. */
  predicate SimpleExt(ext: string) {
    2 <= |ext| <= 11 && ext[0] == '.' && forall k | 1 <= k < |ext| :: AlphaNumeric(ext[k])
  }

  predicate EndsWith(s: string, end: string) {
    |end| <= |s| && s[|s| - |end|..] == end
  }

  /** The last `n` characters, or all of them. */
  function LastChars(s: string, n: nat): string {
    if n >= |s| then s else s[|s| - n..]
  }

  /** `splitExtension`: `lower` is the lower-casing, `compound` the compound extensions in order. */
  method SplitExtension(name: string, lower: string -> string, compound: seq<string>) returns (base: string, ext: string)
    ensures base + ext == name && |ext| == ExtOf(name, lower, compound)
  {
    var small := lower(name);
    if |small| > 0 && small[0] == '.' { return name, ""; }
    var i := FindCompound(small, compound);
    if i >= 0 {
      ext := LastChars(name, |compound[i]|);
      return name[..|name| - |ext|], ext;
    }
    base, ext := SplitAtLastDot(name);
  }

  method SplitAtLastDot(name: string) returns (base: string, ext: string)
    ensures base + ext == name && |ext| == LastExt(name)
  {
    var dot := LastIndexOf(name, '.');
    if dot <= 0 || dot == |name| - 1 { return name, ""; }
    ext := name[dot..];
    if !SimpleExt(ext) { return name, ""; }
    return name[..dot], ext;
  }

  ghost predicate CompoundExt(name: string, small: string, compound: seq<string>, ext: string) {
    exists i :: 0 <= i < |compound| && EndsWith(small, compound[i]) && ext == LastChars(name, |compound[i]|)
  }

  /** A dotfile has no extension; any other extension is a compound one the lower-cased name ends with, or a dot and
      one to ten letters or digits after at least one character. */
  lemma ExtensionKinds(name: string, lower: string -> string, compound: seq<string>, ext: string)
    requires ext == LastChars(name, ExtOf(name, lower, compound))
    ensures lower(name) != "" && lower(name)[0] == '.' ==> ext == ""
    ensures ext == "" || (SimpleExt(ext) && |ext| < |name|) || CompoundExt(name, lower(name), compound, ext)
  {
    var small := lower(name);
    var i := FirstCompound(small, compound);
    LastExtSimple(name);
    LastCharsAgain(name, if i >= 0 then |compound[i]| else 0);
    if i >= 0 { FirstCompoundEnds(small, compound); }
  }

  /** Where the simple extension begins: at a dot that is not the first character and has one to ten letters or digits behind
      it, up to the end. */
  predicate SimpleFrom(name: string, d: nat) {
    && 0 < d < |name| && name[d] == '.' && 1 <= |name| - d - 1 <= 10
    && forall k | d < k < |name| :: 'A' <= name[k] <= 'Z' || 'a' <= name[k] <= 'z' || '0' <= name[k] <= '9'
  }

  /** The name is longer than the compound extension and ends with it, in lower case. */
  predicate EndsCompound(small: string, ending: string) {
    |small| > |ending| && exists before :: before == small[..|small| - |ending|] && small == before + ending
  }

  /** A file name has exactly the extension the rules give: none for a dotfile; else the first compound one it ends with; else the
      simple one, if there is one. */
  lemma ExtensionExactly(name: string, lower: string -> string, compound: seq<string>)
    ensures var small, n := lower(name), ExtOf(name, lower, compound);
            if small != "" && small[0] == '.' then n == 0
            else if exists i :: 0 <= i < |compound| && EndsCompound(small, compound[i])
            then exists i :: 0 <= i < |compound| && EndsCompound(small, compound[i]) && (forall j | 0 <= j < i :: !EndsCompound(small, compound[j]))
                             && n == if |compound[i]| < |name| then |compound[i]| else |name|
            else (forall d: nat :: SimpleFrom(name, d) ==> n == |name| - d) && (n == 0 || SimpleFrom(name, |name| - n))
  {
    var small := lower(name);
    CompoundExactly(small, compound);
    SimpleExactly(name);
  }

  lemma {:induction false} CompoundExactly(small: string, compound: seq<string>)
    ensures var i := FirstCompound(small, compound);
            if i >= 0 then EndsCompound(small, compound[i]) && forall j | 0 <= j < i :: !EndsCompound(small, compound[j])
            else forall j | 0 <= j < |compound| :: !EndsCompound(small, compound[j])
  {
    if compound != [] {
      EndsEither(small, compound[0]);
      var rest := compound[1..];
      CompoundExactly(small, rest);
      assert forall j | 1 <= j < |compound| :: compound[j] == rest[j - 1];
    }
  }

  lemma EndsEither(small: string, ending: string)
    ensures EndsCompound(small, ending) <==> |small| > |ending| && EndsWith(small, ending)
  {
    if |small| > |ending| {
      var n := |small| - |ending|;
      assert small == small[..n] + small[n..];
    }
  }

  lemma SimpleExactly(name: string)
    ensures forall d: nat :: SimpleFrom(name, d) ==> LastExt(name) == |name| - d
    ensures LastExt(name) == 0 || SimpleFrom(name, |name| - LastExt(name))
  {
    var dot := LastIndexOf(name, '.');
    forall d: nat | SimpleFrom(name, d) ensures LastExt(name) == |name| - d {
      assert d == dot;
      assert forall k | 1 <= k < |name| - d :: name[d..][k] == name[d + k];
    }
    if LastExt(name) > 0 {
      assert forall k | dot < k < |name| :: name[k] == name[dot..][k - dot];
    }
  }

  lemma LastCharsAgain(name: string, n: nat)
    ensures LastChars(name, |LastChars(name, n)|) == LastChars(name, n)
    ensures LastChars(name, 0) == ""
  {
  }

  lemma LastExtSimple(name: string)
    ensures LastExt(name) > 0 ==> LastExt(name) < |name| && SimpleExt(LastChars(name, LastExt(name)))
  {
  }

  lemma {:induction false} FirstCompoundEnds(small: string, compound: seq<string>)
    requires FirstCompound(small, compound) >= 0
    ensures EndsWith(small, compound[FirstCompound(small, compound)])
  {
    if !(|small| > |compound[0]| && EndsWith(small, compound[0])) { FirstCompoundEnds(small, compound[1..]); }
  }

  /** The loop over the compound extensions. */
  method FindCompound(small: string, compound: seq<string>) returns (i: int)
    ensures i == FirstCompound(small, compound)
  {
    assert compound[0..] == compound;
    for k := 0 to |compound|
      invariant FirstCompound(small, compound) == (var rest := FirstCompound(small, compound[k..]); if rest == -1 then -1 else rest + k)
    {
      assert compound[k..][1..] == compound[k + 1..] && compound[k..][0] == compound[k];
      if |small| > |compound[k]| && EndsWith(small, compound[k]) { return k; }
    }
    return -1;
  }

  /** The first compound extension a name ends with, or -1. */
  function FirstCompound(small: string, compound: seq<string>): (i: int)
    ensures -1 <= i < |compound|
  {
    if compound == [] then -1
    else if |small| > |compound[0]| && EndsWith(small, compound[0]) then 0
    else
      var i := FirstCompound(small, compound[1..]);
      if i == -1 then -1 else i + 1
  }

  function LastExt(name: string): (n: nat)
    ensures n <= |name|
  {
    var dot := LastIndexOf(name, '.');
    if dot <= 0 || !SimpleExt(name[dot..]) then 0 else |name| - dot
  }

  function ExtOf(name: string, lower: string -> string, compound: seq<string>): (n: nat)
    ensures n <= |name|
  {
    var small := lower(name);
    if |small| > 0 && small[0] == '.' then 0
    else
      var i := FirstCompound(small, compound);
      if i == -1 then LastExt(name) else |LastChars(name, |compound[i]|)|
  }

  // ---------------------------------------------------------------------------------------------
  // Numbered names
  // ---------------------------------------------------------------------------------------------

  function Digit(d: nat): char
    requires d < 10
  {
    (d + 48) as char
  }

  function Decimal(n: nat): (s: string)
    ensures s != ""
  {
    if n < 10 then [Digit(n)] else Decimal(n / 10) + [Digit(n % 10)]
  }

  /** Different numbers are written differently. */
  lemma {:induction false} DecimalInjective(m: nat, n: nat)
    requires Decimal(m) == Decimal(n)
    ensures m == n
  {
    var s, t := Decimal(m), Decimal(n);
    assert s[|s| - 1] == Digit(m % 10) && t[|t| - 1] == Digit(n % 10);
    assert m % 10 == n % 10;
    if m >= 10 && n >= 10 {
      assert Decimal(m / 10) == s[..|s| - 1] && Decimal(n / 10) == t[..|t| - 1];
      DecimalInjective(m / 10, n / 10);
    } else {
      assert |s| == |t|;
    }
  }

  /** The name numbered `n` for a key whose extension has length `e`. */
  function Numbered(key: string, e: nat, n: nat): string
    requires e <= |key|
  {
    key[..|key| - e] + "[key-" + Decimal(n) + ("]" + key[|key| - e..])
  }

  lemma NumberedInjective(key: string, e: nat, m: nat, n: nat)
    requires e <= |key| && Numbered(key, e, m) == Numbered(key, e, n)
    ensures m == n
  {
    Between(key[..|key| - e] + "[key-", Decimal(m), "]" + key[|key| - e..], Numbered(key, e, m));
    Between(key[..|key| - e] + "[key-", Decimal(n), "]" + key[|key| - e..], Numbered(key, e, n));
    DecimalInjective(m, n);
  }

  /** What stands between a known beginning and a known end. */
  lemma Between(before: string, middle: string, after: string, whole: string)
    requires whole == before + middle + after
    ensures |whole| >= |before| + |after| && middle == whole[|before|..|whole| - |after|]
  {
  }

  /** Whatever finite set is taken, some numbered name from `start` on is free. */
  lemma {:induction false} FreeNumber(key: string, e: nat, taken: set<string>, start: nat) returns (n: nat)
    requires e <= |key|
    ensures n >= start && Numbered(key, e, n) !in taken
    decreases |taken|
  {
    var name := Numbered(key, e, start);
    if name !in taken {
      n := start;
    } else {
      n := FreeNumber(key, e, taken - {name}, start + 1);
      if Numbered(key, e, n) == name { NumberedInjective(key, e, n, start); }
    }
  }

  /** What a search from two upwards finds: the first free number. */
  ghost predicate FirstFree(key: string, e: nat, taken: set<string>, n: nat)
    requires e <= |key|
  {
    n >= 2 && Numbered(key, e, n) !in taken && forall k | 2 <= k < n :: Numbered(key, e, k) in taken
  }

  // ---------------------------------------------------------------------------------------------
  // The keys of an object
  // ---------------------------------------------------------------------------------------------

  /** The vocabulary extensions are read with. */
  datatype Vocabulary = Vocabulary(lower: string -> string, compound: seq<string>)

  /** The part of a key after its last slash or backslash. */
  function Basename(key: string): (name: string)
    ensures |name| <= |key|
  {
    var slash, back := LastIndexOf(key, '/'), LastIndexOf(key, '\\');
    key[(if slash >= back then slash else back) + 1..]
  }

  predicate Separator(c: char) {
    c == '/' || c == '\\'
  }

  predicate OneName(name: string) {
    forall i | 0 <= i < |name| :: !Separator(name[i])
  }

  predicate IsPath(path: string) {
    path == "" || Separator(path[|path| - 1])
  }

  /** The base name is the rest of a key behind its last separator: it has none itself, and what is before it is empty or ends
      with one. */
  lemma BasenameExactly(key: string, path: string, name: string)
    requires key == path + name && IsPath(path) && OneName(name)
    ensures Basename(key) == name
  {
    var slash, back := LastIndexOf(key, '/'), LastIndexOf(key, '\\');
    var cut := if slash >= back then slash else back;
    CutIs(key, path, name, slash, back, cut);
  }

  lemma CutIs(key: string, path: string, name: string, slash: int, back: int, cut: int)
    requires key == path + name && IsPath(path) && OneName(name)
    requires -1 <= slash < |key| && -1 <= back < |key| && cut == if slash >= back then slash else back
    requires (slash >= 0 ==> key[slash] == '/') && (back >= 0 ==> key[back] == '\\')
    requires (forall k | slash < k < |key| :: key[k] != '/') && forall k | back < k < |key| :: key[k] != '\\'
    ensures key[cut + 1..] == name
  {
    forall k | |path| <= k < |key| ensures !Separator(key[k]) { assert key[k] == name[k - |path|]; }
    assert cut >= 0 ==> Separator(key[cut]);
    if path != "" {
      assert Separator(key[|path| - 1]) && key[|path| - 1] == path[|path| - 1];
    }
    assert cut == |path| - 1;
  }

  function KeyExt(key: string, v: Vocabulary): (e: nat)
    ensures e <= |key|
  {
    ExtOf(Basename(key), v.lower, v.compound)
  }

  /** The names that may not be given out: every scrubbed key, and what was given out before. */
  function Taken(keys: seq<string>, names: seq<string>): set<string> {
    (set k | k in keys) + (set k | k in names)
  }

  /** The rule: the first holder of a key keeps it, a later one gets the first free number from two upwards. */
  ghost predicate NameRule(keys: seq<string>, names: seq<string>, i: nat, v: Vocabulary)
    requires i < |keys| && i < |names|
  {
    if keys[i] !in keys[..i] then names[i] == keys[i]
    else exists n :: NumberedFree(keys, names, i, v, n)
  }

  ghost predicate NumberedFree(keys: seq<string>, names: seq<string>, i: nat, v: Vocabulary, n: nat)
    requires i < |keys| && i < |names|
  {
    var e := KeyExt(keys[i], v);
    FirstFree(keys[i], e, Taken(keys, names[..i]), n) && names[i] == Numbered(keys[i], e, n)
  }

  ghost predicate Allocation(keys: seq<string>, names: seq<string>, v: Vocabulary) {
    |names| == |keys| && forall i | 0 <= i < |keys| :: NameRule(keys, names, i, v)
  }

  /** No two entries get one name. */
  lemma AllocationDistinct(keys: seq<string>, names: seq<string>, v: Vocabulary)
    requires Allocation(keys, names, v)
    ensures forall i, j | 0 <= i < j < |names| :: names[i] != names[j]
  {
    forall i, j | 0 <= i < j < |names| ensures names[i] != names[j] {
      assert NameRule(keys, names, i, v) && NameRule(keys, names, j, v);
      assert names[..j][i] == names[i] && keys[..j][i] == keys[i];
      assert names[i] in Taken(keys, names[..j]);
      assert keys[j] in Taken(keys, names[..i]);
    }
  }

  /** The rule leaves no choice. */
  lemma {:induction false} AllocationUnique(keys: seq<string>, a: seq<string>, b: seq<string>, v: Vocabulary, i: nat)
    requires Allocation(keys, a, v) && Allocation(keys, b, v) && i <= |keys|
    ensures a[..i] == b[..i]
  {
    if i > 0 {
      AllocationUnique(keys, a, b, v, i - 1);
      assert NameRule(keys, a, i - 1, v) && NameRule(keys, b, i - 1, v);
      if keys[i - 1] in keys[..i - 1] {
        var m: nat :| NumberedFree(keys, a, i - 1, v, m);
        var n: nat :| NumberedFree(keys, b, i - 1, v, n);
        assert m == n;
      }
      assert a[..i] == a[..i - 1] + [a[i - 1]] && b[..i] == b[..i - 1] + [b[i - 1]];
    }
  }

  /** What a cached next number promises: the ones below it are taken. */
  ghost predicate CacheOk(next: map<string, nat>, reserved: set<string>, v: Vocabulary) {
    forall k | k in next :: next[k] >= 2 && AllTaken(k, v, reserved, next[k])
  }

  ghost predicate AllTaken(key: string, v: Vocabulary, reserved: set<string>, upTo: nat) {
    forall n | 2 <= n < upTo :: Numbered(key, KeyExt(key, v), n) in reserved
  }

  /** The do-while: the first free number, searched from a number below which all are taken. */
  method NextName(key: string, v: Vocabulary, reserved: set<string>, start: nat) returns (name: string, next: nat)
    requires start >= 2 && AllTaken(key, v, reserved, start)
    ensures next >= 3 && FirstFree(key, KeyExt(key, v), reserved, next - 1)
    ensures name == Numbered(key, KeyExt(key, v), next - 1)
  {
    var e := KeyExt(key, v);
    ghost var free := FreeNumber(key, e, reserved, start);
    name, next := Numbered(key, e, start), start + 1;
    while name in reserved
      invariant 3 <= next <= free + 1 && name == Numbered(key, e, next - 1)
      invariant AllTaken(key, v, reserved, next - 1)
      decreases free - next
    {
      name, next := Numbered(key, e, next), next + 1;
    }
  }

  /** One entry's name: its key, or, when an earlier entry holds that, a numbered one. */
  method NameEntry(ghost keys: seq<string>, ghost names: seq<string>, ghost i: nat, key: string, held: bool, v: Vocabulary,
                   reserved: set<string>, nextOrdinal: map<string, nat>)
    returns (name: string, reserved': set<string>, nextOrdinal': map<string, nat>)
    requires |names| == i < |keys| && forall j | 0 <= j < i :: NameRule(keys, names, j, v)
    requires key == keys[i] && held == (key in names)
    requires reserved == Taken(keys, names) && CacheOk(nextOrdinal, reserved, v)
    ensures forall j | 0 <= j <= i :: NameRule(keys, names + [name], j, v)
    ensures name !in names
    ensures reserved' == Taken(keys, names + [name]) && CacheOk(nextOrdinal', reserved', v)
  {
    name, reserved', nextOrdinal' := key, reserved, nextOrdinal;
    HeldBefore(keys, names, i, v);
    ghost var n := 0;
    if held {
      var next;
      name, next := NextName(key, v, reserved, if key in nextOrdinal then nextOrdinal[key] else 2);
      n := next - 1;
      CacheGrows(nextOrdinal, reserved, v, key, next, name);
      nextOrdinal' := nextOrdinal[key := next];
      reserved' := reserved + {name};
    }
    NextNamed(keys, names, name, i, v, n);
  }

  /** The object branch of `scrubDeep`: `scrub` scrubs a key, `deep` a value under its original key. `names` lists
      the keys of the new object in the order of the entries. */
  method ScrubObject<V>(entries: seq<(string, V)>, scrub: string -> string, deep: (V, string) -> V, v: Vocabulary)
    returns (names: seq<string>, out: map<string, V>)
    ensures Allocation(ScrubbedKeys(entries, scrub), names, v)
    ensures forall i, j | 0 <= i < j < |names| :: names[i] != names[j]
    ensures |names| == |entries| && out.Keys == (set k | k in names)
    ensures forall i | 0 <= i < |entries| :: out[names[i]] == deep(entries[i].1, entries[i].0)
  {
    var keys := ScrubbedKeys(entries, scrub);
    var reserved := set k | k in keys;
    var nextOrdinal: map<string, nat> := map[];
    names, out := [], map[];
    for i := 0 to |entries|
      invariant |names| == i && out.Keys == (set k | k in names)
      invariant reserved == Taken(keys, names) && CacheOk(nextOrdinal, reserved, v)
      invariant forall j | 0 <= j < i :: NameRule(keys, names, j, v)
      invariant forall j | 0 <= j < i :: names[j] in out && out[names[j]] == deep(entries[j].1, entries[j].0)
    {
      var name;
      name, reserved, nextOrdinal := NameEntry(keys, names, i, keys[i], keys[i] in out, v, reserved, nextOrdinal);
      names := names + [name];
      out := out[name := deep(entries[i].1, entries[i].0)];
    }
    AllocationDistinct(keys, names, v);
  }

  lemma CacheGrows(next: map<string, nat>, reserved: set<string>, v: Vocabulary, key: string, n: nat, name: string)
    requires CacheOk(next, reserved, v) && n >= 3
    requires FirstFree(key, KeyExt(key, v), reserved, n - 1) && name == Numbered(key, KeyExt(key, v), n - 1)
    ensures CacheOk(next[key := n], reserved + {name}, v)
  {
    assert AllTaken(key, v, reserved + {name}, n);
    forall k | k in next ensures AllTaken(k, v, reserved + {name}, next[k]) { assert AllTaken(k, v, reserved, next[k]); }
  }

  function ScrubbedKeys<V>(entries: seq<(string, V)>, scrub: string -> string): (keys: seq<string>)
    ensures |keys| == |entries| && forall i | 0 <= i < |keys| :: keys[i] == scrub(entries[i].0)
  {
    seq(|entries|, i requires 0 <= i < |entries| => scrub(entries[i].0))
  }

  /** A scrubbed key is among the names given out exactly when an earlier entry had it. */
  lemma HeldBefore(keys: seq<string>, names: seq<string>, i: nat, v: Vocabulary)
    requires i < |keys| && |names| == i && forall j | 0 <= j < i :: NameRule(keys, names, j, v)
    ensures keys[i] in names <==> keys[i] in keys[..i]
  {
    if keys[i] in names {
      var j :| 0 <= j < i && names[j] == keys[i];
      assert NameRule(keys, names, j, v);
      assert keys[i] in Taken(keys, names[..j]);
      assert keys[..i][j] == keys[j];
    }
    if keys[i] in keys[..i] { FirstHolder(keys, names, keys[i], i, v); }
  }

  lemma {:induction false} FirstHolder(keys: seq<string>, names: seq<string>, key: string, i: nat, v: Vocabulary)
    requires i <= |keys| && i <= |names| && key in keys[..i]
    requires forall j | 0 <= j < i :: NameRule(keys, names, j, v)
    ensures key in names[..i]
  {
    if key in keys[..i - 1] {
      FirstHolder(keys, names, key, i - 1, v);
    } else {
      assert keys[..i] == keys[..i - 1] + [keys[i - 1]];
      assert NameRule(keys, names, i - 1, v) && names[..i][i - 1] == key;
    }
  }

  /** Giving the next entry its name by the rule keeps the rule for all, and gives out a new name. */
  lemma NextNamed(keys: seq<string>, names: seq<string>, name: string, i: nat, v: Vocabulary, n: nat)
    requires |names| == i < |keys| && forall j | 0 <= j < i :: NameRule(keys, names, j, v)
    requires if keys[i] !in keys[..i] then name == keys[i]
             else FirstFree(keys[i], KeyExt(keys[i], v), Taken(keys, names), n) && name == Numbered(keys[i], KeyExt(keys[i], v), n)
    ensures forall j | 0 <= j <= i :: NameRule(keys, names + [name], j, v)
    ensures name !in names
    ensures Taken(keys, names + [name]) == Taken(keys, names) + {name}
  {
    var after := names + [name];
    HeldBefore(keys, names, i, v);
    assert after[..i] == names;
    if keys[i] in keys[..i] { assert NumberedFree(keys, after, i, v, n); }
    forall j | 0 <= j < i ensures NameRule(keys, after, j, v) {
      assert NameRule(keys, names, j, v);
      assert after[..j] == names[..j] && after[j] == names[j];
      if keys[j] in keys[..j] {
        var m: nat :| NumberedFree(keys, names, j, v, m);
        assert NumberedFree(keys, after, j, v, m);
      }
    }
  }
}
