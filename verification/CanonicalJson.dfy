/** The canonical text of a JSON value: `canonical` of
    clients/codex/plugins/skillmeter/scripts/lib/compaction-projection.js, and why two values have the same
    text only when they are equal up to the order of object keys. */
module CanonicalJson {
  import opened Options
  import opened Seqs

  /** JSON values. An object is a map, so equal values are equal up to key order; a number is its shortest
      text, as `JSON.stringify` writes it. */
  datatype Json =
    | Null
    | Bool(b: bool)
    | Num(text: NumText)
    | Str(s: string)
    | Arr(items: seq<Json>)
    | Obj(members: map<string, Json>)

  predicate NumChar(c: char) {
    '0' <= c <= '9' || c == '-' || c == '+' || c == '.' || c == 'e'
  }

  type NumText = t: string | t != "" && (t[0] == '-' || '0' <= t[0] <= '9') && forall i | 0 <= i < |t| :: NumChar(t[i]) witness "0"

  // ---- Strings ----

  const BACKSLASH: char := 92 as char

  function HexDigit(n: nat): char
    requires n < 16
  {
    if n < 10 then (n + 48) as char else (n + 87) as char
  }

  /** A character as `JSON.stringify` writes it inside a string. */
  function Escape(c: char): (e: string) {
    var n := c as int;
    if n == 34 || n == 92 then [BACKSLASH, c]
    else if n == 8 then [BACKSLASH, 'b']
    else if n == 9 then [BACKSLASH, 't']
    else if n == 10 then [BACKSLASH, 'n']
    else if n == 12 then [BACKSLASH, 'f']
    else if n == 13 then [BACKSLASH, 'r']
    else if n < 32 then [BACKSLASH, 'u', '0', '0', HexDigit(n / 16), HexDigit(n % 16)]
    else [c]
  }

  function Escaped(s: string): string {
    if s == "" then "" else Escape(s[0]) + Escaped(s[1..])
  }

  function Quote(s: string): string {
    "\"" + Escaped(s) + "\""
  }

  // ---- Reading it back ----

  function HexValue(c: char): Option<nat> {
    if '0' <= c <= '9' then Some(c as nat - 48)
    else if 'a' <= c <= 'f' then Some(c as nat - 87)
    else if 'A' <= c <= 'F' then Some(c as nat - 55)
    else None
  }

  /** The character a short escape stands for (section 7 of RFC 8259). */
  function ShortEscape(c: char): Option<char> {
    match c
    case '"' => Some('"')
    case '\\' => Some(BACKSLASH)
    case '/' => Some('/')
    case 'b' => Some(8 as char)
    case 'f' => Some(12 as char)
    case 'n' => Some(10 as char)
    case 'r' => Some(13 as char)
    case 't' => Some(9 as char)
    case _ => None
  }

  /** The first character of an escaped text, and how much of the text it takes. Escapes above ASCII are not needed here. */
  function FirstRead(text: string): (read: Option<(char, nat)>)
    requires text != ""
    ensures read.Some? ==> 1 <= read.value.1 <= |text|
  {
    if text[0] == '"' || (text[0] as int) < 32 then None
    else if text[0] != BACKSLASH then Some((text[0], 1))
    else if |text| == 1 then None
    else if text[1] == 'u' then
      if |text| < 6 || text[2] != '0' || text[3] != '0' then None
      else
        match (HexValue(text[4]), HexValue(text[5]))
        case (Some(high), Some(low)) => if 16 * high + low < 128 then Some(((16 * high + low) as char, 6)) else None
        case _ => None
    else
      match ShortEscape(text[1])
      case Some(c) => Some((c, 2))
      case None => None
  }

  function ReadBack(text: string): Option<string>
    decreases |text|
  {
    if text == "" then Some("")
    else
      match FirstRead(text)
      case None => None
      case Some((c, n)) =>
        match ReadBack(text[n..])
        case None => None
        case Some(rest) => Some([c] + rest)
  }

  lemma EscapeRead(c: char, after: string)
    ensures FirstRead(Escape(c) + after) == Some((c, |Escape(c)|))
  {
    var e, n := Escape(c), c as int;
    assert forall i | 0 <= i < |e| :: (e + after)[i] == e[i];
    if |e| == 6 {
      HexRead(n / 16);
      HexRead(n % 16);
      assert (e + after)[2] == '0' && (e + after)[3] == '0' && (e + after)[4] == HexDigit(n / 16) && (e + after)[5] == HexDigit(n % 16);
    }
  }

  lemma HexRead(n: nat)
    requires n < 16
    ensures HexValue(HexDigit(n)) == Some(n)
  {
  }

  /** A JSON reader makes of the escaped text of a string that string. */
  lemma {:induction false} EscapedReadsBack(s: string)
    ensures ReadBack(Escaped(s)) == Some(s)
  {
    if s != "" {
      EscapeRead(s[0], Escaped(s[1..]));
      EscapedReadsBack(s[1..]);
      var e, rest := Escape(s[0]), Escaped(s[1..]);
      assert Escaped(s) == e + rest && (e + rest)[|e|..] == rest && [s[0]] + s[1..] == s;
    }
  }

  /** An escape is never the beginning of another one. */
  lemma EscapeSplits(c: char, d: char, a: string, b: string)
    requires Escape(c) + a == Escape(d) + b
    ensures c == d && a == b
  {
    var x, y := Escape(c), Escape(d);
    assert (x + a)[0] == x[0] && (y + b)[0] == y[0];
    if |x| >= 2 {
      assert (x + a)[1] == x[1];
      if |y| >= 2 { assert (y + b)[1] == y[1]; }
    }
    if |x| == 6 && |y| == 6 {
      assert (x + a)[4] == x[4] && (y + b)[4] == y[4];
      assert (x + a)[5] == x[5] && (y + b)[5] == y[5];
    }
    assert |x| == |y|;
    assert a == (x + a)[|x|..] && b == (y + b)[|y|..];
  }

  /** The rest of a quoted text, with what follows it. */
  function Rest(s: string, after: string): string {
    Escaped(s) + "\"" + after
  }

  lemma RestUnfolds(s: string, after: string)
    ensures s == "" ==> Rest(s, after) == "\"" + after
    ensures s != "" ==> Rest(s, after) == Escape(s[0]) + Rest(s[1..], after) && Rest(s, after)[0] != '"'
  {
    if s != "" { assert Escape(s[0])[0] != '"'; }
  }

  lemma {:induction false} QuotedSplits(s: string, t: string, a: string, b: string)
    requires Rest(s, a) == Rest(t, b)
    ensures s == t && a == b
  {
    RestUnfolds(s, a);
    RestUnfolds(t, b);
    if s == "" {
      assert Rest(s, a)[0] == '"';
      assert a == Rest(s, a)[1..] && b == ("\"" + b)[1..];
    } else if t == "" {
      assert false;
    } else {
      EscapeSplits(s[0], t[0], Rest(s[1..], a), Rest(t[1..], b));
      QuotedSplits(s[1..], t[1..], a, b);
    }
  }

  // ---- Key order ----

  /** The place of a character in the order of UTF-16 units: supplementary characters come before U+E000. */
  function Rank(c: char): int {
    var n := c as int;
    if 0xE000 <= n < 0x10000 then n + 0x110000 else n
  }

  /** The UTF-16 units of a character. */
  function Units(c: char): seq<nat> {
    var n := c as int;
    if n < 0x10000 then [n] else [0xD800 + (n - 0x10000) / 0x400, 0xDC00 + (n - 0x10000) % 0x400]
  }

  predicate UnitsBefore(a: seq<nat>, b: seq<nat>) {
    b != [] && (a == [] || a[0] < b[0] || (a[0] == b[0] && UnitsBefore(a[1..], b[1..])))
  }

  lemma RankIsUnitOrder(c: char, d: char)
    ensures Rank(c) < Rank(d) <==> UnitsBefore(Units(c), Units(d))
  {
    var a, b := Units(c), Units(d);
    if |a| == 2 && |b| == 2 {
      assert a[1..] == [a[1]] && b[1..] == [b[1]];
      assert UnitsBefore(a[1..], b[1..]) <==> a[1] < b[1];
      HalvesOrder(c as int - 0x10000, d as int - 0x10000);
    }
  }

  lemma HalvesOrder(m: nat, n: nat)
    ensures m < n <==> m / 0x400 < n / 0x400 || (m / 0x400 == n / 0x400 && m % 0x400 < n % 0x400)
  {
  }

  predicate AtMost(a: string, b: string) {
    if a == "" then true
    else if b == "" then false
    else if a[0] != b[0] then Rank(a[0]) < Rank(b[0])
    else AtMost(a[1..], b[1..])
  }

  lemma {:induction false} AtMostTotal(a: string, b: string)
    ensures AtMost(a, b) || AtMost(b, a)
    ensures AtMost(a, b) && AtMost(b, a) ==> a == b
  {
    if a != "" && b != "" && a[0] == b[0] { AtMostTotal(a[1..], b[1..]); }
  }

  lemma {:induction false} AtMostTransitive(a: string, b: string, c: string)
    requires AtMost(a, b) && AtMost(b, c)
    ensures AtMost(a, c)
  {
    if a != "" && a[0] == b[0] && b[0] == c[0] { AtMostTransitive(a[1..], b[1..], c[1..]); }
  }

  predicate Least(k: string, keys: set<string>) {
    k in keys && forall j | j in keys :: AtMost(k, j)
  }

  lemma {:induction false} HasLeast(keys: set<string>) returns (k: string)
    requires keys != {}
    ensures Least(k, keys)
    decreases |keys|
  {
    var any :| any in keys;
    var rest := keys - {any};
    AtMostTotal(any, any);
    assert forall j | j in keys :: j == any || j in rest;
    if rest == {} {
      k := any;
    } else {
      k := HasLeast(rest);
      AtMostTotal(any, k);
      if AtMost(any, k) {
        forall j | j in rest ensures AtMost(any, j) { AtMostTransitive(any, k, j); }
        k := any;
      }
      assert AtMost(k, any);
    }
  }

  lemma OneLeast(keys: set<string>)
    ensures forall j, k | Least(j, keys) && Least(k, keys) :: j == k
    ensures keys != {} ==> exists k :: Least(k, keys)
  {
    forall j, k | Least(j, keys) && Least(k, keys) ensures j == k { AtMostTotal(j, k); }
    if keys != {} { var k := HasLeast(keys); }
  }

  /** The keys in order. */
  function SortedKeys(keys: set<string>): (sorted: seq<string>)
    ensures forall k :: k in sorted <==> k in keys
    decreases |keys|
  {
    if keys == {} then []
    else
      OneLeast(keys);
      var k :| Least(k, keys);
      [k] + SortedKeys(keys - {k})
  }

  // ---- The canonical text ----

  function Canonical(v: Json): string
    decreases v, 1, 0
  {
    match v
    case Null => "null"
    case Bool(b) => if b then "true" else "false"
    case Num(text) => text
    case Str(s) => Quote(s)
    case Arr(items) => "[" + Joined(items) + "]"
    case Obj(members) => "{" + Members(v, SortedKeys(members.Keys)) + "}"
  }

  /** Items joined by commas. */
  function Joined(items: seq<Json>): string
    decreases items, 0, 0
  {
    if items == [] then ""
    else if |items| == 1 then Canonical(items[0])
    else Canonical(items[0]) + "," + Joined(items[1..])
  }

  /** Members joined by commas, in the order of `keys`. */
  function Members(v: Json, keys: seq<string>): string
    requires v.Obj? && forall k | k in keys :: k in v.members
    decreases v, 0, |keys|
  {
    if keys == [] then ""
    else if |keys| == 1 then Member(v, keys[0])
    else Member(v, keys[0]) + "," + Members(v, keys[1..])
  }

  function Member(v: Json, key: string): string
    requires v.Obj? && key in v.members
    decreases v, 0, 0
  {
    Quote(key) + ":" + Canonical(v.members[key])
  }

  /** What may follow a value in a text: nothing, or the character that ends it. */
  predicate Delimited(rest: string) {
    rest == "" || rest[0] == ',' || rest[0] == ']' || rest[0] == '}'
  }

  predicate StartsAs(c: char, v: Json) {
    match v
    case Null => c == 'n'
    case Bool(b) => c == if b then 't' else 'f'
    case Num(text) => c == '-' || '0' <= c <= '9'
    case Str(_) => c == '"'
    case Arr(_) => c == '['
    case Obj(_) => c == '{'
  }

  lemma Starts(v: Json)
    ensures Canonical(v) != "" && StartsAs(Canonical(v)[0], v)
  {
  }

  lemma NumberSplits(t: NumText, u: NumText, a: string, b: string)
    requires t + a == u + b && Delimited(a) && Delimited(b)
    ensures t == u && a == b
  {
    assert forall i | 0 <= i < |u| :: (u + b)[i] == u[i];
    assert forall i | 0 <= i < |t| :: (t + a)[i] == t[i];
    assert a != "" ==> (t + a)[|t|] == a[0];
    assert b != "" ==> (u + b)[|u|] == b[0];
    assert |t| == |u|;
    assert t == (t + a)[..|t|] && u == (u + b)[..|u|];
    assert a == (t + a)[|t|..] && b == (u + b)[|u|..];
  }

  // ---- Unique reading ----

  lemma KindsDiffer(v: Json, w: Json, a: string, b: string)
    requires Canonical(v) + a == Canonical(w) + b
    ensures v.Null? <==> w.Null?
    ensures v.Bool? <==> w.Bool?
    ensures v.Num? <==> w.Num?
    ensures v.Str? <==> w.Str?
    ensures v.Arr? <==> w.Arr?
    ensures v.Obj? <==> w.Obj?
    ensures v.Bool? ==> v == w
  {
    Starts(v);
    Starts(w);
    assert Canonical(v)[0] == (Canonical(v) + a)[0] && Canonical(w)[0] == (Canonical(w) + b)[0];
  }

  /** The rest of an array's text after its bracket, with what follows it; and the same after one item. */
  function ItemsRest(items: seq<Json>, after: string): string {
    Joined(items) + "]" + after
  }

  function ItemsMore(items: seq<Json>, after: string): string {
    if items == [] then "]" + after else "," + ItemsRest(items, after)
  }

  function MembersRest(v: Json, keys: seq<string>, after: string): string
    requires v.Obj? && forall k | k in keys :: k in v.members
  {
    Members(v, keys) + "}" + after
  }

  function MembersMore(v: Json, keys: seq<string>, after: string): string
    requires v.Obj? && forall k | k in keys :: k in v.members
  {
    if keys == [] then "}" + after else "," + MembersRest(v, keys, after)
  }

  lemma StringUnfolds(s: string, after: string)
    ensures Canonical(Str(s)) + after == "\"" + Rest(s, after)
  {
  }

  lemma ArrayUnfolds(items: seq<Json>, after: string)
    ensures Canonical(Arr(items)) + after == "[" + ItemsRest(items, after)
  {
  }

  lemma ObjectUnfolds(v: Json, after: string)
    requires v.Obj?
    ensures Canonical(v) + after == "{" + MembersRest(v, SortedKeys(v.members.Keys), after)
  {
  }

  lemma ItemsUnfold(items: seq<Json>, after: string)
    ensures items == [] ==> ItemsRest(items, after) == "]" + after
    ensures items != [] ==> ItemsRest(items, after) == Canonical(items[0]) + ItemsMore(items[1..], after) && ItemsRest(items, after)[0] != ']'
    ensures Delimited(ItemsMore(items, after))
  {
    if items != [] {
      Starts(items[0]);
      var text, more := Canonical(items[0]), ItemsMore(items[1..], after);
      if |items| > 1 {
        Regroup(text, ",", Joined(items[1..]), "]" + after);
        Assoc(text + "," + Joined(items[1..]), "]", after);
        Assoc(Joined(items[1..]), "]", after);
      } else {
        Assoc(text, "]", after);
      }
      assert (text + more)[0] == text[0];
    }
  }

  lemma MembersUnfold(v: Json, keys: seq<string>, after: string)
    requires v.Obj? && forall k | k in keys :: k in v.members
    ensures keys == [] ==> MembersRest(v, keys, after) == "}" + after
    ensures keys != [] ==> MembersRest(v, keys, after) ==
                           "\"" + Rest(keys[0], ":" + (Canonical(v.members[keys[0]]) + MembersMore(v, keys[1..], after)))
    ensures Delimited(MembersMore(v, keys, after))
  {
    if keys != [] {
      FirstMember(v, keys, after);
      MemberUnfolds(v, keys[0], MembersMore(v, keys[1..], after));
    }
  }

  lemma FirstMember(v: Json, keys: seq<string>, after: string)
    requires v.Obj? && keys != [] && forall k | k in keys :: k in v.members
    ensures MembersRest(v, keys, after) == Member(v, keys[0]) + MembersMore(v, keys[1..], after)
  {
    var first, more := Member(v, keys[0]), keys[1..];
    if |keys| > 1 {
      Regroup(first, ",", Members(v, more), "}" + after);
      Assoc(first + "," + Members(v, more), "}", after);
      Assoc(Members(v, more), "}", after);
    } else {
      Assoc(first, "}", after);
    }
  }

  lemma MemberUnfolds(v: Json, key: string, more: string)
    requires v.Obj? && key in v.members
    ensures Member(v, key) + more == "\"" + Rest(key, ":" + (Canonical(v.members[key]) + more))
  {
    QuoteUnfolds(key, Canonical(v.members[key]), more);
  }

  lemma QuoteUnfolds(key: string, text: string, more: string)
    ensures Quote(key) + ":" + text + more == "\"" + Rest(key, ":" + (text + more))
  {
    Regroup(Quote(key), ":", text, more);
    Regroup("\"", Escaped(key), "\"", ":" + (text + more));
    Assoc(Escaped(key), "\"", ":" + (text + more));
  }

  lemma Regroup(a: string, b: string, c: string, d: string)
    ensures a + b + c + d == a + (b + (c + d))
  {
  }

  lemma SameHead(head: string, a: string, b: string)
    requires head + a == head + b
    ensures a == b
  {
    assert a == (head + a)[|head|..] && b == (head + b)[|head|..];
  }

  lemma HeadsDiffer(c: char, d: char, a: string, b: string)
    requires [c] + a == [d] + b
    ensures c == d
  {
    assert ([c] + a)[0] == c && ([d] + b)[0] == d;
  }

  /** A value's text can be read off any text it begins in only one way. */
  lemma {:induction false} ValueSplits(v: Json, w: Json, a: string, b: string)
    requires Canonical(v) + a == Canonical(w) + b && Delimited(a) && Delimited(b)
    ensures v == w && a == b
    decreases v, 1, 0
  {
    KindsDiffer(v, w, a, b);
    match v
    case Null => SameHead("null", a, b);
    case Bool(_) => SameHead(Canonical(v), a, b);
    case Num(text) => NumberSplits(text, w.text, a, b);
    case Str(s) => StringSplits(s, w.s, a, b);
    case Arr(items) =>
      ArrayUnfolds(items, a);
      ArrayUnfolds(w.items, b);
      SameHead("[", ItemsRest(items, a), ItemsRest(w.items, b));
      ItemsSplit(items, w.items, a, b);
    case Obj(members) =>
      var ks, ls := SortedKeys(members.Keys), SortedKeys(w.members.Keys);
      ObjectUnfolds(v, a);
      ObjectUnfolds(w, b);
      SameHead("{", MembersRest(v, ks, a), MembersRest(w, ls, b));
      MembersSplit(v, w, ks, ls, a, b);
      SameMembers(v, w);
  }

  lemma StringSplits(s: string, t: string, a: string, b: string)
    requires Canonical(Str(s)) + a == Canonical(Str(t)) + b
    ensures s == t && a == b
  {
    StringUnfolds(s, a);
    StringUnfolds(t, b);
    SameHead("\"", Rest(s, a), Rest(t, b));
    QuotedSplits(s, t, a, b);
  }

  lemma SameMembers(v: Json, w: Json)
    requires v.Obj? && w.Obj? && SortedKeys(v.members.Keys) == SortedKeys(w.members.Keys)
    requires forall k | k in SortedKeys(v.members.Keys) :: k in v.members && k in w.members && v.members[k] == w.members[k]
    ensures v == w
  {
    assert forall k :: k in v.members.Keys <==> k in SortedKeys(v.members.Keys);
    assert forall k :: k in w.members.Keys <==> k in SortedKeys(w.members.Keys);
    assert v.members == w.members;
  }

  lemma {:induction false} ItemsSplit(xs: seq<Json>, ys: seq<Json>, a: string, b: string)
    requires ItemsRest(xs, a) == ItemsRest(ys, b)
    ensures xs == ys && a == b
    decreases xs, 0, 0
  {
    BothOrNeither(xs, ys, a, b);
    ItemsUnfold(xs, a);
    ItemsUnfold(ys, b);
    if xs == [] {
      SameHead("]", a, b);
    } else {
      var moreX, moreY := ItemsMore(xs[1..], a), ItemsMore(ys[1..], b);
      ItemsUnfold(xs[1..], a);
      ItemsUnfold(ys[1..], b);
      ValueSplits(xs[0], ys[0], moreX, moreY);
      MoreItemsSplit(xs[1..], ys[1..], a, b);
      SameParts(xs, ys);
    }
  }

  lemma SameParts<T>(xs: seq<T>, ys: seq<T>)
    requires xs != [] && ys != [] && xs[0] == ys[0] && xs[1..] == ys[1..]
    ensures xs == ys
  {
    assert xs == [xs[0]] + xs[1..] && ys == [ys[0]] + ys[1..];
  }

  lemma BothOrNeither(xs: seq<Json>, ys: seq<Json>, a: string, b: string)
    requires ItemsRest(xs, a) == ItemsRest(ys, b)
    ensures xs == [] <==> ys == []
  {
    ItemsUnfold(xs, a);
    ItemsUnfold(ys, b);
  }

  lemma {:induction false} MoreItemsSplit(xs: seq<Json>, ys: seq<Json>, a: string, b: string)
    requires ItemsMore(xs, a) == ItemsMore(ys, b)
    ensures xs == ys && a == b
    decreases xs, 1, 0
  {
    if xs != [] && ys != [] {
      SameHead(",", ItemsRest(xs, a), ItemsRest(ys, b));
      ItemsSplit(xs, ys, a, b);
    } else if xs == [] && ys == [] {
      SameHead("]", a, b);
    } else if xs == [] {
      HeadsDiffer(']', ',', a, ItemsRest(ys, b));
    } else {
      HeadsDiffer(',', ']', ItemsRest(xs, a), b);
    }
  }

  lemma {:induction false} MembersSplit(v: Json, w: Json, ks: seq<string>, ls: seq<string>, a: string, b: string)
    requires v.Obj? && w.Obj? && (forall k | k in ks :: k in v.members) && (forall k | k in ls :: k in w.members)
    requires MembersRest(v, ks, a) == MembersRest(w, ls, b)
    ensures ks == ls && a == b && forall k | k in ks :: k in w.members && v.members[k] == w.members[k]
    decreases v, 0, 2 * |ks|
  {
    MembersUnfold(v, ks, a);
    MembersUnfold(w, ls, b);
    if ks == [] && ls == [] {
      SameHead("}", a, b);
    } else if ks != [] && ls != [] {
      var x, y := v.members[ks[0]], w.members[ls[0]];
      var moreX, moreY := MembersMore(v, ks[1..], a), MembersMore(w, ls[1..], b);
      SameHead("\"", Rest(ks[0], ":" + (Canonical(x) + moreX)), Rest(ls[0], ":" + (Canonical(y) + moreY)));
      QuotedSplits(ks[0], ls[0], ":" + (Canonical(x) + moreX), ":" + (Canonical(y) + moreY));
      SameHead(":", Canonical(x) + moreX, Canonical(y) + moreY);
      MembersUnfold(v, ks[1..], a);
      MembersUnfold(w, ls[1..], b);
      ValueSplits(x, y, moreX, moreY);
      MoreMembersSplit(v, w, ks[1..], ls[1..], a, b);
      SameParts(ks, ls);
      assert forall k | k in ks :: k == ks[0] || k in ks[1..];
    }
  }

  lemma {:induction false} MoreMembersSplit(v: Json, w: Json, ks: seq<string>, ls: seq<string>, a: string, b: string)
    requires v.Obj? && w.Obj? && (forall k | k in ks :: k in v.members) && (forall k | k in ls :: k in w.members)
    requires MembersMore(v, ks, a) == MembersMore(w, ls, b)
    ensures ks == ls && a == b && forall k | k in ks :: k in w.members && v.members[k] == w.members[k]
    decreases v, 0, 2 * |ks| + 1
  {
    if ks != [] && ls != [] {
      SameHead(",", MembersRest(v, ks, a), MembersRest(w, ls, b));
      MembersSplit(v, w, ks, ls, a, b);
    } else if ks == [] && ls == [] {
      SameHead("}", a, b);
    } else if ks == [] {
      HeadsDiffer('}', ',', a, MembersRest(w, ls, b));
    } else {
      HeadsDiffer(',', '}', MembersRest(v, ks, a), b);
    }
  }

  /** Two values have the same canonical text only when they are the same up to the order of their keys. */
  lemma CanonicalInjective(v: Json, w: Json)
    requires Canonical(v) == Canonical(w)
    ensures v == w
  {
    assert Canonical(v) + "" == Canonical(v) && Canonical(w) + "" == Canonical(w);
    ValueSplits(v, w, "", "");
  }
}
