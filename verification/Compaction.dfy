/** References to earlier records in compacted histories: `createProjection` of
    clients/codex/plugins/skillmeter/scripts/lib/compaction-projection.js. */
module Compaction {
  import opened Options
  import opened CanonicalJson

  const MAX_ENTRIES: nat := 50000

  type Byte = b: int | 0 <= b < 256

  const NEWLINE: Byte := 10

  datatype Field = ReplacementHistory | GuardianHistory

  function FieldName(f: Field): string {
    if f.ReplacementHistory? then "replacement_history" else "guardian_history"
  }

  /** Where a value stands in a record: its payload, or an entry of one of its histories. */
  datatype Pointer = ToPayload | ToEntry(field: Field, index: nat)

  /** A record, named by its offset, and a pointer into it. */
  datatype Place = Place(offset: nat, pointer: Pointer)

  /** What decides whether a line may be read: the decoding and parsing of its bytes, the excluded byte ranges and
      the size bound. */
  datatype Reading = Reading(parse: seq<Byte> -> Option<Json>, excluded: seq<(nat, nat)>, maxRecord: nat)

  // ---------------------------------------------------------------------------------------------
  // Records
  // ---------------------------------------------------------------------------------------------

  function Get(v: Json, key: string): Option<Json> {
    if v.Obj? && key in v.members then Some(v.members[key]) else None
  }

  predicate HasType(record: Json, name: string) {
    Get(record, "type") == Some(Str(name))
  }

  /** A history of a record's payload, when it is an array. */
  function History(record: Json, f: Field): Option<seq<Json>> {
    match Get(record, "payload")
    case None => None
    case Some(payload) =>
      match Get(payload, FieldName(f))
      case Some(Arr(items)) => Some(items)
      case _ => None
  }

  function ValueAt(record: Json, p: Pointer): Option<Json> {
    match p
    case ToPayload => Get(record, "payload")
    case ToEntry(f, i) =>
      match History(record, f)
      case Some(items) => if i < |items| then Some(items[i]) else None
      case None => None
  }

  // ---------------------------------------------------------------------------------------------
  // The store of remembered values
  // ---------------------------------------------------------------------------------------------

  /** Canonical texts with the place of their first value, and the texts in the order they were put in. */
  datatype Store = Store(order: seq<string>, entries: map<string, Place>)

  const EMPTY: Store := Store([], map[])

  function Remembered(store: Store, value: Json, place: Place): Store {
    if !value.Obj? then store
    else
      var key := Canonical(value);
      if key in store.entries then store
      else
        var room := if |store.order| >= MAX_ENTRIES then Store(store.order[1..], store.entries - {store.order[0]}) else store;
        Store(room.order + [key], room.entries[key := place])
  }

  /** The entries of a history from number `i` on are remembered in turn. */
  function EntriesRemembered(store: Store, items: seq<Json>, f: Field, offset: nat, i: nat): Store
    requires i <= |items|
    decreases |items| - i
  {
    if i == |items| then store
    else EntriesRemembered(Remembered(store, items[i], Place(offset, ToEntry(f, i))), items, f, offset, i + 1)
  }

  function HistoryRemembered(store: Store, record: Json, f: Field, offset: nat): Store {
    match History(record, f)
    case Some(items) => EntriesRemembered(store, items, f, offset, 0)
    case None => store
  }

  function RecordRemembered(store: Store, record: Json, offset: nat): Store {
    var first := match Get(record, "payload")
                 case Some(payload) => if HasType(record, "response_item") then Remembered(store, payload, Place(offset, ToPayload)) else store
                 case None => store;
    if HasType(record, "compacted") then
      HistoryRemembered(HistoryRemembered(first, record, ReplacementHistory, offset), record, GuardianHistory, offset)
    else first
  }

  /** A line is read unless it overlaps an excluded range, is too long or does not parse. */
  function Readable(reading: Reading, raw: seq<Byte>, offset: nat): Option<Json> {
    if exists x :: x in reading.excluded && offset < x.1 && offset + |raw| > x.0 then None
    else if |raw| > reading.maxRecord then None
    else reading.parse(raw)
  }

  function Indexed(store: Store, reading: Reading, raw: seq<Byte>, offset: nat): Store {
    match Readable(reading, raw, offset)
    case Some(record) => RecordRemembered(store, record, offset)
    case None => store
  }

  // ---- The lines of a file ----

  /** The first newline in `file[pos..end]`, or `end`. */
  function NextNewline(file: seq<Byte>, pos: nat, end: nat): (n: nat)
    requires pos <= end <= |file|
    ensures pos <= n <= end && (n < end ==> file[n] == NEWLINE)
    ensures forall i | pos <= i < n :: file[i] != NEWLINE
    decreases end - pos
  {
    if pos == end || file[pos] == NEWLINE then pos else NextNewline(file, pos + 1, end)
  }

  /** A function applied to every complete line of `file[pos..end]` with its offset, in order. */
  function EachLine<S>(f: (S, seq<Byte>, nat) -> S, s: S, file: seq<Byte>, pos: nat, end: nat): S
    requires pos <= end <= |file|
    decreases end - pos
  {
    var n := NextNewline(file, pos, end);
    if n == end then s else EachLine(f, f(s, file[pos..n + 1], pos), file, n + 1, end)
  }

  function Indexer(reading: Reading): (Store, seq<Byte>, nat) -> Store {
    (store: Store, raw: seq<Byte>, offset: nat) => Indexed(store, reading, raw, offset)
  }

  /** Every complete line is indexed under its offset. */
  function IndexedThrough(store: Store, reading: Reading, file: seq<Byte>, pos: nat, end: nat): Store
    requires pos <= end <= |file|
  {
    EachLine(Indexer(reading), store, file, pos, end)
  }

  /** A line begins here. */
  predicate Boundary(file: seq<Byte>, pos: nat) {
    pos <= |file| && (pos == 0 || file[pos - 1] == NEWLINE)
  }

  lemma IndexedInParts(store: Store, reading: Reading, file: seq<Byte>, pos: nat, mid: nat, end: nat, half: Store)
    requires pos <= mid <= end <= |file| && (mid == pos || Boundary(file, mid))
    requires half == IndexedThrough(store, reading, file, pos, mid)
    ensures IndexedThrough(store, reading, file, pos, end) == IndexedThrough(half, reading, file, mid, end)
  {
    EachLineInParts(Indexer(reading), store, file, pos, mid, end, half, IndexedThrough(store, reading, file, pos, end));
  }

  lemma {:induction false} EachLineInParts<S>(f: (S, seq<Byte>, nat) -> S, s: S, file: seq<Byte>, pos: nat, mid: nat, end: nat, half: S, full: S)
    requires pos <= mid <= end <= |file| && (mid == pos || Boundary(file, mid))
    requires half == EachLine(f, s, file, pos, mid) && full == EachLine(f, s, file, pos, end)
    ensures full == EachLine(f, half, file, mid, end)
    decreases mid - pos
  {
    if pos < mid {
      var next, n := FirstLine(f, s, file, pos, mid, end);
      EachLineInParts(f, next, file, n + 1, mid, end, half, full);
    } else {
      NoLine(f, s, file, pos);
    }
  }

  lemma NoLine<S>(f: (S, seq<Byte>, nat) -> S, s: S, file: seq<Byte>, pos: nat)
    requires pos <= |file|
    ensures EachLine(f, s, file, pos, pos) == s
  {
  }

  /** The first line is taken alike however far one goes on. */
  lemma FirstLine<S>(f: (S, seq<Byte>, nat) -> S, s: S, file: seq<Byte>, pos: nat, mid: nat, end: nat) returns (next: S, n: nat)
    requires pos < mid <= end <= |file| && Boundary(file, mid)
    ensures pos <= n < mid
    ensures EachLine(f, s, file, pos, mid) == EachLine(f, next, file, n + 1, mid)
    ensures EachLine(f, s, file, pos, end) == EachLine(f, next, file, n + 1, end)
  {
    n := SameNewline(file, pos, mid, end);
    next := f(s, file[pos..n + 1], pos);
  }

  lemma NothingIndexed(store: Store, reading: Reading, file: seq<Byte>, pos: nat, end: nat)
    requires pos <= end <= |file| && NextNewline(file, pos, end) == end
    ensures IndexedThrough(store, reading, file, pos, end) == store
  {
  }

  lemma IndexedStep(store: Store, reading: Reading, file: seq<Byte>, pos: nat, end: nat, n: nat, next: Store)
    requires pos <= n < end <= |file| && n == NextNewline(file, pos, end) && next == Indexed(store, reading, file[pos..n + 1], pos)
    ensures IndexedThrough(store, reading, file, pos, end) == IndexedThrough(next, reading, file, n + 1, end)
  {
  }

  /** Before a boundary the next newline is the same however far one looks. */
  lemma SameNewline(file: seq<Byte>, pos: nat, mid: nat, end: nat) returns (n: nat)
    requires pos < mid <= end <= |file| && Boundary(file, mid)
    ensures n == NextNewline(file, pos, mid) == NextNewline(file, pos, end) && n < mid
  {
    n := NextNewline(file, pos, end);
    assert file[mid - 1] == NEWLINE;
  }

  // ---------------------------------------------------------------------------------------------
  // The emitted records
  // ---------------------------------------------------------------------------------------------

  /** A history entry as it goes out: whole, or a reference. */
  datatype Item = Whole(value: Json) | Reference(place: Place)

  /** A record as it goes out, with the histories that replace its own. */
  datatype Emitted = Emitted(record: Json, histories: map<Field, seq<Item>>)

  /** An entry becomes a reference when its text is remembered and replacing it is worth the bytes. */
  function ItemOf(store: Store, entry: Json, worth: bool): Item {
    var key := Canonical(entry);
    if key in store.entries && worth then Reference(store.entries[key]) else Whole(entry)
  }

  function ItemsOf(store: Store, entries: seq<Json>, f: Field, worth: (Field, nat) -> bool): (items: seq<Item>)
    ensures |items| == |entries| && forall i | 0 <= i < |items| :: items[i] == ItemOf(store, entries[i], worth(f, i))
  {
    seq(|entries|, i requires 0 <= i < |entries| => ItemOf(store, entries[i], worth(f, i)))
  }

  predicate Projectable(record: Json) {
    HasType(record, "compacted") && Get(record, "payload").Some? && (Get(record, "payload").value.Obj? || Get(record, "payload").value.Arr?)
  }

  function Histories(store: Store, record: Json, worth: (Field, nat) -> bool): (hs: map<Field, seq<Item>>)
    ensures forall f :: f in hs <==> History(record, f).Some?
    ensures forall f | f in hs :: hs[f] == ItemsOf(store, History(record, f).value, f, worth)
  {
    map f: Field | History(record, f).Some? :: ItemsOf(store, History(record, f).value, f, worth)
  }

  predicate AnyReference(hs: map<Field, seq<Item>>) {
    exists f: Field, i :: f in hs && 0 <= i < |hs[f]| && hs[f][i].Reference?
  }

  /** A record without a reference goes out as it is. */
  function Emission(store: Store, record: Json, worth: (Field, nat) -> bool): Emitted {
    if !Projectable(record) then Emitted(record, map[])
    else
      var hs := Histories(store, record, worth);
      if AnyReference(hs) then Emitted(record, hs) else Emitted(record, map[])
  }

  // ---------------------------------------------------------------------------------------------
  // What a remembered place promises
  // ---------------------------------------------------------------------------------------------

  /** The readable record whose line begins at `offset`. */
  function RecordAt(file: seq<Byte>, reading: Reading, offset: nat): Option<Json> {
    if !Boundary(file, offset) then None
    else
      var n := NextNewline(file, offset, |file|);
      if n == |file| then None else Readable(reading, file[offset..n + 1], offset)
  }

  /** The places of a record whose values are remembered. */
  ghost predicate Eligible(record: Json, p: Pointer) {
    && ValueAt(record, p).Some? && ValueAt(record, p).value.Obj?
    && if p.ToPayload? then HasType(record, "response_item") else HasType(record, "compacted")
  }

  /** A key's place lies before `limit`, is one whose values are remembered, and holds a value with that canonical text. */
  ghost predicate PlaceOk(file: seq<Byte>, reading: Reading, key: string, place: Place, limit: nat) {
    && place.offset < limit
    && RecordAt(file, reading, place.offset).Some?
    && Eligible(RecordAt(file, reading, place.offset).value, place.pointer)
    && Canonical(ValueAt(RecordAt(file, reading, place.offset).value, place.pointer).value) == key
  }

  ghost predicate StoreOk(file: seq<Byte>, reading: Reading, store: Store, limit: nat) {
    && |store.order| <= MAX_ENTRIES
    && (forall i, j | 0 <= i < j < |store.order| :: store.order[i] != store.order[j])
    && (forall k :: k in store.order <==> k in store.entries)
    && (forall k | k in store.entries :: PlaceOk(file, reading, k, store.entries[k], limit))
  }

  lemma RememberedOk(file: seq<Byte>, reading: Reading, store: Store, value: Json, place: Place, record: Json, limit: nat)
    requires StoreOk(file, reading, store, limit)
    requires place.offset < limit && RecordAt(file, reading, place.offset) == Some(record) && ValueAt(record, place.pointer) == Some(value)
    requires value.Obj? ==> Eligible(record, place.pointer)
    ensures StoreOk(file, reading, Remembered(store, value, place), limit)
  {
    var key := Canonical(value);
    if value.Obj? && key !in store.entries {
      assert PlaceOk(file, reading, key, place, limit);
      if |store.order| >= MAX_ENTRIES { WithoutOldest(file, reading, store, limit); }
      WithNewest(file, reading, if |store.order| >= MAX_ENTRIES then Store(store.order[1..], store.entries - {store.order[0]}) else store, key, place, limit);
    }
  }

  lemma WithoutOldest(file: seq<Byte>, reading: Reading, store: Store, limit: nat)
    requires StoreOk(file, reading, store, limit) && store.order != []
    ensures StoreOk(file, reading, Store(store.order[1..], store.entries - {store.order[0]}), limit)
  {
    var rest := store.order[1..];
    assert store.order == [store.order[0]] + rest;
    forall k ensures k in rest <==> k in store.entries - {store.order[0]} {
      if k in rest { var i :| 0 <= i < |rest| && rest[i] == k; assert store.order[i + 1] == k; }
    }
  }

  lemma WithNewest(file: seq<Byte>, reading: Reading, store: Store, key: string, place: Place, limit: nat)
    requires StoreOk(file, reading, store, limit) && key !in store.entries && |store.order| < MAX_ENTRIES
    requires PlaceOk(file, reading, key, place, limit)
    ensures StoreOk(file, reading, Store(store.order + [key], store.entries[key := place]), limit)
  {
  }

  lemma {:induction false} EntriesRememberedOk(file: seq<Byte>, reading: Reading, store: Store, record: Json, items: seq<Json>, f: Field, offset: nat, i: nat, limit: nat)
    requires StoreOk(file, reading, store, limit) && i <= |items|
    requires offset < limit && RecordAt(file, reading, offset) == Some(record) && History(record, f) == Some(items) && HasType(record, "compacted")
    ensures StoreOk(file, reading, EntriesRemembered(store, items, f, offset, i), limit)
    decreases |items| - i
  {
    if i < |items| {
      var place := Place(offset, ToEntry(f, i));
      RememberedOk(file, reading, store, items[i], place, record, limit);
      EntriesRememberedOk(file, reading, Remembered(store, items[i], place), record, items, f, offset, i + 1, limit);
    }
  }

  lemma RecordRememberedOk(file: seq<Byte>, reading: Reading, store: Store, record: Json, offset: nat, limit: nat)
    requires StoreOk(file, reading, store, limit)
    requires offset < limit && RecordAt(file, reading, offset) == Some(record)
    ensures StoreOk(file, reading, RecordRemembered(store, record, offset), limit)
  {
    var first := store;
    if Get(record, "payload").Some? && HasType(record, "response_item") {
      var payload := Get(record, "payload").value;
      RememberedOk(file, reading, store, payload, Place(offset, ToPayload), record, limit);
      first := Remembered(store, payload, Place(offset, ToPayload));
    }
    if HasType(record, "compacted") {
      HistoryRememberedOk(file, reading, first, record, ReplacementHistory, offset, limit);
      HistoryRememberedOk(file, reading, HistoryRemembered(first, record, ReplacementHistory, offset), record, GuardianHistory, offset, limit);
    }
  }

  lemma HistoryRememberedOk(file: seq<Byte>, reading: Reading, store: Store, record: Json, f: Field, offset: nat, limit: nat)
    requires StoreOk(file, reading, store, limit)
    requires offset < limit && RecordAt(file, reading, offset) == Some(record) && HasType(record, "compacted")
    ensures StoreOk(file, reading, HistoryRemembered(store, record, f, offset), limit)
  {
    match History(record, f)
    case Some(items) => EntriesRememberedOk(file, reading, store, record, items, f, offset, 0, limit);
    case None =>
  }

  /** Indexing a file's lines remembers only places that hold what they promise, before the end of the part indexed. */
  lemma IndexedThroughOk(file: seq<Byte>, reading: Reading, store: Store, pos: nat, end: nat)
    requires pos <= end <= |file| && Boundary(file, pos) && StoreOk(file, reading, store, pos)
    ensures StoreOk(file, reading, IndexedThrough(store, reading, file, pos, end), end)
  {
    LinesIndexedOk(file, reading, store, pos, end, IndexedThrough(store, reading, file, pos, end));
  }

  lemma {:induction false} LinesIndexedOk(file: seq<Byte>, reading: Reading, store: Store, pos: nat, end: nat, all: Store)
    requires pos <= end <= |file| && Boundary(file, pos) && StoreOk(file, reading, store, pos)
    requires all == IndexedThrough(store, reading, file, pos, end)
    ensures StoreOk(file, reading, all, end)
    decreases end - pos
  {
    var n := NextNewline(file, pos, end);
    if n == end {
      NothingIndexed(store, reading, file, pos, end);
      assert StoreOk(file, reading, store, end);
    } else {
      var next := FirstIndexedOk(file, reading, store, pos, end, n);
      LinesIndexedOk(file, reading, next, n + 1, end, all);
    }
  }

  lemma FirstIndexedOk(file: seq<Byte>, reading: Reading, store: Store, pos: nat, end: nat, n: nat) returns (next: Store)
    requires pos <= n < end <= |file| && Boundary(file, pos) && n == NextNewline(file, pos, end) && StoreOk(file, reading, store, pos)
    ensures StoreOk(file, reading, next, n + 1) && Boundary(file, n + 1)
    ensures IndexedThrough(store, reading, file, pos, end) == IndexedThrough(next, reading, file, n + 1, end)
  {
    next := Indexed(store, reading, file[pos..n + 1], pos);
    LineIndexedOk(file, reading, store, pos, end, n);
    IndexedStep(store, reading, file, pos, end, n, next);
  }

  lemma LineIndexedOk(file: seq<Byte>, reading: Reading, store: Store, pos: nat, end: nat, n: nat)
    requires pos <= n < end <= |file| && Boundary(file, pos) && n == NextNewline(file, pos, end) && StoreOk(file, reading, store, pos)
    ensures StoreOk(file, reading, Indexed(store, reading, file[pos..n + 1], pos), n + 1)
  {
    assert NextNewline(file, pos, |file|) == n;
    assert StoreOk(file, reading, store, n + 1);
    match Readable(reading, file[pos..n + 1], pos) {
      case Some(record) => RecordRememberedOk(file, reading, store, record, pos, n + 1);
      case None =>
    }
  }

  // ---------------------------------------------------------------------------------------------
  // Restoring the histories
  // ---------------------------------------------------------------------------------------------

  /** How a source goes out: which records are projected, and which replacements are worth it. */
  datatype Policy = Policy(projected: nat -> bool, worth: nat -> (Field, nat) -> bool)

  /** What is remembered of the lines before an offset. */
  function StoreBefore(file: seq<Byte>, reading: Reading, offset: nat): Store
    requires offset <= |file|
  {
    IndexedThrough(EMPTY, reading, file, 0, offset)
  }

  lemma StoreBeforeOk(file: seq<Byte>, reading: Reading, offset: nat)
    requires offset <= |file|
    ensures StoreOk(file, reading, StoreBefore(file, reading, offset), offset)
  {
    IndexedThroughOk(file, reading, EMPTY, 0, offset);
  }

  /** The record at an offset as it goes out. */
  function EmittedAt(file: seq<Byte>, reading: Reading, policy: Policy, offset: nat): Option<Emitted> {
    match RecordAt(file, reading, offset)
    case None => None
    case Some(record) =>
      if policy.projected(offset)
      then Some(Emission(StoreBefore(file, reading, offset), record, policy.worth(offset)))
      else Some(Emitted(record, map[]))
  }

  /** What a reader of the emitted records finds at a place: a whole entry, or, for a reference, what it finds at
      the place that names. A reference that does not lead back is not followed. */
  function Restored(file: seq<Byte>, reading: Reading, policy: Policy, place: Place): Option<Json>
    decreases place.offset
  {
    match EmittedAt(file, reading, policy, place.offset)
    case None => None
    case Some(out) =>
      match place.pointer
      case ToPayload => Get(out.record, "payload")
      case ToEntry(f, i) =>
        if f !in out.histories then ValueAt(out.record, place.pointer)
        else if i >= |out.histories[f]| then None
        else
          match out.histories[f][i]
          case Whole(v) => Some(v)
          case Reference(p) => if p.offset < place.offset then Restored(file, reading, policy, p) else None
  }

  /** Every reference leads to a strictly earlier record and names a value equal, up to key order, to the entry it replaced. */
  lemma ReferencesLeadBack(file: seq<Byte>, reading: Reading, policy: Policy, offset: nat, f: Field, i: nat)
    requires EmittedAt(file, reading, policy, offset).Some?
    requires f in EmittedAt(file, reading, policy, offset).value.histories
    requires i < |EmittedAt(file, reading, policy, offset).value.histories[f]|
    requires EmittedAt(file, reading, policy, offset).value.histories[f][i].Reference?
    ensures var place := EmittedAt(file, reading, policy, offset).value.histories[f][i].place;
            && place.offset < offset
            && RecordAt(file, reading, place.offset).Some?
            && ValueAt(RecordAt(file, reading, offset).value, ToEntry(f, i)).Some?
            && ValueAt(RecordAt(file, reading, place.offset).value, place.pointer) == ValueAt(RecordAt(file, reading, offset).value, ToEntry(f, i))
  {
    var store := StoreBefore(file, reading, offset);
    StoreBeforeOk(file, reading, offset);
    var record := RecordAt(file, reading, offset).value;
    HistoryItem(store, record, policy.worth(offset), f, i);
    RememberedEqual(file, reading, store, History(record, f).value[i], policy.worth(offset)(f, i), offset);
  }

  lemma HistoryItem(store: Store, record: Json, worth: (Field, nat) -> bool, f: Field, i: nat)
    requires f in Emission(store, record, worth).histories
    ensures History(record, f).Some? && |History(record, f).value| == |Emission(store, record, worth).histories[f]|
    ensures i < |History(record, f).value| ==>
              && ValueAt(record, ToEntry(f, i)) == Some(History(record, f).value[i])
              && Emission(store, record, worth).histories[f][i] == ItemOf(store, History(record, f).value[i], worth(f, i))
  {
  }

  lemma RememberedEqual(file: seq<Byte>, reading: Reading, store: Store, entry: Json, worth: bool, limit: nat)
    requires StoreOk(file, reading, store, limit) && ItemOf(store, entry, worth).Reference?
    ensures var place := ItemOf(store, entry, worth).place;
            place.offset < limit && RecordAt(file, reading, place.offset).Some?
            && Eligible(RecordAt(file, reading, place.offset).value, place.pointer)
            && ValueAt(RecordAt(file, reading, place.offset).value, place.pointer) == Some(entry)
  {
    var key := Canonical(entry);
    var place := store.entries[key];
    assert PlaceOk(file, reading, key, place, limit);
    CanonicalInjective(ValueAt(RecordAt(file, reading, place.offset).value, place.pointer).value, entry);
  }

  /** Following references, every history entry and payload of every emitted record is restored. */
  lemma {:induction false} EverythingRestored(file: seq<Byte>, reading: Reading, policy: Policy, place: Place)
    requires RecordAt(file, reading, place.offset).Some?
    ensures Restored(file, reading, policy, place) == ValueAt(RecordAt(file, reading, place.offset).value, place.pointer)
    decreases place.offset
  {
    var out := EmittedAt(file, reading, policy, place.offset).value;
    match place.pointer
    case ToPayload =>
    case ToEntry(f, i) =>
      if f in out.histories && i < |out.histories[f]| && out.histories[f][i].Reference? {
        ReferencesLeadBack(file, reading, policy, place.offset, f, i);
        EverythingRestored(file, reading, policy, out.histories[f][i].place);
      }
  }

  // ---- What is remembered stays found ----

  /** The map only grew, unless it became full. */
  ghost predicate Grew(s: Store, t: Store) {
    |s.order| <= |t.order| && (|t.order| < MAX_ENTRIES ==> forall k | k in s.entries :: k in t.entries && t.entries[k] == s.entries[k])
  }

  lemma GrewOn(s: Store, t: Store, u: Store)
    requires Grew(s, t) && Grew(t, u)
    ensures Grew(s, u)
  {
  }

  lemma RememberedGrows(store: Store, value: Json, place: Place)
    ensures Grew(store, Remembered(store, value, place))
    ensures value.Obj? ==> Canonical(value) in Remembered(store, value, place).entries
  {
  }

  lemma {:induction false} EntriesGrow(store: Store, items: seq<Json>, f: Field, offset: nat, i: nat)
    requires i <= |items|
    ensures var t := EntriesRemembered(store, items, f, offset, i);
            Grew(store, t) && (|t.order| < MAX_ENTRIES ==> forall j | i <= j < |items| && items[j].Obj? :: Canonical(items[j]) in t.entries)
    decreases |items| - i
  {
    if i < |items| {
      var next := Remembered(store, items[i], Place(offset, ToEntry(f, i)));
      RememberedGrows(store, items[i], Place(offset, ToEntry(f, i)));
      EntriesGrow(next, items, f, offset, i + 1);
      GrewOn(store, next, EntriesRemembered(store, items, f, offset, i));
    }
  }

  lemma HistoryGrows(store: Store, record: Json, f: Field, offset: nat)
    ensures var t := HistoryRemembered(store, record, f, offset);
            Grew(store, t) && (|t.order| < MAX_ENTRIES ==> forall j | History(record, f).Some? && 0 <= j < |History(record, f).value| && History(record, f).value[j].Obj? ::
                                                             Canonical(History(record, f).value[j]) in t.entries)
  {
    match History(record, f)
    case Some(items) => EntriesGrow(store, items, f, offset, 0);
    case None =>
  }

  lemma RecordGrows(store: Store, record: Json, offset: nat, p: Pointer)
    ensures var t := RecordRemembered(store, record, offset);
            Grew(store, t) && (|t.order| < MAX_ENTRIES && Eligible(record, p) ==> Canonical(ValueAt(record, p).value) in t.entries)
  {
    if HasType(record, "response_item") && Get(record, "payload").Some? {
      RememberedGrows(store, Get(record, "payload").value, Place(offset, ToPayload));
    } else if HasType(record, "compacted") {
      HistoryGrows(store, record, ReplacementHistory, offset);
      var middle := HistoryRemembered(store, record, ReplacementHistory, offset);
      HistoryGrows(middle, record, GuardianHistory, offset);
      GrewOn(store, middle, HistoryRemembered(middle, record, GuardianHistory, offset));
    }
  }

  lemma {:induction false} IndexedGrows(store: Store, reading: Reading, file: seq<Byte>, pos: nat, end: nat)
    requires pos <= end <= |file|
    ensures Grew(store, IndexedThrough(store, reading, file, pos, end))
    decreases end - pos
  {
    var n := NextNewline(file, pos, end);
    if n < end {
      var raw := file[pos..n + 1];
      var next := Indexed(store, reading, raw, pos);
      match Readable(reading, raw, pos) {
        case Some(record) => RecordGrows(store, record, pos, ToPayload);
        case None =>
      }
      IndexedStep(store, reading, file, pos, end, n, next);
      IndexedGrows(next, reading, file, n + 1, end);
      GrewOn(store, next, IndexedThrough(next, reading, file, n + 1, end));
    }
  }

  /** While the map is not full, every value of an earlier record is found, at the first place that holds it. */
  lemma EarlierValueFound(file: seq<Byte>, reading: Reading, end: nat, offset: nat, p: Pointer)
    requires offset < end && Boundary(file, end) && |StoreBefore(file, reading, end).order| < MAX_ENTRIES
    requires RecordAt(file, reading, offset).Some? && Eligible(RecordAt(file, reading, offset).value, p)
    ensures var store, key := StoreBefore(file, reading, end), Canonical(ValueAt(RecordAt(file, reading, offset).value, p).value);
            key in store.entries && store.entries[key].offset <= offset
  {
    var before, record := StoreBefore(file, reading, offset), RecordAt(file, reading, offset).value;
    var after := RecordRemembered(before, record, offset);
    GrowsFrom(file, reading, end, offset, after);
    FoundAtOnce(file, reading, before, record, offset, p, after);
  }

  lemma GrowsFrom(file: seq<Byte>, reading: Reading, end: nat, offset: nat, after: Store)
    requires offset < end && Boundary(file, end) && RecordAt(file, reading, offset).Some?
    requires after == RecordRemembered(StoreBefore(file, reading, offset), RecordAt(file, reading, offset).value, offset)
    ensures Grew(after, StoreBefore(file, reading, end))
  {
    var n := RestOfFile(file, reading, end, offset);
    IndexedGrows(after, reading, file, n + 1, end);
  }

  /** Past a record's line, what is remembered of it is indexed on. */
  lemma RestOfFile(file: seq<Byte>, reading: Reading, end: nat, offset: nat) returns (n: nat)
    requires offset < end && Boundary(file, end) && RecordAt(file, reading, offset).Some?
    ensures offset <= n < end
    ensures StoreBefore(file, reading, end) ==
            IndexedThrough(RecordRemembered(StoreBefore(file, reading, offset), RecordAt(file, reading, offset).value, offset), reading, file, n + 1, end)
  {
    var before := StoreBefore(file, reading, offset);
    n := LineOf(file, reading, before, end, offset);
    BeforeInParts(file, reading, offset, end);
    IndexedStep(before, reading, file, offset, end, n, RecordRemembered(before, RecordAt(file, reading, offset).value, offset));
  }

  lemma LineOf(file: seq<Byte>, reading: Reading, before: Store, end: nat, offset: nat) returns (n: nat)
    requires offset < end && Boundary(file, end) && RecordAt(file, reading, offset).Some?
    ensures offset <= n < end && n == NextNewline(file, offset, end)
    ensures Indexed(before, reading, file[offset..n + 1], offset) == RecordRemembered(before, RecordAt(file, reading, offset).value, offset)
  {
    n := SameNewline(file, offset, end, end);
    var m := SameNewline(file, offset, end, |file|);
  }

  lemma FoundAtOnce(file: seq<Byte>, reading: Reading, before: Store, record: Json, offset: nat, p: Pointer, after: Store)
    requires offset <= |file| && before == StoreBefore(file, reading, offset) && RecordAt(file, reading, offset) == Some(record) && Eligible(record, p)
    requires after == RecordRemembered(before, record, offset) && |after.order| < MAX_ENTRIES
    ensures var key := Canonical(ValueAt(record, p).value); key in after.entries && after.entries[key].offset <= offset
  {
    var key := Canonical(ValueAt(record, p).value);
    RecordGrows(before, record, offset, p);
    StoreBeforeOk(file, reading, offset);
    assert StoreOk(file, reading, before, offset + 1);
    RecordRememberedOk(file, reading, before, record, offset, offset + 1);
    assert PlaceOk(file, reading, key, after.entries[key], offset + 1);
  }

  /** A byte of a line lies in an excluded range. */
  ghost predicate Excluded(reading: Reading, raw: seq<Byte>, offset: nat) {
    exists x, at: nat :: x in reading.excluded && offset <= at < offset + |raw| && Within(x, at)
  }

  predicate Within(x: (nat, nat), at: nat) {
    x.0 <= at < x.1
  }

  /** A line is decoded exactly when none of its bytes is excluded and it is not too long, and read when it then parses. */
  lemma ReadableExactly(reading: Reading, raw: seq<Byte>, offset: nat)
    requires raw != [] && forall x | x in reading.excluded :: x.0 < x.1
    ensures Readable(reading, raw, offset) == if Excluded(reading, raw, offset) || |raw| > reading.maxRecord then None else reading.parse(raw)
  {
    if x :| x in reading.excluded && offset < x.1 && offset + |raw| > x.0 {
      assert Within(x, if x.0 > offset then x.0 else offset);
    }
    if x, at: nat :| x in reading.excluded && offset <= at < offset + |raw| && Within(x, at) {
      assert offset < x.1 && offset + |raw| > x.0;
    }
  }

  /** Where a history is looked for in a record, name by name. */
  lemma HistoryIs(record: Json, f: Field, items: seq<Json>)
    ensures History(record, f) == Some(items) <==>
              && record.Obj? && "payload" in record.members && record.members["payload"].Obj?
              && var name := match f case ReplacementHistory => "replacement_history" case GuardianHistory => "guardian_history";
                 name in record.members["payload"].members && record.members["payload"].members[name] == Arr(items)
  {
  }

  /** What is remembered under a full map: the texts in the order they came, the first leaving first. */
  function AllRemembered(store: Store, values: seq<(Json, Place)>): Store
    decreases |values|
  {
    if values == [] then store else AllRemembered(Remembered(store, values[0].0, values[0].1), values[1..])
  }

  /** A text leaves only when the map is full, and then only after every text before it: each value remembered moves it one
      place to the front at most, and its place in the source stays the same. */
  lemma {:induction false} OldestLeavesFirst(store: Store, values: seq<(Json, Place)>, i: nat)
    requires (forall k :: k in store.order <==> k in store.entries) && forall a, b | 0 <= a < b < |store.order| :: store.order[a] != store.order[b]
    requires i < |store.order| && |values| <= i + (if |store.order| < MAX_ENTRIES then MAX_ENTRIES - |store.order| else 0)
    ensures var key, later := store.order[i], AllRemembered(store, values);
            key in later.entries && later.entries[key] == store.entries[key]
    decreases |values|
  {
    if values != [] {
      var next := Remembered(store, values[0].0, values[0].1);
      var j := OneMoreRemembered(store, values[0].0, values[0].1, i);
      OldestLeavesFirst(next, values[1..], j);
    }
  }

  lemma OneMoreRemembered(store: Store, value: Json, place: Place, i: nat) returns (j: nat)
    requires (forall k :: k in store.order <==> k in store.entries) && forall a, b | 0 <= a < b < |store.order| :: store.order[a] != store.order[b]
    requires i < |store.order| && (i > 0 || |store.order| < MAX_ENTRIES)
    ensures var next := Remembered(store, value, place);
            && (forall k :: k in next.order <==> k in next.entries) && (forall a, b | 0 <= a < b < |next.order| :: next.order[a] != next.order[b])
            && j < |next.order| && next.order[j] == store.order[i] && store.order[i] in store.entries && next.entries[store.order[i]] == store.entries[store.order[i]]
            && (if |store.order| < MAX_ENTRIES then j == i && |next.order| <= |store.order| + 1
                else i - 1 <= j <= i && |next.order| == |store.order|)
  {
    var next := Remembered(store, value, place);
    j := if next.order != store.order && |store.order| >= MAX_ENTRIES then i - 1 else i;
    if next.order != store.order && |store.order| >= MAX_ENTRIES { assert store.order[1..][j] == store.order[i]; }
    if |store.order| >= MAX_ENTRIES { RestOfOrder(store.order); }
  }

  lemma RestOfOrder(order: seq<string>)
    requires order != [] && forall a, b | 0 <= a < b < |order| :: order[a] != order[b]
    ensures forall k :: k in order[1..] <==> k in order && k != order[0]
  {
    var rest := order[1..];
    forall k ensures k in rest <==> k in order && k != order[0] {
      if k in rest { var a :| 0 <= a < |rest| && rest[a] == k; assert order[a + 1] == k; }
      if k in order && k != order[0] { var a :| 0 <= a < |order| && order[a] == k; assert rest[a - 1] == k; }
    }
  }

  // ---- Which entries become references ----

  /** An earlier readable record holds this value at a place whose values are remembered. */
  ghost predicate HeldBefore(file: seq<Byte>, reading: Reading, offset: nat, value: Json) {
    exists p: Place :: HoldsValue(file, reading, offset, value, p)
  }

  ghost predicate HoldsValue(file: seq<Byte>, reading: Reading, offset: nat, value: Json, p: Place) {
    && p.offset < offset && RecordAt(file, reading, p.offset).Some?
    && Eligible(RecordAt(file, reading, p.offset).value, p.pointer)
    && ValueAt(RecordAt(file, reading, p.offset).value, p.pointer) == Some(value)
  }

  predicate ReferencedIn(out: Emitted, f: Field, i: nat) {
    f in out.histories && i < |out.histories[f]| && out.histories[f][i].Reference?
  }

  /** While the map is not full, the text of a value is remembered exactly when an earlier record holds the value. */
  lemma RememberedExactly(file: seq<Byte>, reading: Reading, offset: nat, value: Json)
    requires Boundary(file, offset) && |StoreBefore(file, reading, offset).order| < MAX_ENTRIES
    ensures Canonical(value) in StoreBefore(file, reading, offset).entries <==> HeldBefore(file, reading, offset, value)
  {
    var store := StoreBefore(file, reading, offset);
    StoreBeforeOk(file, reading, offset);
    if Canonical(value) in store.entries {
      RememberedEqual(file, reading, store, value, true, offset);
      assert HoldsValue(file, reading, offset, value, store.entries[Canonical(value)]);
    }
    if p: Place :| HoldsValue(file, reading, offset, value, p) {
      EarlierValueFound(file, reading, offset, p.offset, p.pointer);
    }
  }

  /** Of what goes out, exactly the entries worth replacing that an earlier record holds are references; the others are whole. */
  ghost predicate ReferencesExactly(file: seq<Byte>, reading: Reading, record: Json, offset: nat, worth: (Field, nat) -> bool, out: Emitted) {
    && out.record == record
    && (out.histories != map[] ==> exists f: Field, i: nat :: ReferencedIn(out, f, i))
    && forall f: Field, i: nat | History(record, f).Some? && i < |History(record, f).value| ::
         && (ReferencedIn(out, f, i) <==> worth(f, i) && HeldBefore(file, reading, offset, History(record, f).value[i]))
         && (f in out.histories && !ReferencedIn(out, f, i) ==>
               i < |out.histories[f]| && out.histories[f][i] == Whole(History(record, f).value[i]))
         && (ReferencedIn(out, f, i) ==> HoldsValue(file, reading, offset, History(record, f).value[i], out.histories[f][i].place))
  }

  lemma EmissionReferences(file: seq<Byte>, reading: Reading, record: Json, offset: nat, worth: (Field, nat) -> bool)
    requires Projectable(record) && Boundary(file, offset) && |StoreBefore(file, reading, offset).order| < MAX_ENTRIES
    ensures ReferencesExactly(file, reading, record, offset, worth, Emission(StoreBefore(file, reading, offset), record, worth))
  {
    var store := StoreBefore(file, reading, offset);
    var out := Emission(store, record, worth);
    if out.histories != map[] {
      var f: Field, i: nat :| f in out.histories && i < |out.histories[f]| && out.histories[f][i].Reference?;
      assert ReferencedIn(out, f, i);
    }
    forall f: Field, i: nat | History(record, f).Some? && i < |History(record, f).value|
      ensures ReferencedIn(out, f, i) <==> worth(f, i) && HeldBefore(file, reading, offset, History(record, f).value[i])
      ensures f in out.histories && !ReferencedIn(out, f, i) ==>
                i < |out.histories[f]| && out.histories[f][i] == Whole(History(record, f).value[i])
      ensures ReferencedIn(out, f, i) ==> HoldsValue(file, reading, offset, History(record, f).value[i], out.histories[f][i].place)
    {
      EntryReferenced(file, reading, store, record, offset, worth, f, i);
    }
  }

  lemma EntryReferenced(file: seq<Byte>, reading: Reading, store: Store, record: Json, offset: nat, worth: (Field, nat) -> bool, f: Field, i: nat)
    requires Projectable(record) && Boundary(file, offset) && store == StoreBefore(file, reading, offset) && |store.order| < MAX_ENTRIES
    requires History(record, f).Some? && i < |History(record, f).value|
    ensures var out, entry := Emission(store, record, worth), History(record, f).value[i];
            && (ReferencedIn(out, f, i) <==> worth(f, i) && HeldBefore(file, reading, offset, entry))
            && (f in out.histories && !ReferencedIn(out, f, i) ==> i < |out.histories[f]| && out.histories[f][i] == Whole(entry))
            && (ReferencedIn(out, f, i) ==> HoldsValue(file, reading, offset, entry, out.histories[f][i].place))
  {
    var entry, hs := History(record, f).value[i], Histories(store, record, worth);
    RememberedExactly(file, reading, offset, entry);
    assert hs[f][i] == ItemOf(store, entry, worth(f, i));
    if hs[f][i].Reference? {
      assert AnyReference(hs);
      StoreBeforeOk(file, reading, offset);
      RememberedEqual(file, reading, store, entry, worth(f, i), offset);
    }
  }

  // ---------------------------------------------------------------------------------------------
  // The projection
  // ---------------------------------------------------------------------------------------------

  const BLOCK: nat := 65536

  datatype ScanResult = Scanned | TruncatedDuringRead | OversizedRecord | MalformedRecord

  datatype Projected = Sent(out: Emitted) | Failed(reason: ScanResult)

  /** The projection of one source: `order` and `entries` are its insertion-ordered map, `scanned` how far it has read. */
  class Projection {
    const file: seq<Byte>
    const reading: Reading
    var order: seq<string>
    var entries: map<string, Place>
    var scanned: nat

    function Remembering(): Store
      reads this
    {
      Store(order, entries)
    }

    ghost predicate Valid()
      reads this
    {
      Boundary(file, scanned) && Remembering() == StoreBefore(file, reading, scanned)
    }

    constructor (file: seq<Byte>, reading: Reading)
      ensures Valid() && scanned == 0 && this.file == file && this.reading == reading
    {
      this.file, this.reading := file, reading;
      order, entries, scanned := [], map[], 0;
    }

    /** `remember`: the first place of a text stays; a full map lets its oldest text go. */
    method Remember(value: Json, place: Place)
      modifies this`order, this`entries
      ensures Remembering() == Remembered(old(Remembering()), value, place)
    {
      if !value.Obj? { return; }
      var key := Canonical(value);
      if key in entries { return; }
      if |order| >= MAX_ENTRIES {
        entries := entries - {order[0]};
        order := order[1..];
      }
      order := order + [key];
      entries := entries[key := place];
    }

    method RememberHistory(record: Json, f: Field, offset: nat)
      modifies this`order, this`entries
      ensures Remembering() == HistoryRemembered(old(Remembering()), record, f, offset)
    {
      var history := History(record, f);
      if history.None? { return; }
      var items := history.value;
      for i := 0 to |items|
        invariant EntriesRemembered(Remembering(), items, f, offset, i) == HistoryRemembered(old(Remembering()), record, f, offset)
      {
        Remember(items[i], Place(offset, ToEntry(f, i)));
      }
    }

    /** `index`. */
    method Index(raw: seq<Byte>, offset: nat)
      modifies this`order, this`entries
      ensures Remembering() == Indexed(old(Remembering()), reading, raw, offset)
    {
      var readable := Readable(reading, raw, offset);
      if readable.None? { return; }
      var record := readable.value;
      if HasType(record, "response_item") && Get(record, "payload").Some? {
        Remember(Get(record, "payload").value, Place(offset, ToPayload));
      }
      if HasType(record, "compacted") {
        RememberHistory(record, ReplacementHistory, offset);
        RememberHistory(record, GuardianHistory, offset);
      }
    }

    /** `scanThrough`: reads on to `end` block by block, however short the reads, and indexes each complete line. */
    method ScanThrough(end: nat, readSize: nat -> nat) returns (result: ScanResult)
      requires Valid()
      modifies this`order, this`entries, this`scanned
      ensures Valid() && scanned >= old(scanned)
      ensures result == Scanned ==> scanned == if end <= old(scanned) then old(scanned) else end
      ensures result == TruncatedDuringRead ==> |file| < end
      ensures result == OversizedRecord ==> Unbroken(file, scanned, scanned + reading.maxRecord + 1) && scanned + reading.maxRecord < end
      ensures result == MalformedRecord ==> scanned < end && Unbroken(file, scanned, end)
    {
      var pending: seq<Byte> := [];
      var position := scanned;
      while position < end
        invariant Valid() && old(scanned) <= scanned <= position <= |file|
        invariant position <= end || position == scanned == old(scanned)
        invariant pending == file[scanned..position] && Unbroken(file, scanned, position)
        decreases end - position
      {
        var n := ReadSize(position, if end - position < BLOCK then end - position else BLOCK, readSize);
        if n == 0 { return TruncatedDuringRead; }
        pending := pending + file[position..position + n];
        position := position + n;
        assert pending == file[scanned..position];
        pending := IndexPending(pending, position);
        if |pending| > reading.maxRecord { return OversizedRecord; }
      }
      if |pending| > 0 { return MalformedRecord; }
      return Scanned;
    }

    /** The complete lines read so far are indexed; what is left begins the next one. */
    method IndexPending(read: seq<Byte>, ghost position: nat) returns (pending: seq<Byte>)
      requires Valid() && scanned <= position <= |file| && read == file[scanned..position]
      modifies this`order, this`entries, this`scanned
      ensures Valid() && old(scanned) <= scanned <= position
      ensures pending == file[scanned..position] && Unbroken(file, scanned, position)
    {
      pending := read;
      var newline := NextNewline(pending, 0, |pending|);
      while newline < |pending|
        invariant Valid() && old(scanned) <= scanned <= position
        invariant pending == file[scanned..position] && newline == NextNewline(pending, 0, |pending|)
        decreases |pending|
      {
        SliceApart(file, scanned, position, newline + 1);
        IndexLine(pending[..newline + 1], newline, position);
        pending := pending[newline + 1..];
        newline := NextNewline(pending, 0, |pending|);
      }
      assert forall i | scanned <= i < position :: file[i] == pending[i - scanned];
    }

    /** One complete line is indexed and passed. */
    method IndexLine(raw: seq<Byte>, newline: nat, ghost position: nat)
      requires Valid() && scanned <= position <= |file|
      requires newline < position - scanned && newline == NextNewline(file[scanned..position], 0, position - scanned)
      requires raw == file[scanned..scanned + newline + 1]
      modifies this`order, this`entries, this`scanned
      ensures Valid() && scanned == old(scanned) + newline + 1
    {
      NextLine(file, reading, scanned, position, newline);
      Index(raw, scanned);
      scanned := scanned + |raw|;
    }

    /** The returned function: the record at `offset` as it goes out. Offsets ascend from call to call. */
    method Project(record: Json, offset: nat, worth: (Field, nat) -> bool, readSize: nat -> nat) returns (result: Projected)
      requires Valid() && scanned <= offset
      modifies this`order, this`entries, this`scanned
      ensures Valid()
      ensures !Projectable(record) ==> result == Sent(Emitted(record, map[])) && scanned == old(scanned) && Remembering() == old(Remembering())
      ensures Projectable(record) && result.Sent? ==>
                scanned == offset <= |file| && result.out == Emission(StoreBefore(file, reading, offset), record, worth)
      ensures Projectable(record) && result.Sent? && |order| < MAX_ENTRIES ==>
                ReferencesExactly(file, reading, record, offset, worth, result.out)
      ensures result.Failed? ==> Projectable(record) && result.reason != Scanned
      ensures result == Failed(TruncatedDuringRead) ==> |file| < offset
      ensures result == Failed(OversizedRecord) ==> Unbroken(file, scanned, scanned + reading.maxRecord + 1)
      ensures result == Failed(MalformedRecord) ==> scanned < offset && Unbroken(file, scanned, offset)
    {
      if !Projectable(record) { return Sent(Emitted(record, map[])); }
      var scan := ScanThrough(offset, readSize);
      if scan != Scanned { return Failed(scan); }
      var out := ReplaceHistories(record, worth);
      if |order| < MAX_ENTRIES { EmissionReferences(file, reading, record, offset, worth); }
      return Sent(out);
    }

    /** The record with both histories replaced, or as it is when that brought no reference. */
    method ReplaceHistories(record: Json, worth: (Field, nat) -> bool) returns (out: Emitted)
      requires Projectable(record)
      ensures out == Emission(Remembering(), record, worth)
    {
      var histories: map<Field, seq<Item>>, referenced := map[], 0;
      histories, referenced := AddHistory(histories, referenced, record, ReplacementHistory, worth);
      histories, referenced := AddHistory(histories, referenced, record, GuardianHistory, worth);
      assert histories == Histories(Remembering(), record, worth);
      if referenced == 0 { return Emitted(record, map[]); }
      return Emitted(record, histories);
    }

    /** One history is replaced entry by entry, and the references in it are counted. */
    method AddHistory(before: map<Field, seq<Item>>, count: nat, record: Json, f: Field, worth: (Field, nat) -> bool)
      returns (histories: map<Field, seq<Item>>, referenced: nat)
      requires f !in before && (count > 0 <==> AnyReference(before))
      ensures histories == if History(record, f).Some? then before[f := ItemsOf(Remembering(), History(record, f).value, f, worth)] else before
      ensures referenced > 0 <==> AnyReference(histories)
    {
      histories, referenced := before, count;
      var history := History(record, f);
      if history.None? { return; }
      var items := [];
      for i := 0 to |history.value|
        invariant |items| == i && forall j | 0 <= j < i :: items[j] == ItemOf(Remembering(), history.value[j], worth(f, j))
        invariant referenced >= count
        invariant referenced > count <==> exists j :: 0 <= j < i && items[j].Reference?
      {
        var item := ItemOf(Remembering(), history.value[i], worth(f, i));
        if item.Reference? { referenced := referenced + 1; }
        items := items + [item];
      }
      histories := histories[f := items];
      assert items == ItemsOf(Remembering(), history.value, f, worth);
      AnyReferenceAdded(before, f, items);
    }

    /** `readSync`: up to `want` bytes, at least one unless the file is at its end. */
    method ReadSize(position: nat, want: nat, readSize: nat -> nat) returns (n: nat)
      requires position <= |file| && want > 0
      ensures n <= want && position + n <= |file| && (n == 0 <==> position == |file|)
    {
      var most := if |file| - position < want then |file| - position else want;
      n := readSize(position);
      if n == 0 || n > most { n := most; }
    }
  }

  /** Passing one line extends what is remembered of the lines before by that line. */
  lemma NextLine(file: seq<Byte>, reading: Reading, scanned: nat, position: nat, newline: nat)
    requires scanned <= position <= |file| && Boundary(file, scanned) && newline < position - scanned
    requires newline == NextNewline(file[scanned..position], 0, position - scanned)
    ensures scanned + newline + 1 <= |file| && Boundary(file, scanned + newline + 1)
    ensures StoreBefore(file, reading, scanned + newline + 1)
            == Indexed(StoreBefore(file, reading, scanned), reading, file[scanned..scanned + newline + 1], scanned)
  {
    var next := scanned + newline + 1;
    NewlineInPart(file, scanned, position, newline);
    LineIndexed(file, reading, StoreBefore(file, reading, scanned), scanned, next);
    BeforeInParts(file, reading, scanned, next);
  }

  lemma NewlineInPart(file: seq<Byte>, scanned: nat, position: nat, newline: nat)
    requires scanned <= position <= |file| && newline < position - scanned
    requires newline == NextNewline(file[scanned..position], 0, position - scanned)
    ensures file[scanned + newline] == NEWLINE && NextNewline(file, scanned, scanned + newline + 1) == scanned + newline
  {
    assert file[scanned..position][newline] == file[scanned + newline];
    assert forall i | 0 <= i < newline :: file[scanned..position][i] == file[scanned + i];
    assert forall i | scanned <= i < scanned + newline :: file[i] == file[scanned..position][i - scanned];
  }

  lemma BeforeInParts(file: seq<Byte>, reading: Reading, mid: nat, end: nat)
    requires mid <= end <= |file| && Boundary(file, mid)
    ensures StoreBefore(file, reading, end) == IndexedThrough(StoreBefore(file, reading, mid), reading, file, mid, end)
  {
    IndexedInParts(EMPTY, reading, file, 0, mid, end, StoreBefore(file, reading, mid));
  }

  lemma LineIndexed(file: seq<Byte>, reading: Reading, store: Store, pos: nat, next: nat)
    requires pos < next <= |file| && NextNewline(file, pos, next) == next - 1
    ensures IndexedThrough(store, reading, file, pos, next) == Indexed(store, reading, file[pos..next], pos)
  {
    IndexedStep(store, reading, file, pos, next, next - 1, Indexed(store, reading, file[pos..next], pos));
    NothingIndexed(Indexed(store, reading, file[pos..next], pos), reading, file, next, next);
  }

  lemma SliceApart(file: seq<Byte>, from: nat, to: nat, n: nat)
    requires from + n <= to <= |file|
    ensures file[from..to][..n] == file[from..from + n] && file[from..to][n..] == file[from + n..to]
  {
  }

  /** No newline in this part of a file. */
  predicate Unbroken(file: seq<Byte>, pos: nat, end: nat) {
    end <= |file| && forall i | pos <= i < end :: file[i] != NEWLINE
  }

  lemma AnyReferenceAdded(before: map<Field, seq<Item>>, f: Field, items: seq<Item>)
    requires f !in before
    ensures AnyReference(before[f := items]) <==> AnyReference(before) || exists j :: 0 <= j < |items| && items[j].Reference?
  {
    var after: map<Field, seq<Item>> := before[f := items];
    if AnyReference(before) {
      var g: Field, i :| g in before && 0 <= i < |before[g]| && before[g][i].Reference?;
      assert g in after && after[g][i].Reference?;
    }
    if j :| 0 <= j < |items| && items[j].Reference? {
      assert f in after && after[f][j].Reference?;
    }
  }
}
