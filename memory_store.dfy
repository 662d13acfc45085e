/** The in-memory document store (server/services/memoryStore.js): a table of
    named collections, each an ordered array of plain objects, plus an id
    counter. Queries work on a copy of a collection and leave it untouched;
    insert, update, delete and clear change the table in place. */
module MemoryStore {
  import opened Values

  const VESSELS := "vessels"
  const ANOMALIES := "anomalies"
  const GEOFENCES := "geofences"

  /** A query filter: property name to wanted value or operator object. */
  type Filter = map<string, Value>

  // ---------------------------------------------------------------------
  // Filtering

  /** The `$gt/$gte/$lt/$lte` bounds of an operator object that `x` meets. */
  predicate BoundsHold(x: Value, bounds: map<string, Value>)
  {
    && (Get(bounds, "$gt") != Undefined ==> Compare(x, bounds["$gt"]) == Greater)
    && (Get(bounds, "$gte") != Undefined ==> Compare(x, bounds["$gte"]) in {Greater, Same})
    && (Get(bounds, "$lt") != Undefined ==> Compare(x, bounds["$lt"]) == Less)
    && (Get(bounds, "$lte") != Undefined ==> Compare(x, bounds["$lte"]) in {Less, Same})
  }

  /** One filter entry: an object value is read as operator bounds (an array
      or a Date has no `$` properties, so it bounds nothing); any other value
      must equal the property strictly. */
  predicate FieldMatches(x: Value, wanted: Value)
  {
    if IsObject(wanted) then (wanted.Obj? ==> BoundsHold(x, wanted.fields))
    else x == wanted
  }

  /** An item passes a filter when every entry of the filter accepts it. */
  predicate Matches(item: Doc, filter: Filter)
  {
    forall key :: key in filter ==> FieldMatches(Get(item, key), filter[key])
  }

  /** The items that pass the filter, in stored order. */
  function Filtered(items: seq<Doc>, filter: Filter): (r: seq<Doc>)
    ensures |r| <= |items|
    ensures forall x :: x in r <==> x in items && Matches(x, filter)
    ensures (forall x :: x in items ==> Matches(x, filter)) ==> r == items
  {
    if items == [] then []
    else (if Matches(items[0], filter) then [items[0]] else []) + Filtered(items[1..], filter)
  }

  /** Filtering distributes over concatenation. With `FilteredCons` this
      fixes the result completely: the passing items, each as often as it is
      stored, in stored order. */
  lemma {:induction false} FilteredAppend(a: seq<Doc>, b: seq<Doc>, filter: Filter)
    ensures Filtered(a + b, filter) == Filtered(a, filter) + Filtered(b, filter)
  {
    if a == [] {
      assert a + b == b;
    } else {
      var t := a[1..];
      assert a == [a[0]] + t;
      assert a + b == [a[0]] + (t + b);
      FilteredCons(a[0], t + b, filter);
      FilteredCons(a[0], t, filter);
      FilteredAppend(t, b, filter);
      AppendAssociative(if Matches(a[0], filter) then [a[0]] else [], Filtered(t, filter), Filtered(b, filter));
    }
  }

  /** One item in front is kept exactly when it passes, ahead of the rest. */
  lemma FilteredCons(x: Doc, s: seq<Doc>, filter: Filter)
    ensures Filtered([x] + s, filter) == (if Matches(x, filter) then [x] else []) + Filtered(s, filter)
  {
    assert ([x] + s)[0] == x;
    assert ([x] + s)[1..] == s;
  }

  lemma AppendAssociative<T>(a: seq<T>, b: seq<T>, c: seq<T>)
    ensures (a + b) + c == a + (b + c)
  {
  }

  /** Entry `j` of the filtered list is the stored item `i`, and the stored
      items before `i` filter to exactly the entries before `j`. */
  lemma FilteredPosition(items: seq<Doc>, filter: Filter, j: nat) returns (i: nat)
    requires j < |Filtered(items, filter)|
    ensures i < |items| && items[i] == Filtered(items, filter)[j]
    ensures Filtered(items[..i], filter) == Filtered(items, filter)[..j]
  {
    i := PassingWithCount(items, filter, j);
    var before, after := items[..i], items[i + 1..];
    SplitAround(items, i);
    FilteredAppend(before, [items[i]] + after, filter);
    FilteredCons(items[i], after, filter);
    AroundPosition(Filtered(before, filter), items[i], Filtered(after, filter));
  }

  /** A passing stored item with exactly `j` passing items before it. */
  lemma {:induction false} PassingWithCount(items: seq<Doc>, filter: Filter, j: nat) returns (i: nat)
    requires j < |Filtered(items, filter)|
    ensures i < |items| && Matches(items[i], filter)
    ensures |Filtered(items[..i], filter)| == j
  {
    var x, tail := items[0], items[1..];
    assert items == [x] + tail;
    FilteredCons(x, tail, filter);
    if Matches(x, filter) && j == 0 {
      i := 0;
      assert items[..0] == [];
    } else {
      var head := if Matches(x, filter) then 1 else 0;
      var k := PassingWithCount(tail, filter, j - head);
      i := k + 1;
      PrefixOfTail(items, k);
      FilteredCons(x, tail[..k], filter);
    }
  }

  lemma SplitAround<T>(s: seq<T>, i: nat)
    requires i < |s|
    ensures s == s[..i] + ([s[i]] + s[i + 1..])
  {
  }

  lemma AroundPosition<T>(a: seq<T>, x: T, b: seq<T>)
    ensures (a + ([x] + b))[|a|] == x && (a + ([x] + b))[..|a|] == a
  {
  }

  lemma PrefixOfTail<T>(s: seq<T>, i: nat)
    requires i < |s|
    ensures s[..i + 1] == [s[0]] + s[1..][..i]
  {
  }

  /** A bound compares a numeric string with a number as numbers:
      `{ v: "10" }` passes `{ v: { $gt: 5 } }`. */
  lemma TextBoundedByNumber(t: string, x: real)
    requires StringToNumber(t).Some? && StringToNumber(t).value > x
    ensures Matches(map["v" := Str(t)], map["v" := Obj(map["$gt" := Num(x)])])
  {
    var bounds := map["$gt" := Num(x)];
    assert Get(bounds, "$gte") == Undefined && Get(bounds, "$lt") == Undefined && Get(bounds, "$lte") == Undefined;
    assert Compare(Str(t), Num(x)) == Greater;
    assert FieldMatches(Str(t), Obj(bounds));
  }

  /** The position of the first item that passes the filter. */
  function FirstMatch(items: seq<Doc>, filter: Filter): (r: Option<nat>)
    ensures r.None? <==> forall x :: x in items ==> !Matches(x, filter)
    ensures r.Some? ==> r.value < |items| && Matches(items[r.value], filter)
    ensures r.Some? ==> forall j :: 0 <= j < r.value ==> !Matches(items[j], filter)
  {
    if items == [] then None
    else if Matches(items[0], filter) then Some(0)
    else match FirstMatch(items[1..], filter)
      case None => None
      case Some(i) => Some(i + 1)
  }

  /** The first item the filter keeps is the item at the first matching position. */
  lemma {:induction false} FilteredHead(items: seq<Doc>, filter: Filter)
    ensures Filtered(items, filter) != [] <==> FirstMatch(items, filter).Some?
    ensures FirstMatch(items, filter).Some? ==>
      Filtered(items, filter)[0] == items[FirstMatch(items, filter).value]
  {
    if items != [] && !Matches(items[0], filter) {
      FilteredHead(items[1..], filter);
    }
  }

  /** With an empty filter every item is kept, in stored order. */
  lemma {:induction false} EmptyFilterKeepsAll(items: seq<Doc>)
    ensures Filtered(items, map[]) == items
  {
  }

  // ---------------------------------------------------------------------
  // Id lookup, merge and removal

  /** `findIndex(item => item._id === id)`. */
  function IdIndex(items: seq<Doc>, id: Value): (r: Option<nat>)
    ensures r.None? <==> forall x :: x in items ==> Get(x, "_id") != id
    ensures r.Some? ==> r.value < |items| && Get(items[r.value], "_id") == id
    ensures r.Some? ==> forall j :: 0 <= j < r.value ==> Get(items[j], "_id") != id
  {
    if items == [] then None
    else if Get(items[0], "_id") == id then Some(0)
    else match IdIndex(items[1..], id)
      case None => None
      case Some(i) => Some(i + 1)
  }

  /** `{...old, ...data, updatedAt: new Date()}`. */
  function Merged(prev: Doc, data: Doc, now: nat): (r: Doc)
    ensures r.Keys == prev.Keys + data.Keys + {"updatedAt"}
    ensures Get(r, "updatedAt") == Date(now)
    ensures forall k :: k in data && k != "updatedAt" ==> r[k] == data[k]
    ensures forall k :: k in prev && k !in data && k != "updatedAt" ==> r[k] == prev[k]
  {
    prev + data + map["updatedAt" := Date(now)]
  }

  /** The collection after `updateOne(name, id, data)`: the first item with
      that id merged with `data`, or the items unchanged when none has it. */
  function UpdateItems(items: seq<Doc>, id: Value, data: Doc, now: nat): (r: seq<Doc>)
    ensures |r| == |items|
    ensures IdIndex(items, id).None? ==> r == items
    ensures IdIndex(items, id).Some? ==>
      var i := IdIndex(items, id).value;
      r[i] == Merged(items[i], data, now) &&
      forall j :: 0 <= j < |items| && j != i ==> r[j] == items[j]
  {
    match IdIndex(items, id)
    case None => items
    case Some(i) => items[i := Merged(items[i], data, now)]
  }

  /** The collection table after `updateOne(name, id, data)`. */
  function UpdatedTable(table: map<string, seq<Doc>>, name: string, id: Value, data: Doc, now: nat)
    : (r: map<string, seq<Doc>>)
    ensures r.Keys == table.Keys
    ensures forall k :: k in table && k != name ==> r[k] == table[k]
    ensures name in table ==> r[name] == UpdateItems(table[name], id, data, now)
  {
    if name in table then table[name := UpdateItems(table[name], id, data, now)] else table
  }

  /** `filter(item => item._id !== id)`. */
  function WithoutId(items: seq<Doc>, id: Value): (r: seq<Doc>)
    ensures forall x :: x in r <==> x in items && Get(x, "_id") != id
    ensures |r| <= |items|
    ensures |r| < |items| <==> IdIndex(items, id).Some?
  {
    if items == [] then []
    else (if Get(items[0], "_id") != id then [items[0]] else []) + WithoutId(items[1..], id)
  }

  /** `{...data, _id: data._id || generateId(), createdAt: data.createdAt || new Date()}`,
      where `freshId` is what `generateId()` would return. */
  function InsertedItem(data: Doc, freshId: Value, now: nat): (r: Doc)
    ensures Get(r, "_id") == Or(Get(data, "_id"), freshId)
    ensures Get(r, "createdAt") == Or(Get(data, "createdAt"), Date(now))
    ensures forall k :: k != "_id" && k != "createdAt" ==> Get(r, k) == Get(data, k)
  {
    data["_id" := Or(Get(data, "_id"), freshId)]["createdAt" := Or(Get(data, "createdAt"), Date(now))]
  }

  /** The inserted record has the data's own properties plus `_id` and
      `createdAt`. */
  lemma InsertedItemKeys(data: Doc, freshId: Value, now: nat)
    ensures InsertedItem(data, freshId, now).Keys == data.Keys + {"_id", "createdAt"}
  {
  }

  // ---------------------------------------------------------------------
  // Sorting

  /** `options.sort` reduced to its first key and that key's direction. */
  datatype SortSpec = SortSpec(key: string, direction: Value)

  predicate Descending(spec: SortSpec)
  {
    spec.direction == Num(-1.0)
  }

  /** The comparator of memoryStore.js returns a negative number for (a, b):
      a's key is smaller (ascending) or larger (descending, direction -1). */
  predicate Precedes(spec: SortSpec, a: Doc, b: Doc)
  {
    var c := Compare(Get(a, spec.key), Get(b, spec.key));
    if Descending(spec) then c == Greater else c == Less
  }

  /** A comparator's verdict cannot go both ways. */
  lemma PrecedesAsymmetric(spec: SortSpec, a: Doc, b: Doc)
    requires Precedes(spec, a, b)
    ensures !Precedes(spec, b, a)
  {
    CompareAntisymmetric(Get(a, spec.key), Get(b, spec.key));
  }

  /** Inserts `x` into `sorted` after every element it does not precede,
      so equal keys keep their order. */
  function Insert(spec: SortSpec, sorted: seq<Doc>, x: Doc): (r: seq<Doc>)
    ensures multiset(r) == multiset(sorted) + multiset{x}
    ensures |r| == |sorted| + 1
    ensures r != [] && (r[|r| - 1] == x || (sorted != [] && r[|r| - 1] == sorted[|sorted| - 1]))
  {
    if sorted == [] then [x]
    else if Precedes(spec, x, sorted[|sorted| - 1]) then
      assert sorted == sorted[..|sorted| - 1] + [sorted[|sorted| - 1]];
      Insert(spec, sorted[..|sorted| - 1], x) + [sorted[|sorted| - 1]]
    else sorted + [x]
  }

  /** No element is preceded by the element right after it. */
  predicate LocallySorted(spec: SortSpec, s: seq<Doc>)
  {
    forall i :: 0 < i < |s| ==> !Precedes(spec, s[i], s[i - 1])
  }

  /** No element is preceded by any later element. */
  predicate SortedBy(spec: SortSpec, s: seq<Doc>)
  {
    forall i, j :: 0 <= i < j < |s| ==> !Precedes(spec, s[j], s[i])
  }

  /** Appending an element not preceding the last one keeps local order. */
  lemma LocallySortedSnoc(spec: SortSpec, s: seq<Doc>, y: Doc)
    requires LocallySorted(spec, s)
    requires s != [] ==> !Precedes(spec, y, s[|s| - 1])
    ensures LocallySorted(spec, s + [y])
  {
  }

  lemma {:induction false} InsertLocallySorted(spec: SortSpec, sorted: seq<Doc>, x: Doc)
    requires LocallySorted(spec, sorted)
    ensures LocallySorted(spec, Insert(spec, sorted, x))
    decreases |sorted|
  {
    if sorted != [] {
      var u, y := sorted[..|sorted| - 1], sorted[|sorted| - 1];
      if Precedes(spec, x, y) {
        assert LocallySorted(spec, u);
        InsertLocallySorted(spec, u, x);
        var v := Insert(spec, u, x);
        if v[|v| - 1] == x {
          PrecedesAsymmetric(spec, x, y);
        } else {
          assert u != [] && v[|v| - 1] == sorted[|sorted| - 2];
        }
        LocallySortedSnoc(spec, v, y);
        assert Insert(spec, sorted, x) == v + [y];
      } else {
        LocallySortedSnoc(spec, sorted, x);
      }
    }
  }

  /** `results.sort(comparator)`: a stable sort by the comparator. */
  function SortBy(spec: SortSpec, items: seq<Doc>): (r: seq<Doc>)
    ensures multiset(r) == multiset(items)
    ensures |r| == |items|
  {
    if items == [] then []
    else
      var init, last := items[..|items| - 1], items[|items| - 1];
      assert items == init + [last];
      assert multiset(items) == multiset(init) + multiset{last};
      Insert(spec, SortBy(spec, init), last)
  }

  /** Sorting rearranges the items so that no item follows one it precedes. */
  lemma {:induction false} SortByLocallySorted(spec: SortSpec, items: seq<Doc>)
    ensures LocallySorted(spec, SortBy(spec, items))
    decreases |items|
  {
    if items != [] {
      SortByLocallySorted(spec, items[..|items| - 1]);
      InsertLocallySorted(spec, SortBy(spec, items[..|items| - 1]), items[|items| - 1]);
    }
  }

  /** Every two sort keys among the items are ordered, and the keys are of
      one kind: all strings, compared as text, or none, compared as numbers.
      Then the comparator is consistent; mixing the kinds it is not (see
      `Values.CompareMixedNotTransitive`). */
  predicate KeysOrdered(key: string, items: seq<Doc>)
  {
    && (forall a, b :: a in items && b in items ==> Compare(Get(a, key), Get(b, key)) != Unordered)
    && ((forall a :: a in items ==> Get(a, key).Str?) || (forall a :: a in items ==> !Get(a, key).Str?))
  }

  lemma NotPrecedesTransitive(spec: SortSpec, a: Doc, b: Doc, c: Doc)
    requires Compare(Get(a, spec.key), Get(b, spec.key)) != Unordered
    requires Compare(Get(b, spec.key), Get(c, spec.key)) != Unordered
    requires Get(a, spec.key).Str? == Get(b, spec.key).Str? == Get(c, spec.key).Str?
    requires !Precedes(spec, a, b) && !Precedes(spec, b, c)
    ensures !Precedes(spec, a, c)
  {
    var ka, kb, kc := Get(a, spec.key), Get(b, spec.key), Get(c, spec.key);
    CompareAntisymmetric(ka, kb);
    CompareAntisymmetric(kb, kc);
    CompareAntisymmetric(ka, kc);
    if Descending(spec) {
      CompareTransitive(ka, kb, kc);
    } else {
      CompareTransitive(kc, kb, ka);
    }
  }

  lemma {:induction false} LocallyToGlobally(spec: SortSpec, s: seq<Doc>)
    requires LocallySorted(spec, s)
    requires KeysOrdered(spec.key, s)
    ensures SortedBy(spec, s)
  {
    forall i, j | 0 <= i < j < |s| ensures !Precedes(spec, s[j], s[i]) {
      LocallyToGloballyAt(spec, s, i, j);
    }
  }

  lemma {:induction false} LocallyToGloballyAt(spec: SortSpec, s: seq<Doc>, i: nat, j: nat)
    requires LocallySorted(spec, s)
    requires KeysOrdered(spec.key, s)
    requires i < j < |s|
    ensures !Precedes(spec, s[j], s[i])
    decreases j - i
  {
    if i + 1 < j {
      LocallyToGloballyAt(spec, s, i, j - 1);
      assert s[j] in s && s[j - 1] in s && s[i] in s;
      NotPrecedesTransitive(spec, s[j], s[j - 1], s[i]);
    }
  }

  /** When the keys are mutually ordered the sort output is fully ordered:
      ascending by the key, or descending when the direction is -1. */
  lemma {:induction false} SortByOrdered(spec: SortSpec, items: seq<Doc>)
    requires KeysOrdered(spec.key, items)
    ensures SortedBy(spec, SortBy(spec, items))
  {
    var r := SortBy(spec, items);
    SortByLocallySorted(spec, items);
    forall a | a in r
      ensures a in items
    {
      assert a in multiset(r);
    }
    LocallyToGlobally(spec, r);
  }

  // ---------------------------------------------------------------------
  // Skip and limit

  /** `s.slice(start)`: a negative start counts from the end. */
  function SliceFrom<T>(s: seq<T>, start: int): (r: seq<T>)
    ensures 0 <= start ==> r == s[if start < |s| then start else |s|..]
    ensures start < 0 ==> r == s[if |s| + start > 0 then |s| + start else 0..]
    ensures |r| <= |s| && forall x :: x in r ==> x in s
  {
    var from := if start < 0 then (if |s| + start > 0 then |s| + start else 0)
                else (if start < |s| then start else |s|);
    s[from..]
  }

  /** `s.slice(0, end)`: a negative end drops that many items from the end. */
  function SliceTo<T>(s: seq<T>, end: int): (r: seq<T>)
    ensures 0 <= end ==> |r| == (if end < |s| then end else |s|)
    ensures end < 0 ==> |r| == (if |s| + end > 0 then |s| + end else 0)
    ensures r == s[..|r|]
    ensures forall x :: x in r ==> x in s
  {
    var to := if end < 0 then (if |s| + end > 0 then |s| + end else 0)
              else (if end < |s| then end else |s|);
    s[..to]
  }

  /** Query options; a `skip` or `limit` of 0 stands for an absent (falsy) one. */
  datatype FindOptions = FindOptions(sort: Option<SortSpec>, skip: int, limit: int)

  const NoOptions := FindOptions(None, 0, 0)

  /** `find` on a copy of one collection: filter, then sort, then skip, then limit. */
  function FindIn(items: seq<Doc>, filter: Filter, options: FindOptions): (r: seq<Doc>)
    ensures forall x :: x in r ==> x in items && Matches(x, filter)
    ensures |r| <= |items|
    ensures options.limit > 0 ==> |r| <= options.limit
    ensures options == NoOptions ==> r == Filtered(items, filter)
  {
    var kept := Filtered(items, filter);
    var sorted := if options.sort.Some? then SortBy(options.sort.value, kept) else kept;
    SortedMembers(kept, sorted);
    var skipped := if options.skip != 0 then SliceFrom(sorted, options.skip) else sorted;
    assert |skipped| <= |kept| && forall x :: x in skipped ==> x in kept;
    if options.limit != 0 then SliceTo(skipped, options.limit) else skipped
  }

  lemma SortedMembers(kept: seq<Doc>, sorted: seq<Doc>)
    requires multiset(sorted) == multiset(kept)
    ensures |sorted| == |kept|
    ensures forall x :: x in sorted ==> x in kept
  {
    assert |sorted| == |multiset(sorted)|;
    forall x | x in sorted ensures x in kept {
      assert x in multiset(sorted);
    }
  }

  /** `s.slice(skip).slice(0, limit)` for a non-negative skip and a positive
      limit is the window of at most `limit` items starting at `skip`. */
  lemma PageWindow<T>(s: seq<T>, skip: nat, limit: nat)
    requires 0 < limit
    ensures var from := if skip < |s| then skip else |s|;
      var to := if skip + limit < |s| then skip + limit else |s|;
      SliceTo(SliceFrom(s, skip), limit) == s[from..to]
  {
    var from := if skip < |s| then skip else |s|;
    var rest := SliceFrom(s, skip);
    assert rest == s[from..];
    var page := SliceTo(rest, limit);
    assert page == rest[..|page|];
  }

  /** With a non-negative skip and a positive limit, `find` returns one page:
      the filtered, sorted items from position `skip`, at most `limit` of them. */
  lemma {:induction false} FindInPage(items: seq<Doc>, filter: Filter, spec: SortSpec, skip: nat, limit: nat)
    requires 0 < limit
    ensures var sorted := SortBy(spec, Filtered(items, filter));
      var from := if skip < |sorted| then skip else |sorted|;
      var to := if skip + limit < |sorted| then skip + limit else |sorted|;
      FindIn(items, filter, FindOptions(Some(spec), skip, limit)) == sorted[from..to]
  {
    var sorted := SortBy(spec, Filtered(items, filter));
    PageWindow(sorted, skip, limit);
    assert SliceFrom(sorted, 0) == sorted;
  }
  /** Entry `m` of such a page is item `skip + m` of the sorted matches. */
  lemma {:induction false} FindInEntry(items: seq<Doc>, filter: Filter, spec: SortSpec, skip: nat, limit: nat, m: nat)
    requires m < limit && skip + m < |SortBy(spec, Filtered(items, filter))|
    ensures var page := FindIn(items, filter, FindOptions(Some(spec), skip, limit));
      m < |page| && page[m] == SortBy(spec, Filtered(items, filter))[skip + m]
  {
    var sorted := SortBy(spec, Filtered(items, filter));
    assert FindIn(items, filter, FindOptions(Some(spec), skip, limit)) == SliceTo(SliceFrom(sorted, skip), limit) by {
      assert SliceFrom(sorted, 0) == sorted;
    }
    WindowEntry(sorted, skip, limit, m);
  }

  lemma WindowEntry<T>(s: seq<T>, skip: nat, limit: nat, m: nat)
    requires m < limit && skip + m < |s|
    ensures var page := SliceTo(SliceFrom(s, skip), limit);
      m < |page| && page[m] == s[skip + m]
  {
    PageWindow(s, skip, limit);
  }



  // ---------------------------------------------------------------------
  // The store

  class Store {
    /** The module-level `collections` table. */
    var collections: map<string, seq<Doc>>
    /** The module-level `idCounter`. */
    var idCounter: nat

    /** The three collections the server starts with. Every method below
        keeps or grows the set of collection names (its `collections.Keys`
        ensures), so they stay present. */
    predicate HasCoreCollections()
      reads this
    {
      VESSELS in collections && ANOMALIES in collections && GEOFENCES in collections
    }

    constructor ()
      ensures collections == map[VESSELS := [], ANOMALIES := [], GEOFENCES := []]
      ensures idCounter == 1
      ensures HasCoreCollections()
    {
      collections := map[VESSELS := [], ANOMALIES := [], GEOFENCES := []];
      idCounter := 1;
    }

    /** The items of a collection, none for an unknown name. */
    function Items(name: string): seq<Doc>
      reads this
    {
      if name in collections then collections[name] else []
    }

    /** `find(name, filter, options)`; reads the table and changes nothing. */
    function Find(name: string, filter: Filter, options: FindOptions): (r: seq<Doc>)
      reads this
      ensures name !in collections ==> r == []
      ensures forall x :: x in r ==> x in collections[name] && Matches(x, filter)
      ensures options == NoOptions ==> r == Filtered(Items(name), filter)
    {
      if name !in collections then [] else FindIn(collections[name], filter, options)
    }

    /** `findOne(name, filter)`: the first stored item that passes, or null. */
    function FindOne(name: string, filter: Filter): (r: Option<Doc>)
      reads this
      ensures r.None? <==> FirstMatch(Items(name), filter).None?
      ensures r.Some? ==> r.value == Items(name)[FirstMatch(Items(name), filter).value]
    {
      FilteredHead(Items(name), filter);
      var results := Find(name, filter, NoOptions);
      if |results| > 0 then Some(results[0]) else None
    }

    /** `countDocuments(name, filter)`: how many stored items pass. */
    function CountDocuments(name: string, filter: Filter): (n: nat)
      reads this
      ensures n == |Filtered(Items(name), filter)|
      ensures n <= |Items(name)|
      ensures n == 0 <==> FirstMatch(Items(name), filter).None?
    {
      FilteredHead(Items(name), filter);
      |Find(name, filter, NoOptions)|
    }

    /** `generateId()`: the counter's text, then the counter moves on. */
    method GenerateId() returns (id: string)
      modifies this
      ensures id == Decimal(old(idCounter))
      ensures idCounter == old(idCounter) + 1
      ensures collections == old(collections)
      ensures old(HasCoreCollections()) ==> HasCoreCollections()
    {
      id := Decimal(idCounter);
      idCounter := idCounter + 1;
    }

    /** `insertOne(name, data)`: appends one item, creating the collection if
        needed; the counter advances only when `data` has no truthy `_id`. */
    method InsertOne(name: string, data: Doc, now: nat) returns (item: Doc)
      modifies this
      ensures item == InsertedItem(data, Str(Decimal(old(idCounter))), now)
      ensures collections == old(collections)[name := old(Items(name)) + [item]]
      ensures idCounter == old(idCounter) + (if Truthy(Get(data, "_id")) then 0 else 1)
      ensures collections.Keys == old(collections).Keys + {name}
      ensures old(HasCoreCollections()) ==> HasCoreCollections()
    {
      if name !in collections {
        collections := collections[name := []];
      }
      var id := Get(data, "_id");
      if !Truthy(id) {
        var generated := GenerateId();
        id := Str(generated);
      }
      item := data["_id" := id]["createdAt" := Or(Get(data, "createdAt"), Date(now))];
      collections := collections[name := collections[name] + [item]];
    }

    /** `updateOne(name, id, data)`: null and no change for an unknown
        collection or id; otherwise the first item with that id is merged. */
    method UpdateOne(name: string, id: Value, data: Doc, now: nat) returns (r: Option<Doc>)
      modifies this
      ensures idCounter == old(idCounter)
      ensures collections == UpdatedTable(old(collections), name, id, data, now)
      ensures name !in old(collections) || IdIndex(old(collections[name]), id).None? ==>
        collections == old(collections)
      ensures r.None? <==> IdIndex(old(Items(name)), id).None?
      ensures r.Some? ==>
        r.value == Merged(old(Items(name))[IdIndex(old(Items(name)), id).value], data, now)
      ensures collections.Keys == old(collections).Keys
      ensures old(HasCoreCollections()) ==> HasCoreCollections()
    {
      if name !in collections {
        return None;
      }
      var items := collections[name];
      var index := IdIndex(items, id);
      if index.None? {
        assert collections[name := items] == collections;
        return None;
      }
      var updated := Merged(items[index.value], data, now);
      assert items[index.value := updated] == UpdateItems(items, id, data, now);
      assert items == Items(name);
      collections := collections[name := items[index.value := updated]];
      r := Some(updated);
    }

    /** `deleteOne(name, id)`: removes every item with that id and reports
        whether the collection shrank. */
    method DeleteOne(name: string, id: Value) returns (deleted: bool)
      modifies this
      ensures idCounter == old(idCounter)
      ensures name !in old(collections) ==> !deleted && collections == old(collections)
      ensures name in old(collections) ==>
        collections == old(collections)[name := WithoutId(old(collections[name]), id)]
      ensures deleted <==> IdIndex(old(Items(name)), id).Some?
      ensures collections.Keys == old(collections).Keys
      ensures old(HasCoreCollections()) ==> HasCoreCollections()
    {
      if name !in collections {
        return false;
      }
      var initialLength := |collections[name]|;
      collections := collections[name := WithoutId(collections[name], id)];
      deleted := |collections[name]| < initialLength;
    }

    /** `clearCollection(name)`: empties one known collection; with no name
        (or any falsy one) empties every collection. The id counter is kept. */
    method ClearCollection(name: Option<string>)
      modifies this
      ensures idCounter == old(idCounter)
      ensures name.None? || name.value == "" ==>
        collections == map k | k in old(collections) :: []
      ensures name.Some? && name.value != "" && name.value in old(collections) ==>
        collections == old(collections)[name.value := []]
      ensures name.Some? && name.value != "" && name.value !in old(collections) ==>
        collections == old(collections)
      ensures collections.Keys == old(collections).Keys
      ensures old(HasCoreCollections()) ==> HasCoreCollections()
    {
      if name.Some? && name.value != "" {
        if name.value in collections {
          collections := collections[name.value := []];
        }
      } else {
        collections := map k | k in collections :: [];
      }
    }
  }
}
