/**
 * The compositor loop's data: the name-keyed live set and the stable z-ordering
 * of its layers.
 */
module Compositor {
  import opened Wrappers
  import opened Widgets

  /**
   * The live set: a dict from name to widget, kept as its entries in insertion
   * order (a Python dict remembers the order in which keys were first inserted).
   */
  type LiveSet = seq<Widget>

  /** No two entries share a name, as for the keys of a dict. */
  predicate UniqueNames(s: seq<Widget>)
  {
    forall i, j :: 0 <= i < j < |s| ==> s[i].name != s[j].name
  }

  /** The set of keys. */
  function Names(s: seq<Widget>): set<string>
  {
    if s == [] then {} else {s[0].name} + Names(s[1..])
  }

  /** Position of the first entry named `name`. */
  function Find(s: seq<Widget>, name: string): (r: Option<nat>)
    ensures r.Some? ==> r.value < |s| && s[r.value].name == name
    ensures r.Some? ==> forall j :: 0 <= j < r.value ==> s[j].name != name
    ensures r.None? <==> name !in Names(s)
    ensures r.None? ==> forall j :: 0 <= j < |s| ==> s[j].name != name
  {
    if s == [] then None
    else if s[0].name == name then Some(0)
    else match Find(s[1..], name)
      case None => None
      case Some(i) => Some(i + 1)
  }

  /** `widgets.get(name)`. */
  function Lookup(s: LiveSet, name: string): Option<Widget>
  {
    match Find(s, name)
    case None => None
    case Some(i) => Some(s[i])
  }

  /**
   * `widgets[w.name] = w`: an existing entry is replaced where it stands,
   * a new name is appended at the end.
   */
  function Upsert(s: LiveSet, w: Widget): (r: LiveSet)
    ensures match Find(s, w.name)
      case Some(i) => r == s[i := w]
      case None => r == s + [w]
  {
    if s == [] then [w]
    else if s[0].name == w.name then [w] + s[1..]
    else [s[0]] + Upsert(s[1..], w)
  }

  /** An entry whose earlier entries all carry other names is the one `Find` reports. */
  lemma FindAt(s: seq<Widget>, i: nat)
    requires i < |s|
    requires forall j :: 0 <= j < i ==> s[j].name != s[i].name
    ensures Find(s, s[i].name) == Some(i)
  {
  }

  /** After the upsert `w.name` maps to `w` and every other name maps to what it mapped to before. */
  lemma UpsertLookup(s: LiveSet, w: Widget, n: string)
    ensures Lookup(Upsert(s, w), n) == if n == w.name then Some(w) else Lookup(s, n)
  {
    var r := Upsert(s, w);
    match Find(s, w.name)
    case Some(i) =>
      assert r == s[i := w];
      if n == w.name {
        FindAt(r, i);
      } else {
        match Find(s, n)
        case None =>
          assert forall j :: 0 <= j < |r| ==> r[j].name != n;
        case Some(k) =>
          FindAt(r, k);
      }
    case None =>
      assert r == s + [w];
      if n == w.name {
        FindAt(r, |s|);
      } else {
        match Find(s, n)
        case None =>
          assert forall j :: 0 <= j < |r| ==> r[j].name != n;
        case Some(k) =>
          FindAt(r, k);
      }
  }

  /** The upsert keeps the keys unique, adds `w.name` to them and grows by one entry only for a new name. */
  lemma {:induction false} UpsertKeys(s: LiveSet, w: Widget)
    requires UniqueNames(s)
    ensures UniqueNames(Upsert(s, w))
    ensures Names(Upsert(s, w)) == Names(s) + {w.name}
    ensures |Upsert(s, w)| == if w.name in Names(s) then |s| else |s| + 1
  {
    match Find(s, w.name)
    case Some(i) =>
      NamesOfUpdate(s, i, w);
    case None =>
      NamesOfAppend(s, w);
  }

  lemma {:induction false} NamesOfAppend(s: seq<Widget>, w: Widget)
    ensures Names(s + [w]) == Names(s) + {w.name}
  {
    if s == [] {
      assert s + [w] == [w];
    } else {
      assert (s + [w])[1..] == s[1..] + [w];
      NamesOfAppend(s[1..], w);
    }
  }

  lemma {:induction false} NamesOfUpdate(s: seq<Widget>, i: nat, w: Widget)
    requires i < |s| && s[i].name == w.name
    ensures Names(s[i := w]) == Names(s)
  {
    if i == 0 {
      assert s[i := w][1..] == s[1..];
    } else {
      assert s[i := w][1..] == s[1..][i - 1 := w];
      NamesOfUpdate(s[1..], i - 1, w);
    }
  }

  /** Re-submitting the same widget leaves the live set as it was after the first submission. */
  lemma UpsertIdempotent(s: LiveSet, w: Widget)
    ensures Upsert(Upsert(s, w), w) == Upsert(s, w)
  {
    var r := Upsert(s, w);
    match Find(s, w.name)
    case Some(i) =>
      FindAt(r, i);
    case None =>
      FindAt(r, |s|);
  }

  // ---------------------------------------------------------------------------
  // Rendering order

  /** Layers are listed bottom first: `z` never decreases along the list. */
  predicate SortedByZ(s: seq<Widget>)
  {
    forall i, j :: 0 <= i < j < |s| ==> s[i].z <= s[j].z
  }

  /** The entries of `s` at height `k`, in their order in `s`. */
  function WithZ(s: seq<Widget>, k: int): seq<Widget>
  {
    if s == [] then [] else (if s[0].z == k then [s[0]] else []) + WithZ(s[1..], k)
  }

  lemma {:induction false} WithZConcat(a: seq<Widget>, b: seq<Widget>, k: int)
    ensures WithZ(a + b, k) == WithZ(a, k) + WithZ(b, k)
  {
    if a == [] {
      assert a + b == b;
    } else {
      var head := if a[0].z == k then [a[0]] else [];
      assert (a + b)[0] == a[0];
      assert (a + b)[1..] == a[1..] + b;
      assert WithZ(a + b, k) == head + WithZ(a[1..] + b, k);
      WithZConcat(a[1..], b, k);
      assert WithZ(a, k) == head + WithZ(a[1..], k);
    }
  }

  lemma {:induction false} WithZMembers(s: seq<Widget>, k: int, x: Widget)
    ensures x in WithZ(s, k) <==> x in s && x.z == k
  {
    if s != [] {
      WithZMembers(s[1..], k, x);
      assert s == [s[0]] + s[1..];
    }
  }

  /** Inserts `w` into a sorted list before every entry of the same or greater height. */
  function Insert(w: Widget, s: seq<Widget>): (r: seq<Widget>)
    requires SortedByZ(s)
    ensures SortedByZ(r)
    ensures |r| == |s| + 1
    ensures r[0] == w || (s != [] && r[0] == s[0])
  {
    if s == [] || w.z <= s[0].z then [w] + s
    else
      var rest := Insert(w, s[1..]);
      assert s[0].z <= rest[0].z;
      [s[0]] + rest
  }

  /** Inserting adds exactly `w` to the entries. */
  lemma {:induction false} InsertPermutes(w: Widget, s: seq<Widget>)
    requires SortedByZ(s)
    ensures multiset(Insert(w, s)) == multiset(s) + multiset{w}
  {
    if s != [] && w.z > s[0].z {
      InsertPermutes(w, s[1..]);
      assert s == [s[0]] + s[1..];
    }
  }

  /** Inserting `w` adds it in front of the entries already at its height, after all lower ones. */
  lemma {:induction false} InsertStable(w: Widget, s: seq<Widget>, k: int)
    requires SortedByZ(s)
    ensures WithZ(Insert(w, s), k) == WithZ([w] + s, k)
  {
    if s == [] || w.z <= s[0].z {
    } else {
      var rest := Insert(w, s[1..]);
      InsertStable(w, s[1..], k);
      assert s == [s[0]] + s[1..];
      WithZConcat([s[0]], rest, k);
      WithZConcat([w], s[1..], k);
      WithZConcat([s[0]], s[1..], k);
      WithZConcat([w], s, k);
      assert WithZ([s[0]], k) == if s[0].z == k then [s[0]] else [];
      assert WithZ([w], k) == if w.z == k then [w] else [];
    }
  }

  /** `sorted(widgets.values(), key=lambda w: w.z)`, as an insertion sort: ascending `z`. */
  function SortByZ(s: seq<Widget>): (r: seq<Widget>)
    ensures SortedByZ(r)
    ensures |r| == |s|
  {
    if s == [] then [] else Insert(s[0], SortByZ(s[1..]))
  }

  /** The sorted list holds exactly the live entries. */
  lemma {:induction false} SortByZPermutes(s: seq<Widget>)
    ensures multiset(SortByZ(s)) == multiset(s)
  {
    if s != [] {
      var tail := SortByZ(s[1..]);
      SortByZPermutes(s[1..]);
      InsertPermutes(s[0], tail);
      assert s == [s[0]] + s[1..];
      calc {
        multiset(SortByZ(s));
        multiset(Insert(s[0], tail));
        multiset(tail) + multiset{s[0]};
        multiset(s[1..]) + multiset{s[0]};
        multiset([s[0]] + s[1..]);
      }
    }
  }

  /** The sort is stable: the entries at each height keep their order in the live set. */
  lemma {:induction false} SortByZStable(s: seq<Widget>, k: int)
    ensures WithZ(SortByZ(s), k) == WithZ(s, k)
  {
    if s != [] {
      SortByZStable(s[1..], k);
      InsertStable(s[0], SortByZ(s[1..]), k);
      WithZConcat([s[0]], SortByZ(s[1..]), k);
      WithZConcat([s[0]], s[1..], k);
      assert s == [s[0]] + s[1..];
    }
  }

  /**
   * There is exactly one stable ascending order: two lists that are both sorted
   * by `z` and agree on the entries at every height are the same list.
   */
  lemma {:induction false} StableOrderUnique(a: seq<Widget>, b: seq<Widget>)
    requires SortedByZ(a) && SortedByZ(b)
    requires forall k :: WithZ(a, k) == WithZ(b, k)
    ensures a == b
    decreases |a|
  {
    if a == [] {
      if b != [] {
        assert false;
      }
    } else if b == [] {
      WithZMembers(a, a[0].z, a[0]);
      assert false;
    } else {
      var ka, kb := a[0].z, b[0].z;
      WithZMembers(a, ka, a[0]);
      WithZMembers(b, ka, a[0]);
      WithZMembers(b, kb, b[0]);
      WithZMembers(a, kb, b[0]);
      assert ka == kb;
      assert WithZ(a, ka) == WithZ(b, ka);
      assert WithZ(a, ka) == [a[0]] + WithZ(a[1..], ka);
      assert WithZ(b, ka) == [b[0]] + WithZ(b[1..], ka);
      assert WithZ(a, ka)[0] == a[0];
      assert WithZ(b, ka)[0] == b[0];
      forall k
        ensures WithZ(a[1..], k) == WithZ(b[1..], k)
      {
        assert WithZ(a, k) == WithZ(b, k);
        if k != ka {
          assert WithZ(a, k) == WithZ(a[1..], k);
          assert WithZ(b, k) == WithZ(b[1..], k);
        } else {
          assert [a[0]] + WithZ(a[1..], k) == [b[0]] + WithZ(b[1..], k);
          assert WithZ(a[1..], k) == ([a[0]] + WithZ(a[1..], k))[1..];
          assert WithZ(b[1..], k) == ([b[0]] + WithZ(b[1..], k))[1..];
        }
      }
      StableOrderUnique(a[1..], b[1..]);
      assert a == [a[0]] + a[1..];
      assert b == [b[0]] + b[1..];
    }
  }

  /** A list is the rendering order of `s` exactly when it is sorted by `z` and stable. */
  lemma {:induction false} RenderOrderCharacterised(s: seq<Widget>, order: seq<Widget>)
    ensures order == SortByZ(s) ==> SortedByZ(order) && forall k :: WithZ(order, k) == WithZ(s, k)
    ensures SortedByZ(order) && (forall k :: WithZ(order, k) == WithZ(s, k)) ==> order == SortByZ(s)
  {
    var sorted := SortByZ(s);
    forall k
      ensures WithZ(sorted, k) == WithZ(s, k)
    {
      SortByZStable(s, k);
    }
    if order == sorted {
      assert SortedByZ(order);
      assert forall k :: WithZ(order, k) == WithZ(s, k);
    }
    if SortedByZ(order) && forall k :: WithZ(order, k) == WithZ(s, k) {
      forall k
        ensures WithZ(order, k) == WithZ(sorted, k)
      {
        assert WithZ(order, k) == WithZ(s, k);
      }
      StableOrderUnique(order, sorted);
      assert order == SortByZ(s);
    }
  }
}
