/**
  The page registry (core/page_registry.py): a table of page specifications
  keyed by page id, listed in `(group, order)` order.
*/
module Pages {
  import opened Wrappers
  import opened Text

  /**
    The page factory `Callable[[AppContext], QWidget]` is opaque; a
    `FactoryId` names which factory a spec carries.
  */
  type FactoryId = nat

  datatype PageSpec = PageSpec(
    page_id: string,
    title: string,
    icon_text: string,
    factory: FactoryId,
    order: int := 100,
    group: string := "General"
  )

  // ---------------------------------------------------------------------
  // The sort key `(p.group, p.order)`: tuples compare element by element.

  predicate KeyLt(a: PageSpec, b: PageSpec) {
    StrLess(a.group, b.group) || (a.group == b.group && a.order < b.order)
  }

  predicate KeyLe(a: PageSpec, b: PageSpec) {
    StrLess(a.group, b.group) || (a.group == b.group && a.order <= b.order)
  }

  lemma KeyTotal(a: PageSpec, b: PageSpec)
    ensures !KeyLt(a, b) ==> KeyLe(b, a)
  {
    StrLessTrichotomy(a.group, b.group);
  }

  lemma KeyLtLe(a: PageSpec, b: PageSpec, c: PageSpec)
    requires KeyLt(a, b) && KeyLe(b, c)
    ensures KeyLt(a, c)
  {
    if StrLess(a.group, b.group) && StrLess(b.group, c.group) {
      StrLessTransitive(a.group, b.group, c.group);
    }
  }

  /** Non-decreasing in `(group, order)`. */
  ghost predicate Sorted(s: seq<PageSpec>) {
    forall i :: 0 < i < |s| ==> KeyLe(s[i - 1], s[i])
  }

  /** The specs of `s` whose key is `(group, order)`, in the order of `s`. */
  function WithKey(s: seq<PageSpec>, group: string, order: int): seq<PageSpec> {
    if s == [] then []
    else (if s[0].group == group && s[0].order == order then [s[0]] else [])
         + WithKey(s[1..], group, order)
  }

  /** Puts `x` after every element whose key is not greater than its own. */
  function Insert(x: PageSpec, s: seq<PageSpec>): seq<PageSpec> {
    if s == [] then [x]
    else if KeyLt(x, s[0]) then [x] + s
    else [s[0]] + Insert(x, s[1..])
  }

  /** `sorted(values, key=lambda p: (p.group, p.order))`: a stable insertion sort. */
  function SortPages(s: seq<PageSpec>): seq<PageSpec> {
    if s == [] then [] else Insert(s[|s| - 1], SortPages(s[..|s| - 1]))
  }

  lemma {:induction false} InsertPermutes(x: PageSpec, s: seq<PageSpec>)
    ensures multiset(Insert(x, s)) == multiset(s) + multiset{x}
    ensures |Insert(x, s)| == |s| + 1
    ensures Insert(x, s)[0] == x || (s != [] && Insert(x, s)[0] == s[0])
  {
    if s != [] && !KeyLt(x, s[0]) {
      InsertPermutes(x, s[1..]);
      assert s == [s[0]] + s[1..];
    }
  }

  lemma {:induction false} InsertSorted(x: PageSpec, s: seq<PageSpec>)
    requires Sorted(s)
    ensures Sorted(Insert(x, s))
  {
    if s != [] && !KeyLt(x, s[0]) {
      InsertSorted(x, s[1..]);
      InsertPermutes(x, s[1..]);
      KeyTotal(x, s[0]);
      var t := Insert(x, s);
      assert t == [s[0]] + Insert(x, s[1..]);
      forall i | 0 < i < |t| ensures KeyLe(t[i - 1], t[i]) {
        if i > 1 {
          assert t[i - 1] == Insert(x, s[1..])[i - 2] && t[i] == Insert(x, s[1..])[i - 1];
        }
      }
    }
  }

  /** Every element of a sorted list is at or above its head. */
  lemma {:induction false} AllAboveHead(x: PageSpec, s: seq<PageSpec>)
    requires Sorted(s) && s != [] && KeyLt(x, s[0])
    ensures forall k :: 0 <= k < |s| ==> KeyLt(x, s[k])
  {
    if |s| > 1 {
      KeyLtLe(x, s[0], s[1]);
      AllAboveHead(x, s[1..]);
      forall k | 0 <= k < |s| ensures KeyLt(x, s[k]) {
        if k > 0 { assert s[k] == s[1..][k - 1]; }
      }
    }
  }

  lemma {:induction false} NoneWithKey(s: seq<PageSpec>, group: string, order: int)
    requires forall k :: 0 <= k < |s| ==> !(s[k].group == group && s[k].order == order)
    ensures WithKey(s, group, order) == []
  {
    if s != [] {
      NoneWithKey(s[1..], group, order);
    }
  }

  lemma {:induction false} WithKeyAppend(a: seq<PageSpec>, b: seq<PageSpec>, group: string, order: int)
    ensures WithKey(a + b, group, order) == WithKey(a, group, order) + WithKey(b, group, order)
  {
    if a == [] {
      assert a + b == b;
    } else {
      assert (a + b)[1..] == a[1..] + b;
      WithKeyAppend(a[1..], b, group, order);
    }
  }

  /** Inserting `x` adds it after every spec that shares its key. */
  lemma {:induction false} InsertStable(x: PageSpec, s: seq<PageSpec>, group: string, order: int)
    requires Sorted(s)
    ensures WithKey(Insert(x, s), group, order) == WithKey(s + [x], group, order)
  {
    WithKeyAppend(s, [x], group, order);
    if s == [] {
    } else if KeyLt(x, s[0]) {
      if x.group == group && x.order == order {
        AllAboveHead(x, s);
        StrLessIrreflexive(group);
        NoneWithKey(s, group, order);
      }
      WithKeyAppend([x], s, group, order);
    } else {
      InsertStable(x, s[1..], group, order);
      WithKeyAppend(s[1..], [x], group, order);
    }
  }

  /**
    `list_pages` is sorted by `(group, order)`, holds exactly the registered
    specs, and keeps specs with equal keys in registration order.
  */
  lemma {:induction false} SortPagesCorrect(s: seq<PageSpec>)
    ensures Sorted(SortPages(s))
    ensures multiset(SortPages(s)) == multiset(s)
    ensures forall g, o :: WithKey(SortPages(s), g, o) == WithKey(s, g, o)
  {
    if s != [] {
      var init, last := s[..|s| - 1], s[|s| - 1];
      assert s == init + [last];
      SortPagesCorrect(init);
      InsertSorted(last, SortPages(init));
      InsertPermutes(last, SortPages(init));
      forall g, o ensures WithKey(SortPages(s), g, o) == WithKey(s, g, o) {
        InsertStable(last, SortPages(init), g, o);
        WithKeyAppend(SortPages(init), [last], g, o);
        WithKeyAppend(init, [last], g, o);
      }
    }
  }

  // ---------------------------------------------------------------------
  // Keyed lookup

  /** No two specs of `s` share a page id. */
  ghost predicate DistinctIds(s: seq<PageSpec>) {
    forall i, j :: 0 <= i < j < |s| ==> s[i].page_id != s[j].page_id
  }

  function Ids(s: seq<PageSpec>): set<string> {
    set p | p in s :: p.page_id
  }

  /** With distinct ids there are as many ids as specs: no spec shadows another. */
  lemma {:induction false} DistinctIdsCount(s: seq<PageSpec>)
    requires DistinctIds(s)
    ensures |Ids(s)| == |s|
  {
    if s != [] {
      IdsCons(s);
      DistinctTail(s);
      DistinctIdsCount(s[1..]);
    }
  }

  /** The ids of a non-empty list: its head's and its tail's. */
  lemma IdsCons(s: seq<PageSpec>)
    requires s != []
    ensures Ids(s) == {s[0].page_id} + Ids(s[1..])
  {
    assert s == [s[0]] + s[1..];
  }

  /** The tail of a list with distinct ids has distinct ids, none of them the head's. */
  lemma DistinctTail(s: seq<PageSpec>)
    requires s != [] && DistinctIds(s)
    ensures DistinctIds(s[1..]) && s[0].page_id !in Ids(s[1..])
  {
    forall p | p in s[1..] ensures p.page_id != s[0].page_id {
      var j :| 0 <= j < |s[1..]| && s[1..][j] == p;
      assert s[j + 1] == p;
    }
  }

  /** Reordering specs keeps the set of ids. */
  lemma IdsOfPermutation(a: seq<PageSpec>, b: seq<PageSpec>)
    requires multiset(a) == multiset(b)
    ensures Ids(a) == Ids(b)
  {
    forall p | p in a ensures p in b { assert p in multiset(a); }
    forall p | p in b ensures p in a { assert p in multiset(b); }
  }

  /** The spec registered under `id`. */
  function Lookup(s: seq<PageSpec>, id: string): (r: Option<PageSpec>)
    ensures r.Some? <==> id in Ids(s)
    ensures r.Some? ==> r.value in s && r.value.page_id == id
  {
    if s == [] then None
    else if s[0].page_id == id then Some(s[0])
    else
      var r := Lookup(s[1..], id);
      assert Ids(s) == {s[0].page_id} + Ids(s[1..]) by {
        assert s == [s[0]] + s[1..];
      }
      r
  }

  /** After registering a fresh id, looking it up yields exactly the spec registered. */
  lemma {:induction false} LookupRegistered(s: seq<PageSpec>, spec: PageSpec)
    requires spec.page_id !in Ids(s)
    ensures Lookup(s + [spec], spec.page_id) == Some(spec)
  {
    if s != [] {
      assert (s + [spec])[1..] == s[1..] + [spec];
      assert spec.page_id !in Ids(s[1..]);
      LookupRegistered(s[1..], spec);
    }
  }

  /** Registering a fresh id leaves the lookup of every other id unchanged. */
  lemma {:induction false} LookupOthers(s: seq<PageSpec>, spec: PageSpec, id: string)
    requires id != spec.page_id
    ensures Lookup(s + [spec], id) == Lookup(s, id)
  {
    if s != [] {
      assert (s + [spec])[1..] == s[1..] + [spec];
      LookupOthers(s[1..], spec, id);
    }
  }

  class PageRegistry {
    /** `_pages.values()`: the registered specs in registration order. */
    var pages: seq<PageSpec>

    ghost predicate Valid()
      reads this
    {
      DistinctIds(pages)
    }

    constructor()
      ensures Valid() && pages == []
    {
      pages := [];
    }

    /** `register`: a fresh id is added; a duplicate id raises and changes nothing. */
    method Register(spec: PageSpec) returns (r: Result<(), string>)
      requires Valid()
      modifies this
      ensures Valid()
      ensures r.Err? <==> spec.page_id in Ids(old(pages))
      ensures r.Err? ==> pages == old(pages)
                         && r.error == "Duplicate page_id registered: " + spec.page_id
      ensures r.Ok? ==> pages == old(pages) + [spec]
      ensures r.Ok? ==> GetPage(spec.page_id) == Ok(spec)
      ensures forall id :: id != spec.page_id ==> GetPage(id) == old(GetPage(id))
    {
      if spec.page_id in Ids(pages) {
        return Err("Duplicate page_id registered: " + spec.page_id);
      }
      LookupRegistered(pages, spec);
      forall id | id != spec.page_id ensures Lookup(pages + [spec], id) == Lookup(pages, id) {
        LookupOthers(pages, spec, id);
      }
      pages := pages + [spec];
      return Ok(());
    }

    /** `list_pages`. */
    function ListPages(): (r: seq<PageSpec>)
      reads this
      ensures Sorted(r)
      ensures multiset(r) == multiset(pages)
      ensures forall g, o :: WithKey(r, g, o) == WithKey(pages, g, o)
    {
      SortPagesCorrect(pages);
      SortPages(pages)
    }

    /** `get_page`: the spec registered under `id`, or a KeyError. */
    function GetPage(id: string): (r: Result<PageSpec, string>)
      reads this
      ensures r.Ok? <==> id in Ids(pages)
      ensures r.Ok? ==> r.value in pages && r.value.page_id == id
      ensures r.Err? ==> r.error == id
    {
      match Lookup(pages, id)
      case Some(spec) => Ok(spec)
      case None => Err(id)
    }
  }

  /** The class attribute `PageRegistry._instance`, set on the first `get()`. */
  class RegistrySlot {
    var instance: PageRegistry?

    ghost predicate Valid()
      reads this, instance
    {
      instance != null ==> instance.Valid()
    }

    constructor()
      ensures Valid() && instance == null
    {
      instance := null;
    }

    /** `PageRegistry.get()`: creates the registry on first use and returns that one thereafter. */
    method Get() returns (r: PageRegistry)
      requires Valid()
      modifies this
      ensures Valid() && instance == r
      ensures old(instance) != null ==> r == old(instance)
      ensures old(instance) == null ==> fresh(r) && r.pages == []
    {
      if instance == null {
        instance := new PageRegistry();
      }
      r := instance;
    }
  }
}
