/**
 * The grouped product listing: one section per category, in the order the
 * categories are given, holding the already filtered products of that
 * category; a section with no products is not rendered, and its grid is
 * shown only when the category's first state entry exists and is open.
 */
module CategoryList {
  import opened Wrappers
  import opened Products

  /** `{ category, isOpen }`: the collapse toggle of one category. */
  datatype CategoryState = CategoryState(category: string, isOpen: bool)

  /**
   * A rendered section: the header text `category (count)` and, when
   * `showGrid` holds, one product card per element of `products`.
   */
  datatype Section = Section(category: string, count: nat, products: seq<Product>, showGrid: bool)

  /** `filteredProducts.filter(product => product.category === k)`. */
  function ProductsOf(ps: seq<Product>, k: string): (r: seq<Product>)
    ensures |r| <= |ps|
  {
    if ps == [] then []
    else (if ps[0].category == k then [ps[0]] else []) + ProductsOf(ps[1..], k)
  }

  /** `categoryStates.find(state => state.category === k)`: the first entry for `k`, if any. */
  function FindState(states: seq<CategoryState>, k: string): (r: Option<CategoryState>)
    ensures r.Some? ==> r.value.category == k && r.value in states
  {
    if states == [] then None
    else if states[0].category == k then Some(states[0])
    else FindState(states[1..], k)
  }

  /** Entry `i` is the first entry of `states` whose category is `k`. */
  ghost predicate FirstFor(states: seq<CategoryState>, k: string, i: int)
  {
    0 <= i < |states| && states[i].category == k
    && forall j :: 0 <= j < i ==> states[j].category != k
  }

  /** `categoryState?.isOpen`, where an absent state reads as falsy. */
  function IsOpen(states: seq<CategoryState>, k: string): (r: bool)
    ensures r ==> CategoryState(k, true) in states
  {
    match FindState(states, k)
    case Some(s) => s.isOpen
    case None => false
  }

  /** The element one category contributes: nothing when it has no filtered products. */
  function SectionFor(k: string, filtered: seq<Product>, states: seq<CategoryState>): Option<Section>
  {
    var products := ProductsOf(filtered, k);
    if |products| > 0 then Some(Section(k, |products|, products, IsOpen(states, k))) else None
  }

  /** `categories.map(...)` with the `null` elements dropped, as React renders them. */
  function Sections(categories: seq<string>, filtered: seq<Product>, states: seq<CategoryState>): (r: seq<Section>)
    ensures |r| <= |categories|
  {
    if categories == [] then []
    else Head(categories[0], filtered, states) + Sections(categories[1..], filtered, states)
  }

  /** What one category contributes to the rendering: its section or nothing. */
  function Head(k: string, filtered: seq<Product>, states: seq<CategoryState>): (r: seq<Section>)
    ensures |r| <= 1
    ensures r != [] ==> r[0].category == k && r[0].count > 0
  {
    match SectionFor(k, filtered, states)
    case Some(sec) => [sec]
    case None => []
  }

  /** Section `s` is the rendering of a listed category. */
  ghost predicate SectionFits(s: Section, categories: seq<string>, filtered: seq<Product>, states: seq<CategoryState>)
  {
    && s.category in categories
    && s.products == ProductsOf(filtered, s.category)
    && s.count == |s.products| > 0
    && s.showGrid == IsOpen(states, s.category)
  }

  /** Some rendered section is headed by category `k`. */
  ghost predicate HasSection(r: seq<Section>, k: string)
  {
    exists i :: 0 <= i < |r| && r[i].category == k
  }

  /** The categories of the rendered sections, top to bottom. */
  function SectionCategories(r: seq<Section>): seq<string>
  {
    if r == [] then [] else [r[0].category] + SectionCategories(r[1..])
  }

  /** The sum of the counts shown in the section headers. */
  function SumCounts(r: seq<Section>): nat
  {
    if r == [] then 0 else r[0].count + SumCounts(r[1..])
  }

  /** The products whose category lies in `ks`, in their order. */
  function ProductsIn(ps: seq<Product>, ks: set<string>): seq<Product>
  {
    if ps == [] then []
    else (if ps[0].category in ks then [ps[0]] else []) + ProductsIn(ps[1..], ks)
  }

  /** The entries of `states` that belong to category `k`, in their order. */
  function StatesOf(states: seq<CategoryState>, k: string): seq<CategoryState>
  {
    if states == [] then []
    else (if states[0].category == k then [states[0]] else []) + StatesOf(states[1..], k)
  }

  predicate NoDuplicates(categories: seq<string>)
  {
    forall i, j :: 0 <= i < j < |categories| ==> categories[i] != categories[j]
  }

  // ---- Filtering one category ----

  /** The filter keeps exactly the products of category `k`. */
  lemma {:induction false} ProductsOfMembers(ps: seq<Product>, k: string)
    ensures forall i :: 0 <= i < |ProductsOf(ps, k)| ==> ProductsOf(ps, k)[i].category == k
    ensures forall x :: x in ProductsOf(ps, k) <==> x in ps && x.category == k
    decreases |ps|
  {
    if ps != [] {
      ProductsOfMembers(ps[1..], k);
      var head := if ps[0].category == k then [ps[0]] else [];
      assert ProductsOf(ps, k) == head + ProductsOf(ps[1..], k);
      assert ps == [ps[0]] + ps[1..];
    }
  }

  /** Each product of category `k` is kept as often as it occurs; every other product is dropped. */
  lemma {:induction false} ProductsOfMultiset(ps: seq<Product>, k: string)
    ensures forall x :: multiset(ProductsOf(ps, k))[x] == if x.category == k then multiset(ps)[x] else 0
    decreases |ps|
  {
    if ps != [] {
      ProductsOfMultiset(ps[1..], k);
      assert ps == [ps[0]] + ps[1..];
    }
  }

  /** The kept products stay in their original relative order. */
  lemma {:induction false} ProductsOfSubsequence(ps: seq<Product>, k: string)
    ensures IsSubsequence(ProductsOf(ps, k), ps)
    decreases |ps|
  {
    if ps != [] {
      var r, rest := ProductsOf(ps, k), ProductsOf(ps[1..], k);
      ProductsOfSubsequence(ps[1..], k);
      if ps[0].category == k {
        assert r == [ps[0]] + rest;
        assert r[0] == ps[0] && r[1..] == rest;
        assert IsSubsequence(r[1..], ps[1..]);
      } else {
        assert r == rest;
        assert IsSubsequence(r, ps[1..]);
      }
    }
  }

  lemma {:induction false} ProductsOfConcat(a: seq<Product>, b: seq<Product>, k: string)
    ensures ProductsOf(a + b, k) == ProductsOf(a, k) + ProductsOf(b, k)
    decreases |a|
  {
    if a == [] {
      assert a + b == b;
    } else {
      var ab := a + b;
      assert ab[0] == a[0] && ab[1..] == a[1..] + b;
      var head := if a[0].category == k then [a[0]] else [];
      var ra, rb := ProductsOf(a[1..], k), ProductsOf(b, k);
      ProductsOfConcat(a[1..], b, k);
      assert ProductsOf(ab, k) == head + (ra + rb);
      assert head + (ra + rb) == (head + ra) + rb;
    }
  }

  /** Filtering the same category twice changes nothing. */
  lemma {:induction false} ProductsOfIdempotent(ps: seq<Product>, k: string)
    ensures ProductsOf(ProductsOf(ps, k), k) == ProductsOf(ps, k)
    decreases |ps|
  {
    if ps != [] {
      ProductsOfIdempotent(ps[1..], k);
      var head := if ps[0].category == k then [ps[0]] else [];
      ProductsOfConcat(head, ProductsOf(ps[1..], k), k);
    }
  }

  // ---- State lookup ----

  /** The lookup fails exactly when no entry has category `k`, and otherwise returns the first such entry. */
  lemma {:induction false} FindStateFirst(states: seq<CategoryState>, k: string)
    ensures FindState(states, k).None? <==> forall i :: 0 <= i < |states| ==> states[i].category != k
    ensures FindState(states, k).Some? ==> exists i :: FirstFor(states, k, i) && states[i] == FindState(states, k).value
    decreases |states|
  {
    if states != [] && states[0].category != k {
      FindStateFirst(states[1..], k);
      var tail := states[1..];
      if FindState(tail, k).Some? {
        var i :| FirstFor(tail, k, i) && tail[i] == FindState(tail, k).value;
        assert FirstFor(states, k, i + 1);
      } else {
        forall i | 0 <= i < |states| ensures states[i].category != k {
          if i > 0 { assert states[i] == tail[i - 1]; }
        }
      }
    } else if states != [] {
      assert FirstFor(states, k, 0);
    }
  }

  /** The grid of `k` is open exactly when the first entry for `k` exists and is open. */
  lemma IsOpenIff(states: seq<CategoryState>, k: string)
    ensures IsOpen(states, k) <==> exists i :: FirstFor(states, k, i) && states[i].isOpen
  {
    FindStateFirst(states, k);
    if exists i :: FirstFor(states, k, i) && states[i].isOpen {
      var i :| FirstFor(states, k, i) && states[i].isOpen;
      var j :| FirstFor(states, k, j) && states[j] == FindState(states, k).value;
      assert i == j;
    }
  }

  /** A category with no state entry is shown collapsed. */
  lemma MissingStateIsCollapsed(states: seq<CategoryState>, k: string)
    requires forall i :: 0 <= i < |states| ==> states[i].category != k
    ensures !IsOpen(states, k)
  {
    FindStateFirst(states, k);
  }

  /** The lookup for `k` sees only the entries of category `k`. */
  lemma {:induction false} FindStateOnlyOwnEntries(states: seq<CategoryState>, k: string)
    ensures FindState(states, k) == FindState(StatesOf(states, k), k)
    decreases |states|
  {
    if states != [] {
      var own, ownRest := StatesOf(states, k), StatesOf(states[1..], k);
      if states[0].category == k {
        assert own == [states[0]] + ownRest;
        assert own[0] == states[0];
      } else {
        assert own == ownRest;
        FindStateOnlyOwnEntries(states[1..], k);
      }
    }
  }

  // ---- Sections ----

  /** What one category contributes, read off its filter. */
  lemma HeadShape(k: string, filtered: seq<Product>, states: seq<CategoryState>)
    ensures ProductsOf(filtered, k) == [] ==> Head(k, filtered, states) == []
    ensures ProductsOf(filtered, k) != [] ==>
              Head(k, filtered, states) == [Section(k, |ProductsOf(filtered, k)|, ProductsOf(filtered, k), IsOpen(states, k))]
  {
  }

  /**
   * A category yields a section exactly when some filtered product has that
   * category; the section then holds only such products, shows their number
   * and shows its grid exactly when the category is open.
   */
  lemma SectionForPresence(k: string, filtered: seq<Product>, states: seq<CategoryState>)
    ensures SectionFor(k, filtered, states).Some? <==> exists i :: 0 <= i < |filtered| && filtered[i].category == k
    ensures SectionFor(k, filtered, states).Some? ==>
              var s := SectionFor(k, filtered, states).value;
              && s.category == k
              && s.count == |s.products|
              && (forall i :: 0 <= i < |s.products| ==> s.products[i].category == k)
              && s.products == ProductsOf(filtered, k)
              && s.showGrid == IsOpen(states, k)
  {
    ProductsOfMembers(filtered, k);
    var ps := ProductsOf(filtered, k);
    if exists i :: 0 <= i < |filtered| && filtered[i].category == k {
      var i :| 0 <= i < |filtered| && filtered[i].category == k;
      assert filtered[i] in ps;
    }
    if ps != [] {
      assert ps[0] in filtered;
    }
  }

  /**
   * Every rendered section belongs to a listed category, holds exactly that
   * category's filtered products, shows their number and shows its grid
   * exactly when the category is open.
   */
  lemma {:induction false} SectionsWellFormed(categories: seq<string>, filtered: seq<Product>, states: seq<CategoryState>)
    ensures forall i :: 0 <= i < |Sections(categories, filtered, states)| ==> SectionFits(Sections(categories, filtered, states)[i], categories, filtered, states)
    decreases |categories|
  {
    if categories != [] {
      var tail := categories[1..];
      SectionsWellFormed(tail, filtered, states);
      var r, rest := Sections(categories, filtered, states), Sections(tail, filtered, states);
      var h := Head(categories[0], filtered, states);
      HeadShape(categories[0], filtered, states);
      assert r == h + rest;
      forall i | 0 <= i < |r| ensures SectionFits(r[i], categories, filtered, states) {
        if i < |h| {
          assert r[i] == h[0];
        } else {
          assert r[i] == rest[i - |h|];
          assert SectionFits(rest[i - |h|], tail, filtered, states);
        }
      }
    }
  }

  lemma HasSectionConcat(a: seq<Section>, b: seq<Section>, k: string)
    ensures HasSection(a + b, k) <==> HasSection(a, k) || HasSection(b, k)
  {
    if HasSection(a + b, k) {
      var i :| 0 <= i < |a + b| && (a + b)[i].category == k;
      if i >= |a| { assert b[i - |a|].category == k; }
    }
    if HasSection(b, k) {
      var i :| 0 <= i < |b| && b[i].category == k;
      assert (a + b)[i + |a|].category == k;
    }
    if HasSection(a, k) {
      var i :| 0 <= i < |a| && a[i].category == k;
      assert (a + b)[i].category == k;
    }
  }

  /** A category gets a section exactly when it is listed and has at least one filtered product. */
  lemma {:induction false} SectionPresence(categories: seq<string>, filtered: seq<Product>, states: seq<CategoryState>, k: string)
    ensures HasSection(Sections(categories, filtered, states), k) <==> k in categories && ProductsOf(filtered, k) != []
    decreases |categories|
  {
    if categories != [] {
      var c, tail := categories[0], categories[1..];
      var head := Head(c, filtered, states);
      HeadShape(c, filtered, states);
      HasSectionConcat(head, Sections(tail, filtered, states), k);
      SectionPresence(tail, filtered, states, k);
      assert k in categories <==> k == c || k in tail by {
        assert categories == [c] + tail;
      }
      assert HasSection(head, k) <==> k == c && ProductsOf(filtered, c) != [] by {
        if ProductsOf(filtered, c) != [] { assert head[0].category == c; }
      }
    }
  }

  /** The rendering of a concatenation of category lists is the concatenation of their renderings. */
  lemma {:induction false} SectionsConcat(a: seq<string>, b: seq<string>, filtered: seq<Product>, states: seq<CategoryState>)
    ensures Sections(a + b, filtered, states) == Sections(a, filtered, states) + Sections(b, filtered, states)
    decreases |a|
  {
    if a == [] {
      assert a + b == b;
    } else {
      var ab := a + b;
      assert ab[0] == a[0] && ab[1..] == a[1..] + b;
      var h, ra, rb := Head(a[0], filtered, states), Sections(a[1..], filtered, states), Sections(b, filtered, states);
      SectionsConcat(a[1..], b, filtered, states);
      assert Sections(ab, filtered, states) == h + (ra + rb);
      assert h + (ra + rb) == (h + ra) + rb;
    }
  }

  /** A category with products has its section exactly between the sections of the categories before and after it. */
  lemma SectionsOrder(before: seq<string>, k: string, after: seq<string>, filtered: seq<Product>, states: seq<CategoryState>)
    requires ProductsOf(filtered, k) != []
    ensures Sections(before + [k] + after, filtered, states)
         == Sections(before, filtered, states)
            + [Section(k, |ProductsOf(filtered, k)|, ProductsOf(filtered, k), IsOpen(states, k))]
            + Sections(after, filtered, states)
  {
    var sb, sa := Sections(before, filtered, states), Sections(after, filtered, states);
    var sec := Section(k, |ProductsOf(filtered, k)|, ProductsOf(filtered, k), IsOpen(states, k));
    assert Sections([k], filtered, states) == [sec] by {
      assert [k][1..] == [];
      assert Head(k, filtered, states) == [sec];
      assert Sections([k], filtered, states) == Head(k, filtered, states) + Sections([], filtered, states);
    }
    SectionsConcat(before, [k], filtered, states);
    assert Sections(before + [k], filtered, states) == sb + [sec];
    SectionsConcat(before + [k], after, filtered, states);
  }

  /** The sections follow the order of the category list; empty categories are skipped. */
  lemma {:induction false} SectionCategoriesInOrder(categories: seq<string>, filtered: seq<Product>, states: seq<CategoryState>)
    ensures IsSubsequence(SectionCategories(Sections(categories, filtered, states)), categories)
    decreases |categories|
  {
    if categories != [] {
      SectionCategoriesInOrder(categories[1..], filtered, states);
      var r := Sections(categories, filtered, states);
      var rest := Sections(categories[1..], filtered, states);
      HeadShape(categories[0], filtered, states);
      if ProductsOf(filtered, categories[0]) != [] {
        assert r[0].category == categories[0] && r[1..] == rest;
        var sc := SectionCategories(r);
        assert sc[0] == categories[0] && sc[1..] == SectionCategories(rest);
      } else {
        assert r == rest;
      }
    }
  }

  /** Changing the state entries of other categories leaves the section of `k` as it is. */
  lemma SectionIndependence(k: string, filtered: seq<Product>, states1: seq<CategoryState>, states2: seq<CategoryState>)
    requires StatesOf(states1, k) == StatesOf(states2, k)
    ensures SectionFor(k, filtered, states1) == SectionFor(k, filtered, states2)
  {
    FindStateOnlyOwnEntries(states1, k);
    FindStateOnlyOwnEntries(states2, k);
  }

  lemma NoDuplicatesTail(categories: seq<string>)
    requires NoDuplicates(categories) && categories != []
    ensures NoDuplicates(categories[1..]) && categories[0] !in categories[1..]
  {
    var tail := categories[1..];
    forall i, j | 0 <= i < j < |tail| ensures tail[i] != tail[j] {
      assert tail[i] == categories[i + 1] && tail[j] == categories[j + 1];
    }
    forall m | 0 <= m < |tail| ensures tail[m] != categories[0] {
      assert tail[m] == categories[m + 1];
    }
  }

  /** With no repeated category, no two sections have the same category. */
  lemma {:induction false} SectionCategoriesDistinct(categories: seq<string>, filtered: seq<Product>, states: seq<CategoryState>)
    requires NoDuplicates(categories)
    ensures forall i, j :: 0 <= i < j < |Sections(categories, filtered, states)| ==>
              Sections(categories, filtered, states)[i].category != Sections(categories, filtered, states)[j].category
    decreases |categories|
  {
    if categories != [] {
      var tail := categories[1..];
      NoDuplicatesTail(categories);
      SectionCategoriesDistinct(tail, filtered, states);
      SectionsWellFormed(tail, filtered, states);
      var r, rest := Sections(categories, filtered, states), Sections(tail, filtered, states);
      var h := Head(categories[0], filtered, states);
      HeadShape(categories[0], filtered, states);
      assert r == h + rest;
      if h != [] {
        forall i, j | 0 <= i < j < |r| ensures r[i].category != r[j].category {
          assert r[j] == rest[j - 1];
          assert SectionFits(rest[j - 1], tail, filtered, states);
          if i > 0 {
            assert r[i] == rest[i - 1];
          } else {
            assert r[i].category == categories[0];
          }
        }
      }
    }
  }

  /** With no repeated category, a product is listed in at most one section. */
  lemma SectionsDisjoint(categories: seq<string>, filtered: seq<Product>, states: seq<CategoryState>, x: Product)
    requires NoDuplicates(categories)
    ensures forall i, j ::
              (0 <= i < |Sections(categories, filtered, states)| && 0 <= j < |Sections(categories, filtered, states)|
               && x in Sections(categories, filtered, states)[i].products
               && x in Sections(categories, filtered, states)[j].products) ==> i == j
  {
    var r := Sections(categories, filtered, states);
    SectionCategoriesDistinct(categories, filtered, states);
    SectionsWellFormed(categories, filtered, states);
    forall i, j | 0 <= i < |r| && 0 <= j < |r| && x in r[i].products && x in r[j].products ensures i == j {
      assert SectionFits(r[i], categories, filtered, states) && SectionFits(r[j], categories, filtered, states);
      ProductsOfMembers(filtered, r[i].category);
      ProductsOfMembers(filtered, r[j].category);
    }
  }

  lemma {:induction false} ProductsInAdd(ps: seq<Product>, k: string, ks: set<string>)
    requires k !in ks
    ensures |ProductsIn(ps, ks + {k})| == |ProductsOf(ps, k)| + |ProductsIn(ps, ks)|
    decreases |ps|
  {
    if ps != [] {
      ProductsInAdd(ps[1..], k, ks);
    }
  }

  lemma {:induction false} ProductsInAll(ps: seq<Product>, ks: set<string>)
    ensures |ProductsIn(ps, ks)| <= |ps|
    ensures (forall i :: 0 <= i < |ps| ==> ps[i].category in ks) ==> |ProductsIn(ps, ks)| == |ps|
    decreases |ps|
  {
    if ps != [] {
      ProductsInAll(ps[1..], ks);
    }
  }

  lemma {:induction false} ProductsInNone(ps: seq<Product>)
    ensures ProductsIn(ps, {}) == []
    decreases |ps|
  {
    if ps != [] { ProductsInNone(ps[1..]); }
  }

  lemma SumCountsStep(categories: seq<string>, filtered: seq<Product>, states: seq<CategoryState>)
    requires categories != []
    ensures SumCounts(Sections(categories, filtered, states))
         == |ProductsOf(filtered, categories[0])| + SumCounts(Sections(categories[1..], filtered, states))
  {
    var r, rest := Sections(categories, filtered, states), Sections(categories[1..], filtered, states);
    HeadShape(categories[0], filtered, states);
    if ProductsOf(filtered, categories[0]) != [] {
      assert r[1..] == rest;
    } else {
      assert r == rest;
    }
  }

  lemma SetOfCons(categories: seq<string>)
    requires categories != []
    ensures (set c | c in categories) == (set c | c in categories[1..]) + {categories[0]}
  {
    assert categories == [categories[0]] + categories[1..];
  }

  /** With no repeated category, the header counts add up to the filtered products of the listed categories. */
  lemma {:induction false} SumCountsIsProductsIn(categories: seq<string>, filtered: seq<Product>, states: seq<CategoryState>)
    requires NoDuplicates(categories)
    ensures SumCounts(Sections(categories, filtered, states)) == |ProductsIn(filtered, set c | c in categories)|
    decreases |categories|
  {
    if categories == [] {
      assert (set c | c in categories) == {};
      ProductsInNone(filtered);
    } else {
      var k, tail := categories[0], categories[1..];
      NoDuplicatesTail(categories);
      SumCountsIsProductsIn(tail, filtered, states);
      SetOfCons(categories);
      ProductsInAdd(filtered, k, set c | c in tail);
      SumCountsStep(categories, filtered, states);
    }
  }

  /**
   * With no repeated category, the header counts add up to at most the number
   * of filtered products, and to exactly that number when every filtered
   * product's category is listed.
   */
  lemma CountsBound(categories: seq<string>, filtered: seq<Product>, states: seq<CategoryState>)
    requires NoDuplicates(categories)
    ensures SumCounts(Sections(categories, filtered, states)) <= |filtered|
    ensures (forall i :: 0 <= i < |filtered| ==> filtered[i].category in categories)
            ==> SumCounts(Sections(categories, filtered, states)) == |filtered|
  {
    SumCountsIsProductsIn(categories, filtered, states);
    ProductsInAll(filtered, set c | c in categories);
  }
}
