/**
 * The pure pipeline behind the album's `applyFilters`: three optional
 * criteria (name contains the query ignoring case, creation time inside a
 * date range, exact edit mode), then a stable sort by one of six orders.
 */
module AlbumFilter {
  import opened Text
  import opened AlbumTypes

  // ---------------------------------------------------------------------------
  // Kotlin `filter`
  // ---------------------------------------------------------------------------

  /** Kotlin `filter`: the elements that satisfy `keep`, in their original order. */
  function Filter(s: seq<PhotoItem>, keep: PhotoItem -> bool): (r: seq<PhotoItem>)
    ensures |r| <= |s|
    ensures forall i :: 0 <= i < |r| ==> keep(r[i])
  {
    if s == [] then [] else (if keep(s[0]) then [s[0]] else []) + Filter(s[1..], keep)
  }

  /** Filtering keeps every photo that passes, as often as it occurs, and no other. */
  lemma {:induction false} FilterCount(s: seq<PhotoItem>, keep: PhotoItem -> bool)
    ensures forall x :: multiset(Filter(s, keep))[x] == if keep(x) then multiset(s)[x] else 0
  {
    if s != [] {
      FilterCount(s[1..], keep);
      assert s == [s[0]] + s[1..];
    }
  }

  /** Filtering keeps relative order: it distributes over concatenation. */
  lemma {:induction false} FilterAppend(a: seq<PhotoItem>, b: seq<PhotoItem>, keep: PhotoItem -> bool)
    ensures Filter(a + b, keep) == Filter(a, keep) + Filter(b, keep)
  {
    if a == [] {
      assert a + b == b;
    } else {
      var head := if keep(a[0]) then [a[0]] else [];
      assert (a + b)[0] == a[0] && (a + b)[1..] == a[1..] + b;
      assert Filter(a + b, keep) == head + Filter(a[1..] + b, keep);
      FilterAppend(a[1..], b, keep);
      assert Filter(a, keep) == head + Filter(a[1..], keep);
    }
  }

  /** A filter every element passes changes nothing. */
  lemma {:induction false} FilterAll(s: seq<PhotoItem>, keep: PhotoItem -> bool)
    requires forall i :: 0 <= i < |s| ==> keep(s[i])
    ensures Filter(s, keep) == s
  {
    if s != [] {
      FilterAll(s[1..], keep);
    }
  }

  /** Filters with the same verdict on every photo give the same result. */
  lemma {:induction false} FilterExtensional(s: seq<PhotoItem>, f: PhotoItem -> bool, g: PhotoItem -> bool)
    requires forall x :: f(x) == g(x)
    ensures Filter(s, f) == Filter(s, g)
  {
    if s != [] {
      FilterExtensional(s[1..], f, g);
    }
  }

  /** Two filters in a row keep exactly what their conjunction keeps. */
  lemma {:induction false} FilterTwice(s: seq<PhotoItem>, f: PhotoItem -> bool, g: PhotoItem -> bool, both: PhotoItem -> bool)
    requires forall x :: both(x) == (f(x) && g(x))
    ensures Filter(Filter(s, f), g) == Filter(s, both)
  {
    if s != [] {
      FilterTwice(s[1..], f, g, both);
      var once := Filter(s, f);
      if f(s[0]) {
        assert once == [s[0]] + Filter(s[1..], f);
        assert once[0] == s[0] && once[1..] == Filter(s[1..], f);
        assert Filter(once, g) == (if g(s[0]) then [s[0]] else []) + Filter(once[1..], g);
      } else {
        assert once == Filter(s[1..], f);
      }
    }
  }

  // ---------------------------------------------------------------------------
  // The three criteria
  // ---------------------------------------------------------------------------

  /** `photo.name.contains(query, ignoreCase = true)` */
  function NameContains(query: string): PhotoItem -> bool {
    (p: PhotoItem) => ContainsIgnoreCase(p.name, query)
  }

  /** `photo.createdAt >= range.startDate && photo.createdAt <= range.endDate` */
  function CreatedWithin(range: DateRange): PhotoItem -> bool {
    (p: PhotoItem) => p.createdAt >= range.startDate && p.createdAt <= range.endDate
  }

  /** `photo.editMode == mode` */
  function HasEditMode(mode: EditMode): PhotoItem -> bool {
    (p: PhotoItem) => p.editMode == mode
  }

  /**
   * A photo passes every criterion the state has switched on: a non-blank
   * query, a date range, an edit mode. A criterion that is off passes all.
   */
  predicate Selected(st: AlbumState, p: PhotoItem) {
    && (IsBlank(st.searchQuery) || ContainsIgnoreCase(p.name, st.searchQuery))
    && (st.selectedDateRange.Some? ==>
          st.selectedDateRange.value.startDate <= p.createdAt <= st.selectedDateRange.value.endDate)
    && (st.selectedEditMode.Some? ==> p.editMode == st.selectedEditMode.value)
  }

  function SelectedBy(st: AlbumState): PhotoItem -> bool {
    (p: PhotoItem) => Selected(st, p)
  }

  // ---------------------------------------------------------------------------
  // Kotlin `sortedBy` / `sortedByDescending`
  // ---------------------------------------------------------------------------

  /**
   * `a`'s sort key comes strictly before `b`'s in `order`: dates compare as
   * numbers, names and sizes (both strings) by `String.compareTo`; a
   * descending order compares the keys the other way round.
   */
  predicate Precedes(order: SortOrder, a: PhotoItem, b: PhotoItem) {
    match order
    case DateAsc => a.createdAt < b.createdAt
    case DateDesc => b.createdAt < a.createdAt
    case NameAsc => LexLess(a.name, b.name)
    case NameDesc => LexLess(b.name, a.name)
    case SizeAsc => LexLess(a.size, b.size)
    case SizeDesc => LexLess(b.size, a.size)
  }

  /** `a` and `b` have equal sort keys in `order`. */
  predicate SameKey(order: SortOrder, a: PhotoItem, b: PhotoItem) {
    match order
    case DateAsc | DateDesc => a.createdAt == b.createdAt
    case NameAsc | NameDesc => a.name == b.name
    case SizeAsc | SizeDesc => a.size == b.size
  }

  /** Precedes is a strict weak order whose ties are exactly SameKey. */
  lemma PrecedesOrder(order: SortOrder, a: PhotoItem, b: PhotoItem, c: PhotoItem)
    ensures !Precedes(order, a, a)
    ensures Precedes(order, a, b) ==> !Precedes(order, b, a)
    ensures Precedes(order, a, b) && Precedes(order, b, c) ==> Precedes(order, a, c)
    ensures !Precedes(order, a, b) && !Precedes(order, b, a) <==> SameKey(order, a, b)
    ensures SameKey(order, a, b) && Precedes(order, b, c) ==> Precedes(order, a, c)
    ensures Precedes(order, a, b) && SameKey(order, b, c) ==> Precedes(order, a, c)
    ensures !Precedes(order, a, b) && !Precedes(order, b, c) ==> !Precedes(order, a, c)
  {
    match order
    case DateAsc =>
    case DateDesc =>
    case NameAsc | NameDesc =>
      StringOrder(a.name, b.name, c.name);
    case SizeAsc | SizeDesc =>
      StringOrder(a.size, b.size, c.size);
  }

  /** The facts about three strings PrecedesOrder needs, in both directions of comparison. */
  lemma StringOrder(a: string, b: string, c: string)
    ensures !LexLess(a, a) && !LexLess(b, b)
    ensures a == b || LexLess(a, b) || LexLess(b, a)
    ensures b == c || LexLess(b, c) || LexLess(c, b)
    ensures a == c || LexLess(a, c) || LexLess(c, a)
    ensures !(LexLess(a, b) && LexLess(b, a))
    ensures !(LexLess(b, c) && LexLess(c, b))
    ensures !(LexLess(a, c) && LexLess(c, a))
    ensures LexLess(a, b) && LexLess(b, c) ==> LexLess(a, c)
    ensures LexLess(c, b) && LexLess(b, a) ==> LexLess(c, a)
  {
    LexLessTrichotomy(a, b);
    LexLessTrichotomy(b, c);
    LexLessTrichotomy(a, c);
    LexLessTrichotomy(b, b);
    if LexLess(a, b) && LexLess(b, c) { LexLessTransitive(a, b, c); }
    if LexLess(c, b) && LexLess(b, a) { LexLessTransitive(c, b, a); }
  }

  /** No later element's key comes strictly before an earlier one's. */
  predicate SortedBy(order: SortOrder, s: seq<PhotoItem>) {
    forall i, j :: 0 <= i < j < |s| ==> !Precedes(order, s[j], s[i])
  }

  /** Places `x` in front of the first element of `t` whose key does not come strictly before `x`'s. */
  function Insert(order: SortOrder, x: PhotoItem, t: seq<PhotoItem>): (r: seq<PhotoItem>)
    ensures |r| == |t| + 1
  {
    if t == [] then [x]
    else if Precedes(order, t[0], x) then [t[0]] + Insert(order, x, t[1..])
    else [x] + t
  }

  lemma {:induction false} InsertCount(order: SortOrder, x: PhotoItem, t: seq<PhotoItem>)
    ensures multiset(Insert(order, x, t)) == multiset(t) + multiset{x}
  {
    if t != [] && Precedes(order, t[0], x) {
      InsertCount(order, x, t[1..]);
      assert t == [t[0]] + t[1..];
    }
  }

  /**
   * The stable sort Kotlin's `sortedBy` / `sortedByDescending` perform,
   * written as an insertion sort: photos with equal keys keep their order.
   */
  function SortPhotos(order: SortOrder, s: seq<PhotoItem>): (r: seq<PhotoItem>)
    ensures |r| == |s|
  {
    if s == [] then [] else Insert(order, s[0], SortPhotos(order, s[1..]))
  }

  /** Sorting neither adds, drops nor duplicates a photo. */
  lemma {:induction false} SortPhotosPermutation(order: SortOrder, s: seq<PhotoItem>)
    ensures multiset(SortPhotos(order, s)) == multiset(s)
  {
    if s != [] {
      SortPhotosPermutation(order, s[1..]);
      InsertCount(order, s[0], SortPhotos(order, s[1..]));
      assert s == [s[0]] + s[1..];
    }
  }

  lemma {:induction false} InsertSorted(order: SortOrder, x: PhotoItem, t: seq<PhotoItem>)
    requires SortedBy(order, t)
    ensures SortedBy(order, Insert(order, x, t))
  {
    if t != [] && Precedes(order, t[0], x) {
      InsertSorted(order, x, t[1..]);
      var r := Insert(order, x, t);
      var rest := Insert(order, x, t[1..]);
      assert r == [t[0]] + rest;
      InsertCount(order, x, t[1..]);
      forall j | 0 < j < |r|
        ensures !Precedes(order, r[j], t[0])
      {
        assert r[j] in multiset(rest);
        assert r[j] in multiset(t[1..]) + multiset{x};
        if r[j] == x {
          PrecedesOrder(order, t[0], x, x);
        } else {
          assert r[j] in t[1..];
          var k :| 0 <= k < |t[1..]| && t[1..][k] == r[j];
          assert t[k + 1] == r[j];
        }
      }
    } else if t != [] {
      var r := Insert(order, x, t);
      assert r == [x] + t;
      forall j | 0 < j < |r|
        ensures !Precedes(order, r[j], x)
      {
        assert r[j] == t[j - 1];
        PrecedesOrder(order, t[j - 1], t[0], x);
      }
    }
  }

  lemma {:induction false} SortPhotosSorted(order: SortOrder, s: seq<PhotoItem>)
    ensures SortedBy(order, SortPhotos(order, s))
  {
    if s != [] {
      SortPhotosSorted(order, s[1..]);
      InsertSorted(order, s[0], SortPhotos(order, s[1..]));
    }
  }

  /** The photos of `s` whose key ties with `k`'s, in the order `s` holds them. */
  function Ties(order: SortOrder, s: seq<PhotoItem>, k: PhotoItem): seq<PhotoItem> {
    if s == [] then []
    else (if SameKey(order, s[0], k) then [s[0]] else []) + Ties(order, s[1..], k)
  }

  lemma {:induction false} InsertTies(order: SortOrder, x: PhotoItem, t: seq<PhotoItem>, k: PhotoItem)
    ensures Ties(order, Insert(order, x, t), k)
         == (if SameKey(order, x, k) then [x] else []) + Ties(order, t, k)
  {
    if t != [] && Precedes(order, t[0], x) {
      InsertTies(order, x, t[1..], k);
      var r := Insert(order, x, t);
      var head := if SameKey(order, t[0], k) then [t[0]] else [];
      assert r == [t[0]] + Insert(order, x, t[1..]);
      assert r[0] == t[0] && r[1..] == Insert(order, x, t[1..]);
      assert Ties(order, r, k) == head + Ties(order, Insert(order, x, t[1..]), k);
      assert Ties(order, t, k) == head + Ties(order, t[1..], k);
      if SameKey(order, x, k) {
        // t[0] sorts strictly before x, so it cannot tie with k
        PrecedesOrder(order, t[0], x, k);
        PrecedesOrder(order, t[0], k, k);
      }
    } else if t != [] {
      var r := Insert(order, x, t);
      assert r == [x] + t;
      assert r[0] == x && r[1..] == t;
    }
  }

  /** Stability: for every key, the photos with that key appear in the sorted result in their original order. */
  lemma {:induction false} SortPhotosStable(order: SortOrder, s: seq<PhotoItem>, k: PhotoItem)
    ensures Ties(order, SortPhotos(order, s), k) == Ties(order, s, k)
  {
    if s != [] {
      SortPhotosStable(order, s[1..], k);
      InsertTies(order, s[0], SortPhotos(order, s[1..]), k);
    }
  }

  // ---------------------------------------------------------------------------
  // Opposite orders
  // ---------------------------------------------------------------------------

  /** `down` is the descending order over the same key as the ascending `up`. */
  predicate Opposite(up: SortOrder, down: SortOrder) {
    || (up == DateAsc && down == DateDesc)
    || (up == NameAsc && down == NameDesc)
    || (up == SizeAsc && down == SizeDesc)
  }

  /** No two photos of `s` share a sort key in `order`. */
  predicate NoTies(order: SortOrder, s: seq<PhotoItem>) {
    forall i, j :: 0 <= i < j < |s| ==> !SameKey(order, s[i], s[j])
  }

  /** `s` read back to front. */
  function Reverse(s: seq<PhotoItem>): (r: seq<PhotoItem>)
    ensures |r| == |s|
    ensures forall i :: 0 <= i < |s| ==> r[i] == s[|s| - 1 - i]
  {
    if s == [] then [] else Reverse(s[1..]) + [s[0]]
  }

  lemma {:induction false} ReverseCount(s: seq<PhotoItem>)
    ensures multiset(Reverse(s)) == multiset(s)
  {
    if s != [] {
      ReverseCount(s[1..]);
      assert s == [s[0]] + s[1..];
    }
  }

  /** A photo counted twice sits at two positions. */
  lemma {:induction false} TwoCopies(s: seq<PhotoItem>, v: PhotoItem)
    requires multiset(s)[v] >= 2
    ensures exists i, j :: 0 <= i < j < |s| && s[i] == v && s[j] == v
  {
    assert s == [s[0]] + s[1..];
    if s[0] == v {
      assert v in multiset(s[1..]);
      var k :| 0 <= k < |s[1..]| && s[1..][k] == v;
      assert s[k + 1] == v;
    } else {
      TwoCopies(s[1..], v);
      var i, j :| 0 <= i < j < |s[1..]| && s[1..][i] == v && s[1..][j] == v;
      assert s[i + 1] == v && s[j + 1] == v;
    }
  }

  /** A photo at two positions is counted at least twice. */
  lemma TwoPositions(s: seq<PhotoItem>, i: int, j: int)
    requires 0 <= i < j < |s| && s[i] == s[j]
    ensures multiset(s)[s[i]] >= 2
  {
    assert s == s[..j] + s[j..];
    assert s[..j][i] == s[i];
    assert s[j..][0] == s[i];
  }

  /** In a list without ties no photo occurs twice. */
  lemma AtMostOnce(order: SortOrder, s: seq<PhotoItem>, v: PhotoItem)
    requires NoTies(order, s)
    ensures multiset(s)[v] <= 1
  {
    if multiset(s)[v] >= 2 {
      TwoCopies(s, v);
    }
  }

  /** Having no ties is a property of the photos, whatever their arrangement. */
  lemma NoTiesTransfer(order: SortOrder, s: seq<PhotoItem>, x: seq<PhotoItem>)
    requires multiset(x) == multiset(s)
    requires NoTies(order, s)
    ensures NoTies(order, x)
  {
    forall i, j | 0 <= i < j < |x| ensures !SameKey(order, x[i], x[j]) {
      AtMostOnce(order, s, x[i]);
      if x[i] == x[j] {
        TwoPositions(x, i, j);
      }
      assert x[i] in multiset(s) && x[j] in multiset(s);
      var p :| 0 <= p < |s| && s[p] == x[i];
      var q :| 0 <= q < |s| && s[q] == x[j];
      assert p != q;
    }
  }

  /** Without ties, a list has only one ordering that is sorted. */
  lemma {:induction false} SortedUnique(order: SortOrder, x: seq<PhotoItem>, y: seq<PhotoItem>)
    requires SortedBy(order, x) && SortedBy(order, y)
    requires multiset(x) == multiset(y)
    requires NoTies(order, x)
    ensures x == y
    decreases |x|
  {
    assert |x| == |multiset(x)| == |multiset(y)| == |y|;
    if x != [] {
      SameFirst(order, x, y);
      TailCount(x);
      TailCount(y);
      assert SortedBy(order, x[1..]) && SortedBy(order, y[1..]) && NoTies(order, x[1..]);
      SortedUnique(order, x[1..], y[1..]);
      assert x == [x[0]] + x[1..] && y == [y[0]] + y[1..];
    }
  }

  /** Two sorted arrangements of the same photos, without ties, start alike. */
  lemma SameFirst(order: SortOrder, x: seq<PhotoItem>, y: seq<PhotoItem>)
    requires SortedBy(order, x) && SortedBy(order, y)
    requires multiset(x) == multiset(y)
    requires NoTies(order, x)
    requires x != [] && y != []
    ensures x[0] == y[0]
  {
    assert y[0] in multiset(x) && x[0] in multiset(y);
    var k :| 0 <= k < |x| && x[k] == y[0];
    var m :| 0 <= m < |y| && y[m] == x[0];
    if k != 0 && m != 0 {
      PrecedesOrder(order, x[0], y[0], x[0]);
    }
  }

  lemma TailCount(s: seq<PhotoItem>)
    requires s != []
    ensures multiset(s[1..]) == multiset(s) - multiset{s[0]}
  {
    assert s == [s[0]] + s[1..];
  }

  /**
   * When no two photos share the key, sorting descending gives exactly the
   * ascending result read backwards. (With ties it does not: both sorts are
   * stable, so tied photos keep their stored order in each.)
   */
  lemma OppositeOrdersReverse(up: SortOrder, down: SortOrder, s: seq<PhotoItem>)
    requires Opposite(up, down)
    requires NoTies(up, s)
    ensures SortPhotos(down, s) == Reverse(SortPhotos(up, s))
  {
    var asc := SortPhotos(up, s);
    var desc := SortPhotos(down, s);
    SortPhotosSorted(up, s);
    SortPhotosSorted(down, s);
    SortPhotosPermutation(up, s);
    SortPhotosPermutation(down, s);
    ReverseCount(asc);
    OppositeTies(up, down, s);
    NoTiesTransfer(down, s, desc);
    ReverseSorted(up, down, asc);
    SortedUnique(down, desc, Reverse(asc));
  }

  /** Opposite orders tie the same pairs. */
  lemma OppositeTies(up: SortOrder, down: SortOrder, s: seq<PhotoItem>)
    requires Opposite(up, down)
    requires NoTies(up, s)
    ensures NoTies(down, s)
  {
  }

  /** A list sorted one way, read backwards, is sorted the opposite way. */
  lemma ReverseSorted(up: SortOrder, down: SortOrder, s: seq<PhotoItem>)
    requires Opposite(up, down)
    requires SortedBy(up, s)
    ensures SortedBy(down, Reverse(s))
  {
    var r := Reverse(s);
    forall i, j | 0 <= i < j < |r| ensures !Precedes(down, r[j], r[i]) {
      assert r[i] == s[|s| - 1 - i] && r[j] == s[|s| - 1 - j];
    }
  }

  /** With pairwise different names, NAME_DESC is NAME_ASC reversed. */
  lemma NameOrdersReverse(s: seq<PhotoItem>)
    requires forall i, j :: 0 <= i < j < |s| ==> s[i].name != s[j].name
    ensures SortPhotos(NameDesc, s) == Reverse(SortPhotos(NameAsc, s))
  {
    OppositeOrdersReverse(NameAsc, NameDesc, s);
  }

  // ---------------------------------------------------------------------------
  // applyFilters, as a value
  // ---------------------------------------------------------------------------

  /** What `applyFilters` stores in `filteredPhotos`: the selected photos, sorted by the state's order. */
  function Arranged(st: AlbumState): seq<PhotoItem> {
    SortPhotos(st.sortOrder, Filter(st.photos, SelectedBy(st)))
  }

  /** The state after `applyFilters`: only `filteredPhotos` is rewritten. */
  function Refiltered(st: AlbumState): (r: AlbumState)
    ensures r.(filteredPhotos := st.filteredPhotos) == st
  {
    st.(filteredPhotos := Arranged(st))
  }

  /**
   * The photos `applyFilters` shows are exactly the photos that pass every
   * active criterion, each as often as it occurs in `photos`; they are sorted
   * by the current order, and photos with equal keys keep their stored order.
   */
  lemma ArrangedSpec(st: AlbumState)
    ensures forall x :: multiset(Arranged(st))[x] == if Selected(st, x) then multiset(st.photos)[x] else 0
    ensures forall i :: 0 <= i < |Arranged(st)| ==> Arranged(st)[i] in st.photos && Selected(st, Arranged(st)[i])
    ensures SortedBy(st.sortOrder, Arranged(st))
    ensures forall k :: Ties(st.sortOrder, Arranged(st), k) == Ties(st.sortOrder, Filter(st.photos, SelectedBy(st)), k)
  {
    var r := Arranged(st);
    var selected := Filter(st.photos, SelectedBy(st));
    FilterCount(st.photos, SelectedBy(st));
    SortPhotosPermutation(st.sortOrder, selected);
    SortPhotosSorted(st.sortOrder, selected);
    forall k ensures Ties(st.sortOrder, r, k) == Ties(st.sortOrder, selected, k) {
      SortPhotosStable(st.sortOrder, selected, k);
    }
    forall i | 0 <= i < |r| ensures r[i] in st.photos && Selected(st, r[i]) {
      assert r[i] in multiset(r);
    }
  }

  /** `filteredPhotos` after `applyFilters` never holds more copies of a photo than `photos` does. */
  lemma ArrangedWithinPhotos(st: AlbumState)
    ensures multiset(Arranged(st)) <= multiset(st.photos)
  {
    ArrangedSpec(st);
  }
}
