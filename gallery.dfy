/**
 * The gallery page (src/app/gallery/page.tsx): its filter state, the
 * category filter over the fixed sample list and the descending sort.
 */
module Gallery {
  import opened Wrappers
  import opened Types

  function Style(id: string, name: string, description: string, category: Category): ArtStyle {
    ArtStyle(id, name, description, "", category)
  }

  /** `sampleArtPieces`, with each `createdAt` as milliseconds since the epoch (UTC midnight). */
  const SampleArtPieces: seq<ArtPiece> := [
    ArtPiece("1", "A mystical forest with glowing mushrooms and ethereal lighting",
      "https://placehold.co/400x400?text=Mystical+forest+with+glowing+blue+mushrooms+and+magical+ethereal+light+rays",
      Style("fantasy", "Fantasy", "Magical themes", Fantasy), 1705276800000, None, 245, 89),
    ArtPiece("2", "Cyberpunk cityscape with neon lights and flying cars",
      "https://placehold.co/400x400?text=Futuristic+cyberpunk+city+with+neon+lights+flying+cars+and+dark+atmosphere",
      Style("digital", "Digital Art", "Modern aesthetics", Digital), 1705190400000, None, 312, 156),
    ArtPiece("3", "Abstract geometric patterns in vibrant rainbow colors",
      "https://placehold.co/400x400?text=Abstract+geometric+patterns+with+vibrant+rainbow+colors+and+mathematical+precision",
      Style("abstract", "Abstract", "Geometric shapes", Abstract), 1705104000000, None, 178, 67),
    ArtPiece("4", "Majestic mountain landscape during golden hour",
      "https://placehold.co/400x400?text=Majestic+mountain+landscape+with+golden+hour+lighting+and+dramatic+clouds",
      Style("photorealistic", "Photorealistic", "Lifelike imagery", Photorealistic), 1705017600000, None, 421, 203),
    ArtPiece("5", "Vintage oil painting of a bustling marketplace",
      "https://placehold.co/400x400?text=Vintage+oil+painting+of+bustling+marketplace+with+textured+brushstrokes",
      Style("painting", "Oil Painting", "Traditional techniques", Painting), 1704931200000, None, 294, 128),
    ArtPiece("6", "Detailed pencil sketch of an ancient tree",
      "https://placehold.co/400x400?text=Detailed+pencil+sketch+of+ancient+tree+with+intricate+bark+texture+and+shading",
      Style("sketch", "Sketch", "Hand-drawn style", Sketch), 1704844800000, None, 156, 45),
    ArtPiece("7", "Underwater coral reef with tropical fish",
      "https://placehold.co/400x400?text=Underwater+coral+reef+with+colorful+tropical+fish+and+crystal+clear+water",
      Style("photorealistic", "Photorealistic", "Lifelike imagery", Photorealistic), 1704758400000, None, 367, 184),
    ArtPiece("8", "Space nebula with stars and cosmic dust",
      "https://placehold.co/400x400?text=Colorful+space+nebula+with+bright+stars+and+cosmic+dust+clouds+in+deep+space",
      Style("digital", "Digital Art", "Modern aesthetics", Digital), 1704672000000, None, 445, 267),
    ArtPiece("9", "Minimalist geometric composition in monochrome",
      "https://placehold.co/400x400?text=Minimalist+geometric+composition+with+clean+lines+in+black+and+white",
      Style("abstract", "Abstract", "Geometric shapes", Abstract), 1704585600000, None, 223, 91)
  ]

  const NoFilter := GalleryFilter(None, None, None, None)

  /**
   * `Partial<GalleryFilter>`: per field, `None` when the key is absent and
   * `Some(v)` when it is present, `v` being `None` for an explicit `undefined`.
   */
  datatype FilterUpdate = FilterUpdate(
    category: Option<Option<CategoryChoice>>,
    style: Option<Option<string>>,
    sortBy: Option<Option<SortKey>>,
    search: Option<Option<string>>)

  function Override<T>(current: Option<T>, update: Option<Option<T>>): Option<T> {
    if update.Some? then update.value else current
  }

  /** `{ ...filter, ...newFilter }`. */
  function MergeFilter(filter: GalleryFilter, update: FilterUpdate): (m: GalleryFilter)
    ensures update.category.Some? ==> m.category == update.category.value
    ensures update.category.None? ==> m.category == filter.category
    ensures update.style.Some? ==> m.style == update.style.value
    ensures update.style.None? ==> m.style == filter.style
    ensures update.sortBy.Some? ==> m.sortBy == update.sortBy.value
    ensures update.sortBy.None? ==> m.sortBy == filter.sortBy
    ensures update.search.Some? ==> m.search == update.search.value
    ensures update.search.None? ==> m.search == filter.search
  {
    GalleryFilter(
      Override(filter.category, update.category),
      Override(filter.style, update.style),
      Override(filter.sortBy, update.sortBy),
      Override(filter.search, update.search))
  }

  /** Applying the same update twice changes nothing more. */
  lemma MergeIdempotent(filter: GalleryFilter, update: FilterUpdate)
    ensures MergeFilter(MergeFilter(filter, update), update) == MergeFilter(filter, update)
  {
  }

  /** `filtered.filter(art => art.style.category === category)`. */
  function FilterCategory(pieces: seq<ArtPiece>, category: Category): (r: seq<ArtPiece>)
    ensures forall i | 0 <= i < |r| :: r[i].style.category == category
    ensures forall i | 0 <= i < |pieces| && pieces[i].style.category == category :: pieces[i] in r
  {
    if pieces == [] then []
    else
      var rest := FilterCategory(pieces[1..], category);
      assert pieces == [pieces[0]] + pieces[1..];
      assert forall i | 1 <= i < |pieces| :: pieces[i] == pieces[1..][i - 1];
      if pieces[0].style.category == category then [pieces[0]] + rest else rest
  }

  /** Every piece the filter keeps is taken from its input. */
  lemma {:induction false} FilterCategorySubset(pieces: seq<ArtPiece>, category: Category)
    ensures multiset(FilterCategory(pieces, category)) <= multiset(pieces)
    decreases |pieces|
  {
    if pieces != [] {
      FilterCategorySubset(pieces[1..], category);
      assert pieces == [pieces[0]] + pieces[1..];
      assert multiset(pieces) == multiset{pieces[0]} + multiset(pieces[1..]);
    }
  }

  /** `Array.prototype.filter` keeps order: filtering a concatenation filters each part. */
  lemma {:induction false} FilterCategoryAppend(a: seq<ArtPiece>, b: seq<ArtPiece>, category: Category)
    ensures FilterCategory(a + b, category) == FilterCategory(a, category) + FilterCategory(b, category)
    decreases |a|
  {
    if a == [] {
      assert a + b == b;
    } else {
      var ab := a + b;
      assert ab[0] == a[0] && ab[1..] == a[1..] + b;
      FilterCategoryAppend(a[1..], b, category);
      var tail := FilterCategory(a[1..], category);
      if a[0].style.category == category {
        assert FilterCategory(a, category) == [a[0]] + tail;
        assert FilterCategory(ab, category) == [a[0]] + (tail + FilterCategory(b, category));
      } else {
        assert FilterCategory(a, category) == tail;
        assert FilterCategory(ab, category) == tail + FilterCategory(b, category);
      }
    }
  }

  /** The quantity a sort key orders by: likes, downloads, or the creation instant in milliseconds. */
  function SortValue(key: SortKey, piece: ArtPiece): (v: int)
    ensures key == Popular ==> v == piece.likes
    ensures key == Trending ==> v == piece.downloads
    ensures key == Newest ==> v == piece.createdAt
  {
    match key
    case Popular => piece.likes
    case Trending => piece.downloads
    case Newest => piece.createdAt
  }

  /**
   * The comparator handed to `sort`: `b.value - a.value`. It is negative
   * exactly when `a` has the larger value, and zero on a tie.
   */
  function Compare(key: SortKey, a: ArtPiece, b: ArtPiece): (c: int)
    ensures c < 0 <==> SortValue(key, a) > SortValue(key, b)
    ensures c == 0 <==> SortValue(key, a) == SortValue(key, b)
  {
    SortValue(key, b) - SortValue(key, a)
  }

  ghost predicate SortedDescending(s: seq<ArtPiece>, key: SortKey) {
    forall i, j | 0 <= i < j < |s| :: SortValue(key, s[i]) >= SortValue(key, s[j])
  }

  /** Descending order is the order the comparator asks for: no later element compares before an earlier one. */
  lemma SortedAgreesWithComparator(s: seq<ArtPiece>, key: SortKey)
    ensures SortedDescending(s, key) <==> forall i, j | 0 <= i < j < |s| :: Compare(key, s[i], s[j]) <= 0
  {
  }

  /** Places `x` before the first element whose value is not greater: after every strictly greater one. */
  function Insert(x: ArtPiece, s: seq<ArtPiece>, key: SortKey): (r: seq<ArtPiece>)
    requires SortedDescending(s, key)
    ensures SortedDescending(r, key)
    ensures |r| == |s| + 1 && (r[0] == x || (s != [] && r[0] == s[0]))
  {
    if s == [] || SortValue(key, s[0]) <= SortValue(key, x) then [x] + s
    else
      var rest := Insert(x, s[1..], key);
      SortedCons(s[0], rest, key);
      [s[0]] + rest
  }

  /** Insertion adds exactly the one element. */
  lemma {:induction false} InsertPermutes(x: ArtPiece, s: seq<ArtPiece>, key: SortKey)
    requires SortedDescending(s, key)
    ensures multiset(Insert(x, s, key)) == multiset(s) + multiset{x}
    decreases |s|
  {
    if !(s == [] || SortValue(key, s[0]) <= SortValue(key, x)) {
      var rest := Insert(x, s[1..], key);
      InsertPermutes(x, s[1..], key);
      assert s == [s[0]] + s[1..];
      assert multiset(s) == multiset{s[0]} + multiset(s[1..]);
      assert multiset([s[0]] + rest) == multiset{s[0]} + multiset(rest);
    }
  }

  /** A head no smaller than the head of a sorted list keeps it sorted. */
  lemma SortedCons(h: ArtPiece, t: seq<ArtPiece>, key: SortKey)
    requires SortedDescending(t, key)
    requires t != [] ==> SortValue(key, h) >= SortValue(key, t[0])
    ensures SortedDescending([h] + t, key)
  {
    var r := [h] + t;
    forall i, j | 0 <= i < j < |r| ensures SortValue(key, r[i]) >= SortValue(key, r[j]) {
      assert r[j] == t[j - 1];
      if i > 0 {
        assert r[i] == t[i - 1];
      } else if j > 1 {
        assert SortValue(key, t[0]) >= SortValue(key, t[j - 1]);
      }
    }
  }

  /**
   * `[...filtered].sort(comparator)` for the comparator `b.v - a.v`: a stable
   * sort by non-increasing value, on a copy.
   */
  function SortDescending(s: seq<ArtPiece>, key: SortKey): (r: seq<ArtPiece>)
    ensures SortedDescending(r, key)
    ensures multiset(r) == multiset(s)
  {
    if s == [] then []
    else
      assert s == [s[0]] + s[1..];
      InsertPermutes(s[0], SortDescending(s[1..], key), key);
      Insert(s[0], SortDescending(s[1..], key), key)
  }

  /** The pieces of `s` whose value is `v`, in order. */
  function WithValue(s: seq<ArtPiece>, key: SortKey, v: int): seq<ArtPiece> {
    if s == [] then [] else (if SortValue(key, s[0]) == v then [s[0]] else []) + WithValue(s[1..], key, v)
  }

  lemma {:induction false} InsertKeepsTies(x: ArtPiece, s: seq<ArtPiece>, key: SortKey, v: int)
    requires SortedDescending(s, key)
    ensures WithValue(Insert(x, s, key), key, v) == WithValue([x] + s, key, v)
    decreases |s|
  {
    if s == [] || SortValue(key, s[0]) <= SortValue(key, x) {
    } else {
      var rest := Insert(x, s[1..], key);
      assert Insert(x, s, key) == [s[0]] + rest;
      assert ([s[0]] + rest)[1..] == rest;
      InsertKeepsTies(x, s[1..], key, v);
      assert ([x] + s)[1..] == s;
      assert ([x] + s[1..])[1..] == s[1..];
      if SortValue(key, x) == v {
        // s[0] has a greater value than x, so it is not among the ties with value v
        assert WithValue([x] + s, key, v) == [x] + WithValue(s, key, v);
        assert WithValue(s, key, v) == WithValue(s[1..], key, v);
      } else {
        assert WithValue([x] + s, key, v) == WithValue(s, key, v);
        assert WithValue([x] + s[1..], key, v) == WithValue(s[1..], key, v);
      }
    }
  }

  /** The sort is stable: pieces with equal values keep their relative order. */
  lemma {:induction false} SortIsStable(s: seq<ArtPiece>, key: SortKey, v: int)
    ensures WithValue(SortDescending(s, key), key, v) == WithValue(s, key, v)
    decreases |s|
  {
    if s != [] {
      SortIsStable(s[1..], key, v);
      InsertKeepsTies(s[0], SortDescending(s[1..], key), key, v);
      assert ([s[0]] + SortDescending(s[1..], key))[1..] == SortDescending(s[1..], key);
    }
  }

  /** The list the category filter leaves of `pieces`. */
  function Filtered(pieces: seq<ArtPiece>, filter: GalleryFilter): (r: seq<ArtPiece>)
    ensures multiset(r) <= multiset(pieces)
  {
    if filter.category.Some? && filter.category.value.Only? then
      FilterCategorySubset(pieces, filter.category.value.category);
      FilterCategory(pieces, filter.category.value.category)
    else pieces
  }

  /** What the page displays of `pieces` for a filter: the filtered list, sorted if a sort option is set. */
  function Displayed(pieces: seq<ArtPiece>, filter: GalleryFilter): (r: seq<ArtPiece>)
    ensures multiset(r) == multiset(Filtered(pieces, filter))
    ensures filter.sortBy.Some? ==> SortedDescending(r, filter.sortBy.value)
    ensures filter.sortBy.None? ==> r == Filtered(pieces, filter)
  {
    if filter.sortBy.Some? then SortDescending(Filtered(pieces, filter), filter.sortBy.value) else Filtered(pieces, filter)
  }

  /** With a category chosen, exactly the pieces of that category are displayed. */
  lemma CategoryFilterExact(pieces: seq<ArtPiece>, filter: GalleryFilter, category: Category)
    requires filter.category == Some(Only(category))
    ensures forall x | x in Displayed(pieces, filter) :: x.style.category == category
    ensures forall x | x in pieces && x.style.category == category :: x in Displayed(pieces, filter)
  {
    var r := Displayed(pieces, filter);
    forall x ensures x in r <==> x in Filtered(pieces, filter) {
      assert x in r <==> x in multiset(r);
    }
  }

  /** With no category or `'all'`, nothing is removed: the display is a permutation of the pieces. */
  lemma NoCategoryKeepsAll(pieces: seq<ArtPiece>, filter: GalleryFilter)
    requires filter.category.None? || filter.category.value == AllCategories
    ensures multiset(Displayed(pieces, filter)) == multiset(pieces)
    ensures filter.sortBy.None? ==> Displayed(pieces, filter) == pieces
  {
  }

  /**
   * The page's state: the filter and the pieces on display. `samples` is the
   * page's view of the module-level `sampleArtPieces`, which nothing changes.
   */
  class GalleryPage {
    const samples: seq<ArtPiece>
    var filter: GalleryFilter
    var artPieces: seq<ArtPiece>

    constructor ()
      ensures samples == SampleArtPieces
      ensures filter == NoFilter && artPieces == SampleArtPieces
    {
      samples := SampleArtPieces;
      filter := NoFilter;
      artPieces := SampleArtPieces;
    }

    /** `handleFilterChange`: merge the update, then recompute the display from the full sample list. */
    method HandleFilterChange(newFilter: FilterUpdate)
      modifies this
      ensures filter == MergeFilter(old(filter), newFilter)
      ensures artPieces == Displayed(samples, filter)
    {
      var updatedFilter := MergeFilter(filter, newFilter);
      filter := updatedFilter;

      var filtered := samples;
      if updatedFilter.category.Some? && updatedFilter.category.value != AllCategories {
        filtered := FilterCategory(filtered, updatedFilter.category.value.category);
      }
      if updatedFilter.sortBy.Some? {
        filtered := SortDescending(filtered, updatedFilter.sortBy.value);
      }
      artPieces := filtered;
    }
  }
}
