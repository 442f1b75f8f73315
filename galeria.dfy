/** The photo gallery page: a grid of items that can be filtered by
    category, searched and sorted, and a modal viewer that walks through the
    currently filtered pictures with wrap-around. The grid's items are a
    sequence whose `hidden` and `displayed` flags stand for the class and
    style the page toggles. */
module Galeria {
  import opened Strings

  const AllCategories := "all"
  const DefaultTitle := "Proyecto"
  const DefaultDescription := "Descripción del proyecto"

  /** One `.gallery-item` of the grid. A missing heading or paragraph is `None`. */
  datatype Item = Item(
    category: Option<string>,
    imgSrc: string,
    title: Option<string>,
    description: Option<string>,
    tags: seq<string>,
    year: string,
    hidden: bool,
    displayed: bool)

  /** A picture the modal can show. */
  datatype GalleryImage = GalleryImage(src: string, title: string, description: string, category: Option<string>)

  /** The modal's position: `NaN` once an index was taken modulo an empty list. */
  datatype Position = At(index: nat) | NotANumber

  // ---------------------------------------------------------------------
  // Collecting the pictures

  /** `text || fallback`: a missing or empty text gives the fallback. */
  function TextOr(t: Option<string>, fallback: string): (r: string)
    ensures t.Some? && t.value != [] ==> r == t.value
    ensures t.None? || t.value == [] ==> r == fallback
  {
    if t.Some? && t.value != [] then t.value else fallback
  }

  /** The modal picture of one grid item: the large rendition of its image. */
  function ImageOf(item: Item): GalleryImage
  {
    GalleryImage(ReplaceFirst(item.imgSrc, "w=800", "w=1200"),
                 TextOr(item.title, DefaultTitle),
                 TextOr(item.description, DefaultDescription),
                 item.category)
  }

  /** `collectImages`: one picture per grid item, in grid order. */
  function CollectImages(items: seq<Item>): (images: seq<GalleryImage>)
    ensures |images| == |items|
    ensures forall i :: 0 <= i < |items| ==> images[i] == ImageOf(items[i])
  {
    if items == [] then [] else [ImageOf(items[0])] + CollectImages(items[1..])
  }

  /** A source without the small-size marker is used as it is. */
  lemma CollectedSourceWithoutMarker(item: Item)
    requires !Contains(item.imgSrc, "w=800")
    ensures ImageOf(item).src == item.imgSrc
  {
    ReplaceFirstAbsent(item.imgSrc, "w=800", "w=1200");
  }

  /** A source with the small-size marker gets the large one in place of its first
      occurrence; the rest of the address is kept. */
  lemma CollectedSourceWithMarker(item: Item, before: string, after: string)
    requires item.imgSrc == before + "w=800" + after
    requires forall k :: 0 <= k < |before| ==> !("w=800" <= item.imgSrc[k..])
    ensures ImageOf(item).src == before + "w=1200" + after
  {
    ReplaceFirstAt(before, "w=800", after, "w=1200");
  }

  // ---------------------------------------------------------------------
  // Filtering

  /** `filter === 'all' || category === filter` */
  predicate ShouldShow(category: Option<string>, filter: string)
  {
    filter == AllCategories || category == Some(filter)
  }

  /** `images.filter(img => img.category === filter)` */
  function OfCategory(images: seq<GalleryImage>, filter: string): (r: seq<GalleryImage>)
    ensures |r| <= |images|
    ensures forall x :: x in r ==> x in images && x.category == Some(filter)
  {
    if images == [] then []
    else if images[0].category == Some(filter) then [images[0]] + OfCategory(images[1..], filter)
    else OfCategory(images[1..], filter)
  }

  /** `updateFilteredImages`: every picture for `all`, otherwise those of the category. */
  function FilteredImages(images: seq<GalleryImage>, filter: string): seq<GalleryImage>
  {
    if filter == AllCategories then images else OfCategory(images, filter)
  }

  /** Filtering keeps exactly the pictures of the category, each as often as it occurs. */
  lemma {:induction false} OfCategoryCounts(images: seq<GalleryImage>, filter: string)
    ensures forall x ::
      multiset(OfCategory(images, filter))[x] == (if x.category == Some(filter) then multiset(images)[x] else 0)
  {
    if images != [] {
      OfCategoryCounts(images[1..], filter);
      assert images == [images[0]] + images[1..];
    }
  }

  /** Filtering a concatenation filters each part: the kept pictures stay in grid order. */
  lemma {:induction false} OfCategoryAppend(a: seq<GalleryImage>, b: seq<GalleryImage>, filter: string)
    ensures OfCategory(a + b, filter) == OfCategory(a, filter) + OfCategory(b, filter)
  {
    if a == [] {
      assert a + b == b;
    } else {
      assert (a + b)[1..] == a[1..] + b;
      OfCategoryAppend(a[1..], b, filter);
    }
  }

  /** Filtering twice by the same category changes nothing more. */
  lemma {:induction false} OfCategoryIdempotent(images: seq<GalleryImage>, filter: string)
    ensures OfCategory(OfCategory(images, filter), filter) == OfCategory(images, filter)
  {
    if images != [] {
      OfCategoryIdempotent(images[1..], filter);
    }
  }

  // ---------------------------------------------------------------------
  // Index arithmetic of the modal

  /** `(i + 1) % n` */
  function Advance(p: Position, n: nat): Position
  {
    if n == 0 then NotANumber
    else match p
      case At(k) => At((k + 1) % n)
      case NotANumber => NotANumber
  }

  /** `(i - 1 + n) % n` */
  function Retreat(p: Position, n: nat): Position
  {
    if n == 0 then NotANumber
    else match p
      case At(k) => At((k - 1 + n) % n)
      case NotANumber => NotANumber
  }

  /** Inside a non-empty list, next moves one place on and wraps from the last to the first. */
  lemma AdvanceWraps(k: nat, n: nat)
    requires k < n
    ensures Advance(At(k), n) == At(if k == n - 1 then 0 else k + 1)
  {
  }

  /** Inside a non-empty list, previous moves one place back and wraps from the first to the last. */
  lemma RetreatWraps(k: nat, n: nat)
    requires k < n
    ensures Retreat(At(k), n) == At(if k == 0 then n - 1 else k - 1)
  {
    if k == 0 {
      assert (n - 1) % n == n - 1;
    } else {
      assert (k - 1 + n) % n == k - 1 by {
        assert k - 1 + n == (k - 1) + 1 * n;
      }
    }
  }

  /** Previous undoes next and next undoes previous for every position in range. */
  lemma AdvanceRetreatInverse(k: nat, n: nat)
    requires k < n
    ensures Retreat(Advance(At(k), n), n) == At(k)
    ensures Advance(Retreat(At(k), n), n) == At(k)
  {
    AdvanceWraps(k, n);
    RetreatWraps(k, n);
    var next := if k == n - 1 then 0 else k + 1;
    var prev := if k == 0 then n - 1 else k - 1;
    RetreatWraps(next, n);
    AdvanceWraps(prev, n);
  }

  /** Any number, even one outside the list after a filter change, lands inside a non-empty list. */
  lemma StepsStayInRange(k: nat, n: nat)
    requires n > 0
    ensures Advance(At(k), n).At? && Advance(At(k), n).index < n
    ensures Retreat(At(k), n).At? && Retreat(At(k), n).index < n
  {
  }

  /** `preloadAdjacentImages`: the pictures loaded ahead are the ones previous and next would show. */
  function AdjacentIndices(k: nat, n: nat): (r: (nat, nat))
    requires n > 0
    ensures r.0 < n && r.1 < n
    ensures At(r.0) == Retreat(At(k), n) && At(r.1) == Advance(At(k), n)
  {
    ((k - 1 + n) % n, (k + 1) % n)
  }

  // ---------------------------------------------------------------------
  // Searching and sorting the grid

  /** `searchProjects` test for one item: the lower-cased query occurs in the
      lower-cased title, description or one of the tags. */
  predicate MatchesQuery(item: Item, query: string)
  {
    var q := ToLower(query);
    var title := if item.title.Some? then ToLower(item.title.value) else [];
    var description := if item.description.Some? then ToLower(item.description.value) else [];
    Contains(title, q) || Contains(description, q) ||
    exists i :: 0 <= i < |item.tags| && Contains(ToLower(item.tags[i]), q)
  }

  /** The empty query matches every item. */
  lemma EmptyQueryMatchesAll(item: Item)
    ensures MatchesQuery(item, [])
  {
    ContainsEmpty(if item.title.Some? then ToLower(item.title.value) else []);
  }

  /** A query that is a whole tag, in any case, matches the item. */
  lemma TagMatchesQuery(item: Item, i: nat)
    requires i < |item.tags|
    ensures MatchesQuery(item, item.tags[i])
  {
    var t := ToLower(item.tags[i]);
    ContainsAt(t, 0, t);
  }

  /** Code-unit order on strings, standing for `localeCompare(...) <= 0`. */
  predicate LexLe(a: string, b: string)
    decreases |a|
  {
    if a == [] then true
    else if b == [] then false
    else if a[0] != b[0] then a[0] < b[0]
    else LexLe(a[1..], b[1..])
  }

  lemma {:induction false} LexLeTotal(a: string, b: string)
    ensures LexLe(a, b) || LexLe(b, a)
    decreases |a|
  {
    if a != [] && b != [] && a[0] == b[0] {
      LexLeTotal(a[1..], b[1..]);
    }
  }

  lemma {:induction false} LexLeTransitive(a: string, b: string, c: string)
    requires LexLe(a, b) && LexLe(b, c)
    ensures LexLe(a, c)
    decreases |a|
  {
    if a != [] && b != [] && c != [] && a[0] == b[0] && b[0] == c[0] {
      LexLeTransitive(a[1..], b[1..], c[1..]);
    }
  }

  /** The title sort key of `sortProjects` (empty when the item has no heading). */
  function TitleKey(item: Item): string
  {
    if item.title.Some? then item.title.value else []
  }

  /** The comparator's order: `a` may stay before `b`. Newest year first; titles in
      ascending order; any other criterion compares everything as equal. */
  predicate KeyLe(criteria: string, a: Item, b: Item)
  {
    if criteria == "year" then LexLe(b.year, a.year)
    else if criteria == "title" then LexLe(TitleKey(a), TitleKey(b))
    else true
  }

  lemma KeyLeTotal(criteria: string, a: Item, b: Item)
    ensures KeyLe(criteria, a, b) || KeyLe(criteria, b, a)
  {
    LexLeTotal(a.year, b.year);
    LexLeTotal(TitleKey(a), TitleKey(b));
  }

  lemma KeyLeTransitive(criteria: string, a: Item, b: Item, c: Item)
    requires KeyLe(criteria, a, b) && KeyLe(criteria, b, c)
    ensures KeyLe(criteria, a, c)
  {
    if criteria == "year" {
      LexLeTransitive(c.year, b.year, a.year);
    } else if criteria == "title" {
      LexLeTransitive(TitleKey(a), TitleKey(b), TitleKey(c));
    }
  }

  predicate SortedBy(criteria: string, s: seq<Item>)
  {
    forall i, j :: 0 <= i < j < |s| ==> KeyLe(criteria, s[i], s[j])
  }

  /** Insert `x` after every element that does not compare greater than it (stable). */
  function Insert(criteria: string, x: Item, s: seq<Item>): (r: seq<Item>)
    ensures multiset(r) == multiset(s) + multiset{x}
  {
    if s == [] then [x]
    else if !KeyLe(criteria, s[0], x) then [x] + s
    else
      assert s == [s[0]] + s[1..];
      [s[0]] + Insert(criteria, x, s[1..])
  }

  /** A stable sort by the comparator, as `Array.prototype.sort` does. */
  function SortItems(criteria: string, s: seq<Item>): (r: seq<Item>)
    ensures multiset(r) == multiset(s)
  {
    if s == [] then []
    else
      assert s == s[..|s| - 1] + [s[|s| - 1]];
      Insert(criteria, s[|s| - 1], SortItems(criteria, s[..|s| - 1]))
  }

  lemma {:induction false} InsertSorted(criteria: string, x: Item, s: seq<Item>)
    requires SortedBy(criteria, s)
    ensures SortedBy(criteria, Insert(criteria, x, s))
  {
    if s != [] && KeyLe(criteria, s[0], x) {
      InsertSorted(criteria, x, s[1..]);
      var rest := Insert(criteria, x, s[1..]);
      var r := [s[0]] + rest;
      forall j | 1 <= j < |r| ensures KeyLe(criteria, s[0], r[j]) {
        var y := r[j];
        assert y in multiset(rest);
        assert y == x || y in multiset(s[1..]);
        if y != x {
          var k :| 0 <= k < |s[1..]| && s[1..][k] == y;
          assert s[k + 1] == y;
        }
      }
    } else if s != [] {
      var r := [x] + s;
      KeyLeTotal(criteria, s[0], x);
      forall i, j | 0 <= i < j < |r| ensures KeyLe(criteria, r[i], r[j]) {
        if i == 0 {
          if j > 1 {
            KeyLeTransitive(criteria, x, s[0], s[j - 1]);
          }
        }
      }
    }
  }

  /** The sorted grid is ordered by the criterion and holds the same items. */
  lemma {:induction false} SortItemsSorted(criteria: string, s: seq<Item>)
    ensures SortedBy(criteria, SortItems(criteria, s))
    ensures multiset(SortItems(criteria, s)) == multiset(s)
  {
    if s != [] {
      SortItemsSorted(criteria, s[..|s| - 1]);
      InsertSorted(criteria, s[|s| - 1], SortItems(criteria, s[..|s| - 1]));
    }
  }

  /** Under an unknown criterion every comparison is a tie, so the grid keeps its order. */
  lemma SortUnknownCriterionKeepsOrder(criteria: string, s: seq<Item>)
    requires criteria != "year" && criteria != "title"
    ensures SortItems(criteria, s) == s
  {
    assert forall a, b :: KeyLe(criteria, a, b);
    SortTiesKeepsOrder(criteria, s);
  }

  lemma {:induction false} SortTiesKeepsOrder(criteria: string, s: seq<Item>)
    requires forall a, b :: KeyLe(criteria, a, b)
    ensures SortItems(criteria, s) == s
  {
    if s != [] {
      SortTiesKeepsOrder(criteria, s[..|s| - 1]);
      InsertAtEnd(criteria, s[|s| - 1], s[..|s| - 1]);
      assert s[..|s| - 1] + [s[|s| - 1]] == s;
    }
  }

  lemma {:induction false} InsertAtEnd(criteria: string, x: Item, s: seq<Item>)
    requires forall a, b :: KeyLe(criteria, a, b)
    ensures Insert(criteria, x, s) == s + [x]
  {
    if s != [] {
      InsertAtEnd(criteria, x, s[1..]);
      assert s == [s[0]] + s[1..];
    }
  }

  /** Sorting by title throws when two or more items are compared and one has no title:
      the grid is then left as it was. */
  predicate SortThrows(criteria: string, s: seq<Item>)
  {
    criteria == "title" && |s| >= 2 && exists i :: 0 <= i < |s| && s[i].title.None?
  }

  // ---------------------------------------------------------------------
  // The gallery object

  class GalleryManager {
    var items: seq<Item>
    var images: seq<GalleryImage>
    var filteredImages: Option<seq<GalleryImage>>
    var currentFilter: string
    var currentImageIndex: Position
    var isModalOpen: bool

    /** `filteredImages || images`: an empty filtered list is still used. */
    function CurrentImages(): seq<GalleryImage>
      reads this
    {
      if filteredImages.Some? then filteredImages.value else images
    }

    constructor (grid: seq<Item>)
      ensures items == grid && images == CollectImages(grid)
      ensures filteredImages.None? && currentFilter == AllCategories
      ensures currentImageIndex == At(0) && !isModalOpen
    {
      items := grid;
      images := CollectImages(grid);
      filteredImages := None;
      currentFilter := AllCategories;
      currentImageIndex := At(0);
      isModalOpen := false;
    }

    method RecollectImages()
      modifies this
      ensures images == CollectImages(items)
      ensures items == old(items) && filteredImages == old(filteredImages) && currentFilter == old(currentFilter)
      ensures currentImageIndex == old(currentImageIndex) && isModalOpen == old(isModalOpen)
    {
      images := CollectImages(items);
    }

    /** `applyFilter`: hide every item outside the filter, then recompute the modal's list. */
    method ApplyFilter(filter: string)
      modifies this
      ensures |items| == |old(items)|
      ensures forall i :: 0 <= i < |items| ==>
        items[i] == old(items[i]).(hidden := !ShouldShow(old(items[i]).category, filter))
      ensures filteredImages == Some(FilteredImages(images, filter))
      ensures images == old(images) && currentFilter == old(currentFilter)
      ensures currentImageIndex == old(currentImageIndex) && isModalOpen == old(isModalOpen)
    {
      var i := 0;
      while i < |items|
        invariant 0 <= i <= |items| && |items| == |old(items)|
        invariant forall j :: 0 <= j < i ==>
          items[j] == old(items[j]).(hidden := !ShouldShow(old(items[j]).category, filter))
        invariant forall j :: i <= j < |items| ==> items[j] == old(items[j])
        invariant images == old(images) && filteredImages == old(filteredImages) && currentFilter == old(currentFilter)
        invariant currentImageIndex == old(currentImageIndex) && isModalOpen == old(isModalOpen)
      {
        var item := items[i];
        items := items[i := item.(hidden := !ShouldShow(item.category, filter))];
        i := i + 1;
      }
      UpdateFilteredImages(filter);
    }

    method UpdateFilteredImages(filter: string)
      modifies this
      ensures filteredImages == Some(FilteredImages(images, filter))
      ensures items == old(items) && images == old(images) && currentFilter == old(currentFilter)
      ensures currentImageIndex == old(currentImageIndex) && isModalOpen == old(isModalOpen)
    {
      if filter == AllCategories {
        filteredImages := Some(images);
      } else {
        filteredImages := Some(OfCategory(images, filter));
      }
    }

    /** A click on a filter button. */
    method HandleFilterClick(filter: string)
      modifies this
      ensures currentFilter == filter
      ensures filteredImages == Some(FilteredImages(images, filter))
      ensures |items| == |old(items)|
      ensures forall i :: 0 <= i < |items| ==> items[i].hidden == !ShouldShow(items[i].category, filter)
      ensures forall i :: 0 <= i < |items| ==>
        items[i] == old(items[i]).(hidden := !ShouldShow(old(items[i]).category, filter))
      ensures images == old(images)
      ensures currentImageIndex == old(currentImageIndex) && isModalOpen == old(isModalOpen)
    {
      ApplyFilter(filter);
      currentFilter := filter;
    }

    /** `openModal(src)`: position on the first picture with that source, or on the first
        picture when there is none; an empty list throws before the modal opens. */
    method OpenModal(src: string) returns (shown: Option<GalleryImage>)
      modifies this
      ensures var list := CurrentImages();
        var k := FirstIndexOf(list, src);
        currentImageIndex == At(if k < 0 then 0 else k)
      ensures shown.Some? <==> |CurrentImages()| > 0
      ensures shown.Some? ==>
        (currentImageIndex.At? && currentImageIndex.index < |CurrentImages()| &&
         shown.value == CurrentImages()[currentImageIndex.index])
      ensures shown.Some? ==> src in SourcesOf(CurrentImages()) ==> shown.value.src == src
      ensures isModalOpen == (shown.Some? || old(isModalOpen))
      ensures items == old(items) && images == old(images) && filteredImages == old(filteredImages)
      ensures currentFilter == old(currentFilter)
    {
      var list := CurrentImages();
      var k := FindImageIndex(list, src);
      currentImageIndex := At(if k == -1 then 0 else k);
      if |list| == 0 {
        return None;
      }
      shown := Some(list[currentImageIndex.index]);
      isModalOpen := true;
      if src in SourcesOf(list) {
        FirstIndexOfFinds(list, src);
      }
    }

    method CloseModal()
      modifies this
      ensures !isModalOpen
      ensures items == old(items) && images == old(images) && filteredImages == old(filteredImages)
      ensures currentFilter == old(currentFilter) && currentImageIndex == old(currentImageIndex)
    {
      isModalOpen := false;
    }

    /** `nextImage`; `completed` is false when the empty list makes the preload throw. */
    method NextImage() returns (completed: bool)
      modifies this
      ensures currentImageIndex == Advance(old(currentImageIndex), |CurrentImages()|)
      ensures completed <==> |CurrentImages()| > 0 && old(currentImageIndex).At?
      ensures items == old(items) && images == old(images) && filteredImages == old(filteredImages)
      ensures currentFilter == old(currentFilter) && isModalOpen == old(isModalOpen)
    {
      currentImageIndex := Advance(currentImageIndex, |CurrentImages()|);
      completed := currentImageIndex.At?;
    }

    /** `previousImage`; `completed` as for `nextImage`. */
    method PreviousImage() returns (completed: bool)
      modifies this
      ensures currentImageIndex == Retreat(old(currentImageIndex), |CurrentImages()|)
      ensures completed <==> |CurrentImages()| > 0 && old(currentImageIndex).At?
      ensures items == old(items) && images == old(images) && filteredImages == old(filteredImages)
      ensures currentFilter == old(currentFilter) && isModalOpen == old(isModalOpen)
    {
      currentImageIndex := Retreat(currentImageIndex, |CurrentImages()|);
      completed := currentImageIndex.At?;
    }

    /** The keyboard handler: only active while the modal is open. */
    method HandleKey(key: string)
      modifies this
      ensures !old(isModalOpen) ==> currentImageIndex == old(currentImageIndex) && isModalOpen == old(isModalOpen)
      ensures old(isModalOpen) && key == "Escape" ==> !isModalOpen && currentImageIndex == old(currentImageIndex)
      ensures old(isModalOpen) && key == "ArrowLeft" ==>
        currentImageIndex == Retreat(old(currentImageIndex), |CurrentImages()|) && isModalOpen
      ensures old(isModalOpen) && key == "ArrowRight" ==>
        currentImageIndex == Advance(old(currentImageIndex), |CurrentImages()|) && isModalOpen
      ensures key != "Escape" && key != "ArrowLeft" && key != "ArrowRight" ==>
        currentImageIndex == old(currentImageIndex) && isModalOpen == old(isModalOpen)
      ensures items == old(items) && images == old(images) && filteredImages == old(filteredImages)
      ensures currentFilter == old(currentFilter)
    {
      if !isModalOpen {
        return;
      }
      if key == "Escape" {
        CloseModal();
      } else if key == "ArrowLeft" {
        var _ := PreviousImage();
      } else if key == "ArrowRight" {
        var _ := NextImage();
      }
    }

    /** `searchProjects`: show exactly the items that match the query. */
    method SearchProjects(query: string)
      modifies this
      ensures |items| == |old(items)|
      ensures forall i :: 0 <= i < |items| ==>
        items[i] == old(items[i]).(displayed := MatchesQuery(old(items[i]), query))
      ensures images == old(images) && filteredImages == old(filteredImages) && currentFilter == old(currentFilter)
      ensures currentImageIndex == old(currentImageIndex) && isModalOpen == old(isModalOpen)
    {
      var i := 0;
      while i < |items|
        invariant 0 <= i <= |items| && |items| == |old(items)|
        invariant forall j :: 0 <= j < i ==>
          items[j] == old(items[j]).(displayed := MatchesQuery(old(items[j]), query))
        invariant forall j :: i <= j < |items| ==> items[j] == old(items[j])
        invariant images == old(images) && filteredImages == old(filteredImages) && currentFilter == old(currentFilter)
        invariant currentImageIndex == old(currentImageIndex) && isModalOpen == old(isModalOpen)
      {
        var item := items[i];
        items := items[i := item.(displayed := MatchesQuery(item, query))];
        i := i + 1;
      }
    }

    /** `sortProjects`: the grid re-ordered by the criterion, unless the comparator throws. */
    method SortProjects(criteria: string)
      modifies this
      ensures items == if SortThrows(criteria, old(items)) then old(items) else SortItems(criteria, old(items))
      ensures images == old(images) && filteredImages == old(filteredImages) && currentFilter == old(currentFilter)
      ensures currentImageIndex == old(currentImageIndex) && isModalOpen == old(isModalOpen)
    {
      if !SortThrows(criteria, items) {
        items := SortItems(criteria, items);
      }
    }
  }

  function SourcesOf(images: seq<GalleryImage>): (r: seq<string>)
    ensures |r| == |images| && forall i :: 0 <= i < |images| ==> r[i] == images[i].src
  {
    if images == [] then [] else [images[0].src] + SourcesOf(images[1..])
  }

  /** `findIndex(img => img.src === src)`: the first position with that source, or -1. */
  function FirstIndexOf(images: seq<GalleryImage>, src: string): (r: int)
    ensures -1 <= r < |images|
  {
    if images == [] then -1
    else if images[0].src == src then 0
    else var k := FirstIndexOf(images[1..], src); if k == -1 then -1 else k + 1
  }

  /** The first position with the source is found; -1 means no picture has it. */
  lemma {:induction false} FirstIndexOfFinds(images: seq<GalleryImage>, src: string)
    ensures FirstIndexOf(images, src) == -1 <==> src !in SourcesOf(images)
    ensures FirstIndexOf(images, src) >= 0 ==>
      (images[FirstIndexOf(images, src)].src == src &&
       forall j :: 0 <= j < FirstIndexOf(images, src) ==> images[j].src != src)
  {
    if images != [] {
      FirstIndexOfFinds(images[1..], src);
      var s := SourcesOf(images);
      assert s == [images[0].src] + SourcesOf(images[1..]);
    }
  }

  /** The linear scan `findIndex` performs. */
  method FindImageIndex(images: seq<GalleryImage>, src: string) returns (k: int)
    ensures -1 <= k < |images|
    ensures k >= 0 ==> images[k].src == src
    ensures k >= 0 ==> forall j :: 0 <= j < k ==> images[j].src != src
    ensures k == -1 ==> forall j :: 0 <= j < |images| ==> images[j].src != src
    ensures k == FirstIndexOf(images, src)
  {
    FirstIndexOfFinds(images, src);
    k := 0;
    while k < |images|
      invariant 0 <= k <= |images|
      invariant forall j :: 0 <= j < k ==> images[j].src != src
    {
      if images[k].src == src {
        return;
      }
      k := k + 1;
    }
    k := -1;
  }
}
