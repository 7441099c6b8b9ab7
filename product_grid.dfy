/** The product grid of js/modules/products.js, with each rendered card
    reduced to its `data-category` slug. A category filter selects the
    cards to show; until "load more" is pressed only the first few matching
    cards are shown, the number depending on the viewport width. */
module ProductGrid {
  import opened Common
  import opened Catalogue

  /** The filter value that matches every card. */
  const AllFilter: string := "all"

  // ---------------------------------------------------------------------
  // The category slug: `category.toLowerCase().replace(/\s+/g, '-')`

  function LowerChar(c: char): char
  {
    if 'A' <= c <= 'Z' then (c as int + 32) as char else c
  }

  /** `toLowerCase()` on the ASCII letters. */
  function LowerAscii(s: seq<char>): (r: seq<char>)
    ensures |r| == |s|
    ensures forall k :: 0 <= k < |s| ==> r[k] == LowerChar(s[k])
  {
    if s == [] then [] else [LowerChar(s[0])] + LowerAscii(s[1..])
  }

  /** `s` with its leading run of whitespace removed: what is dropped is
      all whitespace, and what is kept does not start with whitespace. */
  function DropWhitespace(s: seq<char>): (r: seq<char>)
    ensures |r| <= |s| && r == s[|s| - |r|..]
    ensures forall k :: 0 <= k < |s| - |r| ==> IsJsWhitespace(s[k])
    ensures r == [] || !IsJsWhitespace(r[0])
  {
    if s != [] && IsJsWhitespace(s[0]) then DropWhitespace(s[1..]) else s
  }

  /** `replace(/\s+/g, '-')`: every maximal run of whitespace becomes one
      hyphen. */
  function HyphenateWhitespace(s: seq<char>): (r: seq<char>)
    ensures NoWhitespace(r)
    ensures |r| <= |s|
    decreases |s|
  {
    if s == [] then []
    else if IsJsWhitespace(s[0]) then "-" + HyphenateWhitespace(DropWhitespace(s[1..]))
    else [s[0]] + HyphenateWhitespace(s[1..])
  }

  /** The `data-category` of a card. */
  function Slug(category: string): string
  {
    HyphenateWhitespace(LowerAscii(category))
  }

  predicate IsLower(s: seq<char>)
  {
    forall k :: 0 <= k < |s| ==> !('A' <= s[k] <= 'Z')
  }

  /** Hyphenating keeps a lower-case text lower-case. */
  lemma {:induction false} HyphenateKeepsLower(s: seq<char>)
    requires IsLower(s)
    ensures IsLower(HyphenateWhitespace(s))
    decreases |s|
  {
    if s != [] {
      LowerSuffix(s, 1);
      if IsJsWhitespace(s[0]) {
        var rest := DropWhitespace(s[1..]);
        LowerSuffix(s[1..], |s| - 1 - |rest|);
        HyphenateKeepsLower(rest);
        assert HyphenateWhitespace(s) == "-" + HyphenateWhitespace(rest);
        LowerConcat("-", HyphenateWhitespace(rest));
      } else {
        HyphenateKeepsLower(s[1..]);
        assert HyphenateWhitespace(s) == [s[0]] + HyphenateWhitespace(s[1..]);
        LowerConcat([s[0]], HyphenateWhitespace(s[1..]));
      }
    }
  }

  lemma LowerConcat(a: seq<char>, b: seq<char>)
    requires IsLower(a) && IsLower(b)
    ensures IsLower(a + b)
  {
    assert forall j :: |a| <= j < |a + b| ==> (a + b)[j] == b[j - |a|];
  }

  lemma LowerSuffix(s: seq<char>, k: nat)
    requires IsLower(s) && k <= |s|
    ensures IsLower(s[k..])
  {
    assert forall j :: 0 <= j < |s| - k ==> s[k..][j] == s[k + j];
  }

  /** A text without whitespace comes through hyphenation unchanged. */
  lemma {:induction false} HyphenateNoWhitespace(s: seq<char>)
    requires NoWhitespace(s)
    ensures HyphenateWhitespace(s) == s
  {
    if s != [] {
      HyphenateNoWhitespace(s[1..]);
    }
  }

  /** A lower-case text comes through `LowerAscii` unchanged. */
  lemma LowerAsciiOfLower(s: seq<char>)
    requires IsLower(s)
    ensures LowerAscii(s) == s
  {
  }

  /** A slug holds no whitespace and no upper-case ASCII letter, and
      slugging a slug changes nothing. */
  lemma SlugIdempotent(category: string)
    ensures NoWhitespace(Slug(category))
    ensures IsLower(Slug(category))
    ensures Slug(Slug(category)) == Slug(category)
  {
    var lower := LowerAscii(category);
    HyphenateKeepsLower(lower);
    var slug := Slug(category);
    LowerAsciiOfLower(slug);
    HyphenateNoWhitespace(slug);
  }

  /** Hyphenation copies a leading stretch without whitespace as it is. */
  lemma {:induction false} HyphenateConcat(a: seq<char>, b: seq<char>)
    requires NoWhitespace(a)
    ensures HyphenateWhitespace(a + b) == a + HyphenateWhitespace(b)
  {
    if a != [] {
      assert (a + b)[0] == a[0] && (a + b)[1..] == a[1..] + b;
      assert !IsJsWhitespace(a[0]) && NoWhitespace(a[1..]);
      HyphenateConcat(a[1..], b);
      calc {
        HyphenateWhitespace(a + b);
        [a[0]] + HyphenateWhitespace(a[1..] + b);
        [a[0]] + (a[1..] + HyphenateWhitespace(b));
        { assert a == [a[0]] + a[1..]; }
        a + HyphenateWhitespace(b);
      }
    } else {
      assert a + b == b;
    }
  }

  /** A category without whitespace is slugged by lower-casing alone. */
  lemma SlugWithoutWhitespace(category: string)
    requires NoWhitespace(category)
    ensures Slug(category) == LowerAscii(category)
  {
    var lower := LowerAscii(category);
    forall k | 0 <= k < |lower|
      ensures !IsJsWhitespace(lower[k])
    {
      LowerCharKeepsNonWhitespace(category[k]);
    }
    HyphenateNoWhitespace(lower);
  }

  /** Lower-casing never turns a character into whitespace. */
  lemma LowerCharKeepsNonWhitespace(c: char)
    requires !IsJsWhitespace(c)
    ensures !IsJsWhitespace(LowerChar(c))
  {
  }

  /** A run of whitespace, however long, becomes one hyphen: `\s+` takes
      the whole run at once. */
  lemma HyphenateRun(run: seq<char>, rest: seq<char>)
    requires |run| >= 1 && forall k :: 0 <= k < |run| ==> IsJsWhitespace(run[k])
    requires rest == [] || !IsJsWhitespace(rest[0])
    ensures HyphenateWhitespace(run + rest) == "-" + HyphenateWhitespace(rest)
  {
    assert (run + rest)[0] == run[0] && (run + rest)[1..] == run[1..] + rest;
    DropWhitespaceRun(run[1..], rest);
  }

  /** A whitespace run in front of a text that does not start with
      whitespace is dropped entirely. */
  lemma {:induction false} DropWhitespaceRun(run: seq<char>, rest: seq<char>)
    requires forall k :: 0 <= k < |run| ==> IsJsWhitespace(run[k])
    requires rest == [] || !IsJsWhitespace(rest[0])
    ensures DropWhitespace(run + rest) == rest
  {
    if run == [] {
      assert run + rest == rest;
    } else {
      assert (run + rest)[0] == run[0] && (run + rest)[1..] == run[1..] + rest;
      DropWhitespaceRun(run[1..], rest);
    }
  }

  /** Two words separated by a whitespace run are joined by one hyphen. */
  lemma HyphenateWords(first: seq<char>, run: seq<char>, second: seq<char>)
    requires NoWhitespace(first) && NoWhitespace(second) && second != []
    requires |run| >= 1 && forall k :: 0 <= k < |run| ==> IsJsWhitespace(run[k])
    ensures HyphenateWhitespace(first + run + second) == first + "-" + second
  {
    var tail := run + second;
    HyphenateRun(run, second);
    HyphenateNoWhitespace(second);
    assert HyphenateWhitespace(tail) == "-" + second;
    HyphenateConcat(first, tail);
    assert first + run + second == first + tail;
  }

  /** Two words separated by one space are joined by a hyphen. */
  lemma HyphenateTwoWords(first: seq<char>, second: seq<char>)
    requires NoWhitespace(first) && NoWhitespace(second) && second != []
    ensures HyphenateWhitespace(first + [' '] + second) == first + "-" + second
  {
    HyphenateWords(first, [' '], second);
  }

  /** Two spaces between letters give a single hyphen, not two. */
  lemma HyphenateDoubleSpace()
    ensures HyphenateWhitespace("a  b") == "a-b"
  {
    HyphenateWords("a", "  ", "b");
    assert "a" + "  " + "b" == "a  b";
  }

  /** The slugs of the rendered cards, in document order. */
  function CardSlugs(products: seq<Product>): (r: seq<string>)
    ensures |r| == |products|
    ensures forall k :: 0 <= k < |products| ==> r[k] == Slug(products[k].category)
  {
    if products == [] then [] else [Slug(products[0].category)] + CardSlugs(products[1..])
  }

  // ---------------------------------------------------------------------
  // The number of cards shown before "load more"

  /** `getResponsiveCount()`: 4 up to a viewport width of 1024, 6 above it. */
  function ResponsiveCount(width: int): (n: nat)
    ensures n == 4 || n == 6
    ensures n == 4 <==> width <= 1024
  {
    if width <= 1024 then 4 else 6
  }

  /** A wider viewport never shows fewer cards. */
  lemma ResponsiveCountMonotone(w1: int, w2: int)
    requires w1 <= w2
    ensures ResponsiveCount(w1) <= ResponsiveCount(w2)
  {
  }

  // ---------------------------------------------------------------------
  // The selection rule

  predicate Matches(filter: string, slug: string)
  {
    filter == AllFilter || slug == filter
  }

  /** The number of cards matching the filter. */
  function MatchCount(cards: seq<string>, filter: string): nat
  {
    if cards == [] then 0
    else MatchCount(cards[..|cards| - 1], filter) + (if Matches(filter, cards[|cards| - 1]) then 1 else 0)
  }

  /** Card `i` is shown when it matches and, unless everything is visible,
      fewer than `limit` matching cards come before it. */
  predicate Visible(cards: seq<string>, filter: string, allVisible: bool, limit: nat, i: nat)
    requires i < |cards|
  {
    Matches(filter, cards[i]) && (allVisible || MatchCount(cards[..i], filter) < limit)
  }

  function Visibility(cards: seq<string>, filter: string, allVisible: bool, limit: nat): (r: seq<bool>)
    ensures |r| == |cards|
    ensures forall i :: 0 <= i < |cards| ==> r[i] == Visible(cards, filter, allVisible, limit, i)
  {
    seq(|cards|, i requires 0 <= i < |cards| => Visible(cards, filter, allVisible, limit, i))
  }

  /** `updateLoadMoreButton`: the button is wanted when not everything is
      visible and more than `limit` cards match. */
  predicate LoadMoreWanted(cards: seq<string>, filter: string, allVisible: bool, limit: nat)
  {
    !(allVisible || MatchCount(cards, filter) <= limit)
  }

  function CountTrue(s: seq<bool>): nat
  {
    if s == [] then 0 else CountTrue(s[..|s| - 1]) + (if s[|s| - 1] then 1 else 0)
  }

  /** The match count of a prefix never exceeds that of a longer prefix. */
  lemma {:induction false} MatchCountMonotone(cards: seq<string>, filter: string, i: nat, j: nat)
    requires i <= j <= |cards|
    ensures MatchCount(cards[..i], filter) <= MatchCount(cards[..j], filter)
    decreases j - i
  {
    if i < j {
      MatchCountMonotone(cards, filter, i, j - 1);
      assert cards[..j][..j - 1] == cards[..j - 1];
    }
  }

  /** Extending the prefix by card `k` adds one exactly when it matches. */
  lemma MatchCountStep(cards: seq<string>, filter: string, k: nat)
    requires k < |cards|
    ensures MatchCount(cards[..k + 1], filter) ==
      MatchCount(cards[..k], filter) + (if Matches(filter, cards[k]) then 1 else 0)
  {
    assert cards[..k + 1][..k] == cards[..k];
  }

  /** Whether card `i` is shown depends only on the cards up to it. */
  lemma VisibilityPrefix(cards: seq<string>, filter: string, allVisible: bool, limit: nat, n: nat)
    requires n <= |cards|
    ensures Visibility(cards[..n], filter, allVisible, limit) == Visibility(cards, filter, allVisible, limit)[..n]
  {
    forall i | 0 <= i < n
      ensures Visible(cards[..n], filter, allVisible, limit, i) == Visible(cards, filter, allVisible, limit, i)
    {
      assert cards[..n][..i] == cards[..i];
    }
  }

  /** Until everything is visible, exactly `min(limit, #matching)` cards are
      shown. */
  lemma {:induction false} ShownCount(cards: seq<string>, filter: string, limit: nat)
    ensures CountTrue(Visibility(cards, filter, false, limit)) == Min(limit, MatchCount(cards, filter))
  {
    if cards != [] {
      var n := |cards| - 1;
      var vis := Visibility(cards, filter, false, limit);
      VisibilityPrefix(cards, filter, false, limit, n);
      ShownCount(cards[..n], filter, limit);
      assert vis[..|vis| - 1] == Visibility(cards[..n], filter, false, limit);
    }
  }

  /** The cards shown are a leading run of the matching ones: every card
      shown matches, and every matching card before a shown one is shown. */
  lemma ShownAreFirstMatches(cards: seq<string>, filter: string, allVisible: bool, limit: nat, i: nat, j: nat)
    requires i < j < |cards|
    requires Matches(filter, cards[i]) && Visible(cards, filter, allVisible, limit, j)
    ensures Visible(cards, filter, allVisible, limit, i)
  {
    MatchCountMonotone(cards, filter, i, j);
  }

  /** Once everything is visible, the cards shown are exactly the matching
      ones. */
  lemma AllVisibleShowsMatches(cards: seq<string>, filter: string, limit: nat)
    ensures forall i :: 0 <= i < |cards| ==>
      (Visibility(cards, filter, true, limit)[i] <==> Matches(filter, cards[i]))
    ensures CountTrue(Visibility(cards, filter, true, limit)) == MatchCount(cards, filter)
  {
    AllVisibleCount(cards, filter, limit);
  }

  lemma {:induction false} AllVisibleCount(cards: seq<string>, filter: string, limit: nat)
    ensures CountTrue(Visibility(cards, filter, true, limit)) == MatchCount(cards, filter)
  {
    if cards != [] {
      var n := |cards| - 1;
      var vis := Visibility(cards, filter, true, limit);
      VisibilityPrefix(cards, filter, true, limit, n);
      AllVisibleCount(cards[..n], filter, limit);
      assert vis[..|vis| - 1] == Visibility(cards[..n], filter, true, limit);
    }
  }

  /** The load-more button is wanted exactly when some matching card is
      still hidden. */
  lemma {:induction false} LoadMoreIffHiddenMatch(cards: seq<string>, filter: string, allVisible: bool, limit: nat)
    ensures LoadMoreWanted(cards, filter, allVisible, limit) <==>
      exists i :: 0 <= i < |cards| && Matches(filter, cards[i]) && !Visible(cards, filter, allVisible, limit, i)
  {
    if cards != [] {
      var n := |cards| - 1;
      LoadMoreIffHiddenMatch(cards[..n], filter, allVisible, limit);
      forall i | 0 <= i < n
        ensures Visible(cards[..n], filter, allVisible, limit, i) == Visible(cards, filter, allVisible, limit, i)
      {
        assert cards[..n][..i] == cards[..i];
      }
      if exists i :: 0 <= i < |cards| && Matches(filter, cards[i]) && !Visible(cards, filter, allVisible, limit, i) {
        var i :| 0 <= i < |cards| && Matches(filter, cards[i]) && !Visible(cards, filter, allVisible, limit, i);
        MatchCountMonotone(cards, filter, i, n);
        assert cards[..|cards|] == cards;
      }
    }
  }

  // ---------------------------------------------------------------------
  // The ProductManager object

  class ProductManager {
    const products: seq<Product>
    /** Whether the page has the grid element and the load-more button. */
    const hasGrid: bool
    const hasLoadMoreButton: bool

    var initialVisibleCount: nat
    var allProductsVisible: bool
    var currentFilter: string
    /** The rendered cards' slugs and whether each is displayed. */
    var cards: seq<string>
    var shown: seq<bool>
    /** Whether the load-more button is displayed. */
    var loadMoreShown: bool

    predicate Valid()
      reads this
    {
      && |shown| == |cards|
      && (initialVisibleCount == 4 || initialVisibleCount == 6)
      && (!hasLoadMoreButton ==> !allProductsVisible)
    }

    /** The page shows what `applyFilter(filter)` leaves behind. */
    predicate Displays(filter: string)
      reads this
    {
      && shown == Visibility(cards, filter, allProductsVisible, initialVisibleCount)
      && (hasLoadMoreButton ==>
            loadMoreShown == LoadMoreWanted(cards, filter, allProductsVisible, initialVisibleCount))
    }

    /** `new ProductManager(products)` on a viewport `width` wide; no card is
        rendered yet. */
    constructor (products: seq<Product>, width: int, hasGrid: bool, hasLoadMoreButton: bool, loadMoreShown: bool)
      ensures Valid()
      ensures this.products == products && this.hasGrid == hasGrid && this.hasLoadMoreButton == hasLoadMoreButton
      ensures initialVisibleCount == ResponsiveCount(width)
      ensures !allProductsVisible && currentFilter == AllFilter
      ensures cards == [] && shown == [] && this.loadMoreShown == loadMoreShown
    {
      this.products := products;
      this.hasGrid := hasGrid;
      this.hasLoadMoreButton := hasLoadMoreButton;
      initialVisibleCount := ResponsiveCount(width);
      allProductsVisible := false;
      currentFilter := AllFilter;
      cards := [];
      shown := [];
      this.loadMoreShown := loadMoreShown;
    }

    /** `renderProducts()`: draw one card per product and apply the current
        filter; without a grid element nothing happens. */
    method RenderProducts()
      requires Valid()
      modifies this
      ensures Valid()
      ensures initialVisibleCount == old(initialVisibleCount) && allProductsVisible == old(allProductsVisible)
      ensures currentFilter == old(currentFilter)
      ensures hasGrid ==> cards == CardSlugs(products) && Displays(currentFilter)
      ensures !hasGrid ==> cards == old(cards) && shown == old(shown) && loadMoreShown == old(loadMoreShown)
    {
      if hasGrid {
        cards := CardSlugs(products);
        shown := seq(|cards|, _ => false);
        ApplyFilter(currentFilter);
      }
    }

    /** `applyFilter(filter)`: walk the cards in document order, counting the
        ones shown, then update the load-more button. */
    method ApplyFilter(filter: string)
      requires Valid()
      modifies this
      ensures Valid() && Displays(filter)
      ensures forall i :: 0 <= i < |cards| && shown[i] ==> Matches(filter, cards[i])
      ensures cards == old(cards) && initialVisibleCount == old(initialVisibleCount)
      ensures allProductsVisible == old(allProductsVisible) && currentFilter == old(currentFilter)
      ensures !hasLoadMoreButton ==> loadMoreShown == old(loadMoreShown)
    {
      var visibleCount := 0;
      var k := 0;
      while k < |cards|
        invariant 0 <= k <= |cards| && |shown| == |cards|
        invariant cards == old(cards) && initialVisibleCount == old(initialVisibleCount)
        invariant allProductsVisible == old(allProductsVisible) && currentFilter == old(currentFilter)
        invariant loadMoreShown == old(loadMoreShown)
        invariant forall i :: 0 <= i < k ==>
          shown[i] == Visible(cards, filter, allProductsVisible, initialVisibleCount, i)
        invariant visibleCount == if allProductsVisible then MatchCount(cards[..k], filter)
                                  else Min(initialVisibleCount, MatchCount(cards[..k], filter))
      {
        MatchCountStep(cards, filter, k);
        var matches := filter == AllFilter || cards[k] == filter;
        if matches {
          if allProductsVisible || visibleCount < initialVisibleCount {
            shown := shown[k := true];
            visibleCount := visibleCount + 1;
          } else {
            shown := shown[k := false];
          }
        } else {
          shown := shown[k := false];
        }
        k := k + 1;
      }
      UpdateLoadMoreButton(filter);
    }

    /** `updateLoadMoreButton(filter)`: count the matching cards and show the
        button only when some of them are hidden behind the limit. */
    method UpdateLoadMoreButton(filter: string)
      modifies this`loadMoreShown
      ensures hasLoadMoreButton ==>
        loadMoreShown == LoadMoreWanted(cards, filter, allProductsVisible, initialVisibleCount)
      ensures !hasLoadMoreButton ==> loadMoreShown == old(loadMoreShown)
    {
      if hasLoadMoreButton {
        var matching := MatchCount(cards, filter);
        loadMoreShown := !(allProductsVisible || matching <= initialVisibleCount);
      }
    }

    /** A click on a filter button. */
    method OnFilterClick(filter: string)
      requires Valid()
      modifies this
      ensures Valid() && currentFilter == filter && Displays(filter)
      ensures cards == old(cards) && initialVisibleCount == old(initialVisibleCount)
      ensures allProductsVisible == old(allProductsVisible)
    {
      currentFilter := filter;
      ApplyFilter(filter);
    }

    /** A click on the load-more button (its listener exists only when the
        button does): every matching card is shown from now on, and the
        button is hidden. */
    method OnLoadMoreClick()
      requires Valid() && hasLoadMoreButton
      modifies this
      ensures Valid() && allProductsVisible && Displays(currentFilter)
      ensures !loadMoreShown
      ensures forall i :: 0 <= i < |cards| ==> (shown[i] <==> Matches(currentFilter, cards[i]))
      ensures cards == old(cards) && initialVisibleCount == old(initialVisibleCount)
      ensures currentFilter == old(currentFilter)
    {
      allProductsVisible := true;
      ApplyFilter(currentFilter);
      loadMoreShown := false;
    }

    /** `updateResponsiveCount()` after a resize to `width`: the limit changes
        only when the computed count differs, and the grid is re-filtered
        only then and only while not everything is visible. */
    method OnResize(width: int)
      requires Valid()
      modifies this
      ensures Valid()
      ensures initialVisibleCount == ResponsiveCount(width)
      ensures allProductsVisible == old(allProductsVisible) && currentFilter == old(currentFilter)
      ensures cards == old(cards)
      ensures old(initialVisibleCount) != ResponsiveCount(width) && !old(allProductsVisible) ==>
        Displays(currentFilter)
      ensures old(initialVisibleCount) == ResponsiveCount(width) || old(allProductsVisible) ==>
        shown == old(shown) && loadMoreShown == old(loadMoreShown)
    {
      var newCount := ResponsiveCount(width);
      if initialVisibleCount != newCount {
        initialVisibleCount := newCount;
        if !allProductsVisible {
          ApplyFilter(currentFilter);
        }
      }
    }
  }
}
