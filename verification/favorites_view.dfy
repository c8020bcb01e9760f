/**
 * The favorites screen: the row of category buttons, each with a count
 * badge, and the cards shown for the selected category.
 */
module FavoritesView {
  import opened Sequences
  import opened Favorites

  /** The label of the button that shows every favorite. */
  const AllLabel := "All"

  /**
   * Position of the first favorite in `category`, or `|favs|` when there is none.
   */
  function FirstWith(favs: seq<FavoriteWord>, category: string): (i: int)
    ensures 0 <= i <= |favs|
    ensures i < |favs| ==> favs[i].category == category
    ensures forall j | 0 <= j < i :: favs[j].category != category
  {
    if favs == [] then 0
    else if favs[0].category == category then 0
    else 1 + FirstWith(favs[1..], category)
  }

  /** The categories of `favs`, each once, in the order they first appear. */
  function DistinctCategories(favs: seq<FavoriteWord>): (r: seq<string>)
    ensures Distinct(r)
    ensures forall c :: c in r <==> FirstWith(favs, c) < |favs|
    decreases |favs|
  {
    if favs == [] then []
    else
      var n := |favs| - 1;
      var x := favs[n];
      var front := DistinctCategories(favs[..n]);
      FirstWithSnoc(favs[..n], x);
      assert favs[..n] + [x] == favs;
      if x.category in front then front else front + [x.category]
  }

  /** Appending a favorite leaves every earlier first position alone. */
  lemma FirstWithSnoc(favs: seq<FavoriteWord>, x: FavoriteWord)
    ensures forall c | FirstWith(favs, c) < |favs| :: FirstWith(favs + [x], c) == FirstWith(favs, c)
    ensures forall c | FirstWith(favs, c) == |favs| ::
      FirstWith(favs + [x], c) == if x.category == c then |favs| else |favs| + 1
  {
    var s := favs + [x];
    forall c ensures FirstWith(favs, c) < |favs| ==> FirstWith(s, c) == FirstWith(favs, c)
                 ensures FirstWith(favs, c) == |favs| ==> FirstWith(s, c) == if x.category == c then |favs| else |favs| + 1
    {
      var i := FirstWith(favs, c);
      var i' := FirstWith(s, c);
      if i < |favs| {
        assert s[i] == favs[i];
      } else {
        assert s[|favs|] == x;
      }
    }
  }

  /** `['All', ...Array.from(new Set(favorites.map(fav => fav.category)))]` */
  function Categories(favs: seq<FavoriteWord>): (r: seq<string>)
    ensures |r| >= 1 && r[0] == AllLabel
    ensures Distinct(r[1..])
    ensures forall f | f in favs :: f.category in r[1..]
    ensures forall c | c in r[1..] :: exists f | f in favs :: f.category == c
  {
    var d := DistinctCategories(favs);
    forall f | f in favs ensures f.category in d {
      var k :| 0 <= k < |favs| && favs[k] == f;
    }
    [AllLabel] + d
  }

  /** The cards shown for the selected button. */
  function Filtered(favs: seq<FavoriteWord>, selected: string): (r: seq<FavoriteWord>)
    ensures forall f :: f in r <==> f in favs && (selected == AllLabel || f.category == selected)
    ensures IsSubsequence(r, favs)
  {
    if selected == AllLabel then
      assert Embeds(seq(|favs|, i => i), favs, favs);
      favs
    else ByCategory(favs, selected)
  }

  /** The count badge on the button for `category`. */
  function CountShown(favs: seq<FavoriteWord>, category: string): (n: int)
    ensures n == |Filtered(favs, category)|
  {
    if category == AllLabel then |favs| else |ByCategory(favs, category)|
  }

  // ---------------------------------------------------------------------------
  // Badges of the category buttons add up to the "All" badge
  // ---------------------------------------------------------------------------

  /** Sum of the badges of the buttons in `cats`, each `CountShown` as rendered. */
  function SumBadges(favs: seq<FavoriteWord>, cats: seq<string>): int
  {
    if cats == [] then 0
    else SumBadges(favs, cats[..|cats| - 1]) + CountShown(favs, cats[|cats| - 1])
  }

  /**
   * Sum of the category filter counts of `cats`. It equals `SumBadges` when
   * no label in `cats` is "All".
   */
  function SumCounts(favs: seq<FavoriteWord>, cats: seq<string>): int
  {
    if cats == [] then 0
    else SumCounts(favs, cats[..|cats| - 1]) + |ByCategory(favs, cats[|cats| - 1])|
  }

  /** How often `c` occurs in `cats`. */
  function Occurrences(cats: seq<string>, c: string): int
  {
    if cats == [] then 0
    else Occurrences(cats[..|cats| - 1], c) + (if cats[|cats| - 1] == c then 1 else 0)
  }

  lemma {:induction false} OccurrencesInDistinct(cats: seq<string>, c: string)
    requires Distinct(cats)
    ensures Occurrences(cats, c) == if c in cats then 1 else 0
    decreases |cats|
  {
    if cats != [] {
      var n := |cats| - 1;
      assert cats == cats[..n] + [cats[n]];
      OccurrencesInDistinct(cats[..n], c);
    }
  }

  /** One more favorite raises the badge of every button labelled with its category by one. */
  lemma {:induction false} SumCountsSnoc(favs: seq<FavoriteWord>, x: FavoriteWord, cats: seq<string>)
    ensures SumCounts(favs + [x], cats) == SumCounts(favs, cats) + Occurrences(cats, x.category)
    decreases |cats|
  {
    if cats != [] {
      var n := |cats| - 1;
      SumCountsSnoc(favs, x, cats[..n]);
      assert (favs + [x])[..|favs|] == favs;
    }
  }

  lemma SumCountsOfAbsent(favs: seq<FavoriteWord>, cats: seq<string>, c: string)
    requires FirstWith(favs, c) == |favs|
    ensures SumCounts(favs, cats + [c]) == SumCounts(favs, cats)
  {
    assert (cats + [c])[..|cats|] == cats;
    NoMemberMeansEmpty(ByCategory(favs, c));
  }

  /** Every favorite is counted under exactly one of the distinct categories. */
  lemma {:induction false} DistinctCategoryCounts(favs: seq<FavoriteWord>)
    ensures SumCounts(favs, DistinctCategories(favs)) == |favs|
    decreases |favs|
  {
    if favs != [] {
      var n := |favs| - 1;
      var p := favs[..n];
      var x := favs[n];
      assert favs == p + [x];
      var d := DistinctCategories(p);
      var d' := DistinctCategories(favs);
      DistinctCategoryCounts(p);
      SumCountsSnoc(p, x, d');
      OccurrencesInDistinct(d', x.category);
      if x.category in d {
        assert d' == d;
      } else {
        assert d' == d + [x.category];
        SumCountsOfAbsent(p, d, x.category);
      }
    }
  }

  /** Away from the "All" label, a badge is the category's filter count. */
  lemma {:induction false} BadgesAreFilterCounts(favs: seq<FavoriteWord>, cats: seq<string>)
    requires AllLabel !in cats
    ensures SumBadges(favs, cats) == SumCounts(favs, cats)
    decreases |cats|
  {
    if cats != [] {
      var n := |cats| - 1;
      assert cats[n] in cats;
      assert forall c | c in cats[..n] :: c in cats;
      BadgesAreFilterCounts(favs, cats[..n]);
    }
  }

  /**
   * When no favorite is filed under the category "All", the badges of the
   * category buttons after "All" add up to the badge on "All".
   */
  lemma CountsSumToTotal(favs: seq<FavoriteWord>)
    requires forall f | f in favs :: f.category != AllLabel
    ensures SumBadges(favs, Categories(favs)[1..]) == CountShown(favs, AllLabel)
  {
    var d := DistinctCategories(favs);
    assert Categories(favs)[1..] == d;
    forall c | c in d ensures c != AllLabel {
      assert favs[FirstWith(favs, c)] in favs;
    }
    BadgesAreFilterCounts(favs, d);
    DistinctCategoryCounts(favs);
  }

  /**
   * A favorite filed under "All" gets a second "All" button, whose badge is
   * also the number of all favorites, so the badges after the first button
   * add up to more than the total.
   */
  lemma AllCategoryBadgesOvercount(a: FavoriteWord, b: FavoriteWord)
    requires a.category == AllLabel != b.category
    ensures var cats := Categories([a, b])[1..];
      cats == [AllLabel, b.category] && SumBadges([a, b], cats) == 3 && CountShown([a, b], AllLabel) == 2
  {
    var favs := [a, b];
    var cats := Categories(favs)[1..];
    TwoCategories(a, b);
    assert cats == DistinctCategories(favs);
    TwoBadges(favs, a.category, b.category);
    assert CountShown(favs, a.category) == 2;
    OnlyLastInCategory(a, b);
  }

  lemma OnlyLastInCategory(a: FavoriteWord, b: FavoriteWord)
    requires a.category != b.category && b.category != AllLabel
    ensures CountShown([a, b], b.category) == 1
  {
    assert [a, b][..1] == [a] && [a][..0] == [];
    assert ByCategory([a], b.category) == [];
  }

  lemma TwoCategories(a: FavoriteWord, b: FavoriteWord)
    requires a.category != b.category
    ensures DistinctCategories([a, b]) == [a.category, b.category]
  {
    var favs := [a, b];
    assert favs[..1] == [a] && [a][..0] == [];
    assert DistinctCategories([a]) == [a.category];
    assert favs[1] == b && b.category !in [a.category];
  }

  lemma TwoBadges(favs: seq<FavoriteWord>, c: string, c': string)
    ensures SumBadges(favs, [c, c']) == CountShown(favs, c) + CountShown(favs, c')
  {
    var cats := [c, c'];
    assert cats[..1] == [c] && [c][..0] == [];
    assert SumBadges(favs, [c]) == CountShown(favs, c);
    assert cats[1] == c';
  }

  /** `cats` lists categories in the order of their first favorite in `favs`. */
  ghost predicate InFirstAppearanceOrder(favs: seq<FavoriteWord>, cats: seq<string>)
  {
    forall i, j | 0 <= i < j < |cats| :: FirstWith(favs, cats[i]) < FirstWith(favs, cats[j])
  }

  lemma OrderSnoc(p: seq<FavoriteWord>, x: FavoriteWord)
    requires InFirstAppearanceOrder(p, DistinctCategories(p))
    ensures InFirstAppearanceOrder(p + [x], DistinctCategories(p + [x]))
  {
    var s := p + [x];
    assert s[..|p|] == p;
    FirstWithSnoc(p, x);
    var d := DistinctCategories(p);
    if x.category in d {
      assert DistinctCategories(s) == d;
      forall i, j | 0 <= i < j < |d| ensures FirstWith(s, d[i]) < FirstWith(s, d[j]) {
        assert d[i] in d && d[j] in d;
      }
    } else {
      var d' := d + [x.category];
      assert DistinctCategories(s) == d';
      forall i, j | 0 <= i < j < |d'| ensures FirstWith(s, d'[i]) < FirstWith(s, d'[j]) {
        assert d'[i] == d[i] && d[i] in d;
        if j < |d| {
          assert d'[j] == d[j] && d[j] in d;
        }
      }
    }
  }

  /** The categories appear in the order of their first favorite. */
  lemma {:induction false} CategoriesInFirstAppearanceOrder(favs: seq<FavoriteWord>)
    ensures InFirstAppearanceOrder(favs, DistinctCategories(favs))
    decreases |favs|
  {
    if favs != [] {
      var n := |favs| - 1;
      assert favs == favs[..n] + [favs[n]];
      CategoriesInFirstAppearanceOrder(favs[..n]);
      OrderSnoc(favs[..n], favs[n]);
    }
  }
}
