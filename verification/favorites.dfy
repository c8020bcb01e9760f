/**
 * The favorites store: a list of favorited words with unique identifiers.
 * Adding an identifier already present changes nothing; removing works by
 * filtering; toggling does whichever of the two applies.
 *
 * The timestamp `Date.now()` assigned on insertion is a parameter `now`.
 */
module Favorites {
  import opened Sequences

  /** A favorite as the caller supplies it, without its insertion time. */
  datatype WordInput = WordInput(id: string, english: string, chinese: string, pronunciation: string, category: string)

  datatype FavoriteWord = FavoriteWord(
    id: string,
    english: string,
    chinese: string,
    pronunciation: string,
    category: string,
    addedAt: int)

  /** The word a favorite was made from: every field but `addedAt`. */
  function Unstamped(f: FavoriteWord): WordInput
  {
    WordInput(f.id, f.english, f.chinese, f.pronunciation, f.category)
  }

  /** `{ ...word, addedAt: now }` */
  function Stamped(w: WordInput, now: int): (f: FavoriteWord)
    ensures Unstamped(f) == w && f.addedAt == now
  {
    FavoriteWord(w.id, w.english, w.chinese, w.pronunciation, w.category, now)
  }

  /** `favorites.some(fav => fav.id === id)` */
  function HasId(favs: seq<FavoriteWord>, id: string): (b: bool)
    ensures b <==> exists i | 0 <= i < |favs| :: favs[i].id == id
  {
    if favs == [] then false
    else favs[0].id == id || HasId(favs[1..], id)
  }

  /** Appending an entry adds exactly its identifier. */
  lemma HasIdSnoc(favs: seq<FavoriteWord>, x: FavoriteWord)
    ensures forall id :: HasId(favs + [x], id) <==> HasId(favs, id) || x.id == id
  {
    forall id ensures HasId(favs + [x], id) <==> HasId(favs, id) || x.id == id {
      if HasId(favs, id) {
        var i :| 0 <= i < |favs| && favs[i].id == id;
        assert (favs + [x])[i] == favs[i];
      }
      if x.id == id {
        assert (favs + [x])[|favs|] == x;
      }
      if HasId(favs + [x], id) {
        var i :| 0 <= i < |favs + [x]| && (favs + [x])[i].id == id;
        if i < |favs| {
          assert (favs + [x])[i] == favs[i];
        }
      }
    }
  }

  /** No two entries share an identifier. */
  ghost predicate UniqueIds(favs: seq<FavoriteWord>)
  {
    forall i, j | 0 <= i < j < |favs| :: favs[i].id != favs[j].id
  }

  /** `prev.filter(fav => fav.id !== id)` */
  function WithoutId(favs: seq<FavoriteWord>, id: string): (r: seq<FavoriteWord>)
    ensures forall f :: f in r <==> f in favs && f.id != id
    ensures IsSubsequence(r, favs)
    decreases |favs|
  {
    if favs == [] then EmptyIsSubsequence(favs); []
    else
      var n := |favs| - 1;
      var x := favs[n];
      var kept := WithoutId(favs[..n], id);
      assert favs == favs[..n] + [x];
      SubsequenceSnocIf(kept, favs[..n], x, x.id != id);
      kept + (if x.id != id then [x] else [])
  }

  /** `favorites.filter(fav => fav.category === category)` */
  function ByCategory(favs: seq<FavoriteWord>, category: string): (r: seq<FavoriteWord>)
    ensures forall f :: f in r <==> f in favs && f.category == category
    ensures IsSubsequence(r, favs)
    decreases |favs|
  {
    if favs == [] then EmptyIsSubsequence(favs); []
    else
      var n := |favs| - 1;
      var x := favs[n];
      var kept := ByCategory(favs[..n], category);
      assert favs == favs[..n] + [x];
      SubsequenceSnocIf(kept, favs[..n], x, x.category == category);
      kept + (if x.category == category then [x] else [])
  }

  /** The updater passed to `setFavorites` by `addFavorite`. */
  function WithAdded(favs: seq<FavoriteWord>, w: WordInput, now: int): (r: seq<FavoriteWord>)
    ensures forall id :: HasId(r, id) <==> HasId(favs, id) || id == w.id
    ensures HasId(favs, w.id) ==> r == favs
    ensures !HasId(favs, w.id) ==> |r| == |favs| + 1 && r[..|favs|] == favs && r[|favs|] == Stamped(w, now)
  {
    HasIdSnoc(favs, Stamped(w, now));
    if HasId(favs, w.id) then favs else favs + [Stamped(w, now)]
  }

  /** `toggleFavorite`: remove when present, add when absent. */
  function Toggled(favs: seq<FavoriteWord>, w: WordInput, now: int): (r: seq<FavoriteWord>)
    ensures HasId(r, w.id) <==> !HasId(favs, w.id)
    ensures forall id | id != w.id :: HasId(r, id) <==> HasId(favs, id)
  {
    if HasId(favs, w.id) then WithoutId(favs, w.id) else WithAdded(favs, w, now)
  }

  // ---------------------------------------------------------------------------
  // Lemmas
  // ---------------------------------------------------------------------------

  /** Adding the same identifier again keeps the first entry, and its `addedAt`. */
  lemma AddIsIdempotent(favs: seq<FavoriteWord>, w: WordInput, first: int, second: int)
    ensures WithAdded(WithAdded(favs, w, first), w, second) == WithAdded(favs, w, first)
  {
  }

  lemma {:induction false} RemoveAbsentIsNoop(favs: seq<FavoriteWord>, id: string)
    requires !HasId(favs, id)
    ensures WithoutId(favs, id) == favs
    decreases |favs|
  {
    if favs != [] {
      var n := |favs| - 1;
      assert favs == favs[..n] + [favs[n]];
      assert !HasId(favs[..n], id) by {
        forall i | 0 <= i < n ensures favs[..n][i].id != id {
          assert favs[..n][i] == favs[i];
        }
      }
      RemoveAbsentIsNoop(favs[..n], id);
    }
  }

  /** In a list with unique identifiers, removing a present identifier takes out exactly its one entry. */
  lemma {:induction false} RemovePresent(favs: seq<FavoriteWord>, k: int)
    requires UniqueIds(favs) && 0 <= k < |favs|
    ensures WithoutId(favs, favs[k].id) == favs[..k] + favs[k + 1..]
    decreases |favs|
  {
    var n := |favs| - 1;
    var x := favs[n];
    assert favs == favs[..n] + [x];
    var id := favs[k].id;
    assert WithoutId(favs, id) == WithoutId(favs[..n], id) + (if x.id != id then [x] else []);
    if k == n {
      PrefixLacksId(favs, n, n);
      RemoveAbsentIsNoop(favs[..n], id);
      assert favs[..k] + favs[k + 1..] == favs[..n];
    } else {
      UniquePrefix(favs, n);
      var front := favs[..n];
      assert front[k] == favs[k];
      RemovePresent(front, k);
      assert x.id != id;
      DropBeforeLast(favs, k);
    }
  }

  lemma UniquePrefix(favs: seq<FavoriteWord>, n: int)
    requires UniqueIds(favs) && 0 <= n <= |favs|
    ensures UniqueIds(favs[..n])
  {
  }

  /** With unique identifiers, the first `n` entries do not hold the identifier of entry `k >= n`. */
  lemma PrefixLacksId(favs: seq<FavoriteWord>, n: int, k: int)
    requires UniqueIds(favs) && 0 <= n <= k < |favs|
    ensures !HasId(favs[..n], favs[k].id)
  {
    forall i | 0 <= i < n ensures favs[..n][i].id != favs[k].id {
      assert favs[..n][i] == favs[i];
    }
  }

  lemma {:induction false} RemoveKeepsUnique(favs: seq<FavoriteWord>, id: string)
    requires UniqueIds(favs)
    ensures UniqueIds(WithoutId(favs, id))
    decreases |favs|
  {
    if favs != [] {
      var n := |favs| - 1;
      var x := favs[n];
      var kept := WithoutId(favs[..n], id);
      assert favs == favs[..n] + [x];
      RemoveKeepsUnique(favs[..n], id);
      if x.id != id {
        forall f | f in kept ensures f.id != x.id {
          var i :| 0 <= i < n && favs[i] == f;
        }
        assert WithoutId(favs, id) == kept + [x];
      }
    }
  }

  lemma AddKeepsUnique(favs: seq<FavoriteWord>, w: WordInput, now: int)
    requires UniqueIds(favs)
    ensures UniqueIds(WithAdded(favs, w, now))
  {
  }

  /** Adding a new word and removing it again gives back the list; with the empty list this is the add-then-remove scenario. */
  lemma AddThenRemove(favs: seq<FavoriteWord>, w: WordInput, now: int)
    requires !HasId(favs, w.id)
    ensures WithoutId(WithAdded(favs, w, now), w.id) == favs
    ensures !HasId(WithoutId(WithAdded(favs, w, now), w.id), w.id)
  {
    var added := favs + [Stamped(w, now)];
    assert added[..|favs|] == favs;
    RemoveAbsentIsNoop(favs, w.id);
  }

  /** Two toggles of an absent word give back exactly the list. */
  lemma ToggleTwiceAbsent(favs: seq<FavoriteWord>, w: WordInput, first: int, second: int)
    requires !HasId(favs, w.id)
    ensures Toggled(Toggled(favs, w, first), w, second) == favs
  {
    AddThenRemove(favs, w, first);
  }

  /**
   * Two toggles of a present word restore membership and length; the word
   * comes back at the end with the second timestamp.
   */
  lemma ToggleTwicePresent(favs: seq<FavoriteWord>, w: WordInput, first: int, second: int)
    requires UniqueIds(favs) && HasId(favs, w.id)
    ensures var r := Toggled(Toggled(favs, w, first), w, second);
      && |r| == |favs|
      && (forall id :: HasId(r, id) <==> HasId(favs, id))
      && r == WithoutId(favs, w.id) + [Stamped(w, second)]
  {
    var k :| 0 <= k < |favs| && favs[k].id == w.id;
    var once := Toggled(favs, w, first);
    assert once == WithoutId(favs, w.id);
    RemovePresent(favs, k);
    assert |once| == |favs| - 1;
    var twice := once + [Stamped(w, second)];
    assert Toggled(once, w, second) == twice;
    HasIdSnoc(once, Stamped(w, second));
    forall id ensures HasId(twice, id) <==> HasId(favs, id) {
      if id != w.id {
        assert HasId(once, id) <==> HasId(favs, id);
      }
    }
  }

  // ---------------------------------------------------------------------------
  // The hook's state, updated in place
  // ---------------------------------------------------------------------------

  class FavoritesStore {
    var favorites: seq<FavoriteWord>

    ghost predicate Valid()
      reads this
    {
      UniqueIds(favorites)
    }

    constructor ()
      ensures Valid() && favorites == []
    {
      favorites := [];
    }

    method AddFavorite(word: WordInput, now: int)
      requires Valid()
      modifies this
      ensures Valid()
      ensures favorites == WithAdded(old(favorites), word, now)
    {
      AddKeepsUnique(favorites, word, now);
      if HasId(favorites, word.id) {
        return;
      }
      favorites := favorites + [Stamped(word, now)];
    }

    method RemoveFavorite(id: string)
      requires Valid()
      modifies this
      ensures Valid()
      ensures favorites == WithoutId(old(favorites), id)
    {
      RemoveKeepsUnique(favorites, id);
      favorites := WithoutId(favorites, id);
    }

    function IsFavorite(id: string): (b: bool)
      reads this
      ensures b <==> exists f | f in favorites :: f.id == id
    {
      HasId(favorites, id)
    }

    function GetFavoritesByCategory(category: string): (r: seq<FavoriteWord>)
      reads this
      ensures forall f :: f in r <==> f in favorites && f.category == category
      ensures IsSubsequence(r, favorites)
    {
      ByCategory(favorites, category)
    }

    method ClearAllFavorites()
      modifies this
      ensures Valid() && favorites == []
    {
      favorites := [];
    }

    method ToggleFavorite(word: WordInput, now: int)
      requires Valid()
      modifies this
      ensures Valid()
      ensures favorites == Toggled(old(favorites), word, now)
    {
      if IsFavorite(word.id) {
        RemoveFavorite(word.id);
      } else {
        AddFavorite(word, now);
      }
    }
  }
}
