/**
 * The favourites hook: a list of coin ids held in component state and mirrored into
 * the browser's key-value store under one fixed key.
 */
module Favorites {
  import opened Optional
  import opened Sequences

  const StorageKey := "crypto-pixzl-favorites"

  /**
   * The browser's key-value store, holding id lists directly: the JSON text it really
   * stores is the list's encoding and is not modelled.
   */
  class LocalStorage {
    var items: map<string, seq<string>>

    constructor (initial: map<string, seq<string>>)
      ensures items == initial
    {
      items := initial;
    }

    method GetItem(key: string) returns (r: Option<seq<string>>)
      ensures key in items ==> r == Some(items[key])
      ensures key !in items ==> r == None
    {
      if key in items {
        r := Some(items[key]);
      } else {
        r := None;
      }
    }

    method SetItem(key: string, value: seq<string>)
      modifies this
      ensures items == old(items)[key := value]
    {
      items := items[key := value];
    }
  }

  function Other(coinId: string): string -> bool {
    (id: string) => id != coinId
  }

  /**
   * The new list `toggleFavorite` computes: a present id is removed everywhere it occurs,
   * an absent one is appended at the end.
   */
  function Toggled(favorites: seq<string>, coinId: string): (r: seq<string>)
    ensures coinId in r <==> coinId !in favorites
    ensures forall id :: id != coinId ==> (id in r <==> id in favorites)
    ensures coinId !in favorites ==> |r| == |favorites| + 1 && r[..|favorites|] == favorites && r[|favorites|] == coinId
    ensures coinId in favorites ==> IsSubsequence(r, favorites) && |r| < |favorites|
    ensures coinId in favorites ==> multiset(r) == multiset(favorites)[coinId := 0]
  {
    if coinId in favorites then
      FilterIsSubsequence(favorites, Other(coinId));
      FilterMembers(favorites, Other(coinId));
      FilterCounts(favorites, Other(coinId));
      assert multiset(Filter(favorites, Other(coinId))) == multiset(favorites)[coinId := 0];
      FilterShrinks(favorites, coinId);
      Filter(favorites, Other(coinId))
    else favorites + [coinId]
  }

  /** Removing an id that occurs makes the list shorter. */
  lemma {:induction false} FilterShrinks(s: seq<string>, coinId: string)
    requires coinId in s
    ensures |Filter(s, Other(coinId))| < |s|
  {
    if s[0] != coinId {
      FilterShrinks(s[1..], coinId);
    }
  }

  /** Removing an id that occurs once shortens the list by exactly one. */
  lemma {:induction false} RemoveOnce(s: seq<string>, coinId: string)
    requires NoDuplicates(s) && coinId in s
    ensures |Toggled(s, coinId)| == |s| - 1
  {
    if s[0] == coinId {
      assert coinId !in s[1..];
      FilterKeepsAll(s[1..], Other(coinId));
    } else {
      assert NoDuplicates(s[1..]);
      RemoveOnce(s[1..], coinId);
    }
  }

  /** Adding an absent id and removing it again gives back the list. */
  lemma ToggleTwiceAbsent(favorites: seq<string>, coinId: string)
    requires coinId !in favorites
    ensures Toggled(Toggled(favorites, coinId), coinId) == favorites
  {
    var once := Toggled(favorites, coinId);
    assert once == favorites + [coinId];
    assert Toggled(once, coinId) == Filter(favorites + [coinId], Other(coinId));
    FilterAppend(favorites, [coinId], Other(coinId));
    FilterKeepsAll(favorites, Other(coinId));
    FilterDropsAll([coinId], Other(coinId));
    assert favorites + [] == favorites;
  }

  /** Removing a present id and adding it again moves it to the end. */
  lemma ToggleTwicePresent(favorites: seq<string>, coinId: string)
    requires coinId in favorites
    ensures Toggled(Toggled(favorites, coinId), coinId) == Filter(favorites, Other(coinId)) + [coinId]
  {
    var once := Toggled(favorites, coinId);
    assert once == Filter(favorites, Other(coinId));
    assert coinId !in once;
  }

  /**
   * Toggling twice restores membership: an absent id leaves the list exactly as it was,
   * a present one ends up moved to the end.
   */
  lemma ToggleTwice(favorites: seq<string>, coinId: string)
    ensures forall id :: id in Toggled(Toggled(favorites, coinId), coinId) <==> id in favorites
    ensures coinId !in favorites ==> Toggled(Toggled(favorites, coinId), coinId) == favorites
    ensures coinId in favorites ==>
      Toggled(Toggled(favorites, coinId), coinId) == Filter(favorites, Other(coinId)) + [coinId]
  {
    if coinId !in favorites {
      ToggleTwiceAbsent(favorites, coinId);
    } else {
      ToggleTwicePresent(favorites, coinId);
      FilterMembers(favorites, Other(coinId));
    }
  }

  /** A list without repeats keeps that shape under a toggle. */
  lemma ToggleKeepsNoDuplicates(favorites: seq<string>, coinId: string)
    requires NoDuplicates(favorites)
    ensures NoDuplicates(Toggled(favorites, coinId))
  {
    if coinId in favorites {
      FilterKeepsNoDuplicates(favorites, Other(coinId));
    } else {
      var r := favorites + [coinId];
      forall i, j | 0 <= i < j < |r|
        ensures r[i] != r[j]
      {
        if j == |favorites| {
          assert r[i] == favorites[i];
        }
      }
    }
  }

  /** The hook's state: the list, and the store it mirrors the list into. */
  class FavoritesHook {
    var favorites: seq<string>
    const storage: LocalStorage

    /** The stored list is the list in memory. */
    predicate Mirrored()
      reads this, storage
    {
      StorageKey in storage.items && storage.items[StorageKey] == favorites
    }

    /** The list starts empty; the store is not read yet. */
    constructor (storage: LocalStorage)
      ensures favorites == [] && this.storage == storage
    {
      favorites := [];
      this.storage := storage;
    }

    /** The mount effect: a saved list replaces the current one, a missing key changes nothing. */
    method LoadSaved()
      modifies this
      ensures StorageKey in storage.items ==> favorites == storage.items[StorageKey] && Mirrored()
      ensures StorageKey !in storage.items ==> favorites == old(favorites)
    {
      var saved := storage.GetItem(StorageKey);
      if saved.Some? {
        favorites := saved.value;
      }
    }

    /** `toggleFavorite`: computes the new list, stores it in state and writes it to the store. */
    method ToggleFavorite(coinId: string)
      modifies this, storage
      ensures favorites == Toggled(old(favorites), coinId)
      ensures storage.items == old(storage.items)[StorageKey := favorites]
      ensures Mirrored()
    {
      var newFavorites := Toggled(favorites, coinId);
      favorites := newFavorites;
      storage.SetItem(StorageKey, newFavorites);
    }
  }
}
