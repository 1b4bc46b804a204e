/**
 * The favorite cities hook (src/hooks/useFavorites.ts): an ordered list of
 * locations keyed by name, latitude and longitude, loaded from local storage
 * at start and written back whenever the list changes.
 */
module Favorites {
  import opened Config
  import Browser

  /** Two locations denote the same favorite: same name, latitude and
      longitude. Country and region play no part. */
  predicate SameKey(a: Location, b: Location)
  {
    a.name == b.name && a.latitude == b.latitude && a.longitude == b.longitude
  }

  /** `favorites.some(...)`: some entry has the key of `loc`. */
  predicate Exists(favorites: seq<Location>, loc: Location)
  {
    exists i :: 0 <= i < |favorites| && SameKey(favorites[i], loc)
  }

  /** The list after `addFavorite(loc)`. */
  function Added(favorites: seq<Location>, loc: Location): seq<Location>
  {
    if Exists(favorites, loc) then favorites else favorites + [loc]
  }

  /** The list after `removeFavorite(loc)`: the entries without its key, in order. */
  function Removed(favorites: seq<Location>, loc: Location): seq<Location>
  {
    if favorites == [] then []
    else (if SameKey(favorites[0], loc) then [] else [favorites[0]]) + Removed(favorites[1..], loc)
  }

  /** `isFavorite(loc)`, where `None` is `null`. */
  predicate IsFavoriteIn(favorites: seq<Location>, loc: Option<Location>)
  {
    loc.Some? && Exists(favorites, loc.value)
  }

  /** No two entries share a key. */
  predicate NoDuplicateKeys(favorites: seq<Location>)
  {
    forall i, j :: 0 <= i < j < |favorites| ==> !SameKey(favorites[i], favorites[j])
  }

  /** `loadFavoritesFromStorage`: the parsed stored list, or the empty list
      when nothing (or the empty string) is stored or parsing fails. JSON
      parsing is the parameter `parse`. */
  function LoadFavorites(stored: Option<string>, parse: string -> Result<seq<Location>>): (r: seq<Location>)
    ensures stored.None? || stored.value == "" ==> r == []
    ensures stored.Some? && parse(stored.value).Err? ==> r == []
    ensures stored.Some? && stored.value != "" && parse(stored.value).Ok? ==> r == parse(stored.value).value
  {
    if stored.None? || stored.value == "" then []
    else match parse(stored.value)
      case Ok(list) => list
      case Err(_) => []
  }

  /** A list written by a serializer that `parse` undoes, and that never
      writes the empty string, loads back unchanged. */
  lemma SaveThenLoad(favorites: seq<Location>, serialize: seq<Location> -> string,
                     parse: string -> Result<seq<Location>>)
    requires serialize(favorites) != "" && parse(serialize(favorites)) == Ok(favorites)
    ensures LoadFavorites(Some(serialize(favorites)), parse) == favorites
  {
  }

  /** Adding keeps the list when the key is present and otherwise appends
      `loc` at the end; either way the key is then present. */
  lemma AddedMeaning(favorites: seq<Location>, loc: Location)
    ensures Exists(favorites, loc) ==> Added(favorites, loc) == favorites
    ensures !Exists(favorites, loc) ==> Added(favorites, loc) == favorites + [loc]
    ensures favorites <= Added(favorites, loc)
    ensures Exists(Added(favorites, loc), loc)
  {
    if !Exists(favorites, loc) {
      KeyOfMember(favorites + [loc], loc, loc);
    }
  }

  /** An entry survives removal exactly when it is in the list and does not
      have the removed key. */
  lemma {:induction false} RemovedMembers(favorites: seq<Location>, loc: Location)
    ensures forall x :: x in Removed(favorites, loc) <==> x in favorites && !SameKey(x, loc)
  {
    if favorites != [] {
      RemovedMembers(favorites[1..], loc);
      assert favorites == [favorites[0]] + favorites[1..];
    }
  }

  /** Removal filters each part of a list separately, so the survivors keep
      their relative order. */
  lemma {:induction false} RemovedAppend(a: seq<Location>, b: seq<Location>, loc: Location)
    ensures Removed(a + b, loc) == Removed(a, loc) + Removed(b, loc)
  {
    if a == [] {
      assert a + b == b;
    } else {
      assert (a + b)[1..] == a[1..] + b;
      RemovedAppend(a[1..], b, loc);
    }
  }

  /** Removing a key that no entry has changes nothing. */
  lemma {:induction false} RemovedAbsent(favorites: seq<Location>, loc: Location)
    requires !Exists(favorites, loc)
    ensures Removed(favorites, loc) == favorites
  {
    if favorites != [] {
      assert !SameKey(favorites[0], loc);
      assert !Exists(favorites[1..], loc) by {
        forall i | 0 <= i < |favorites[1..]| ensures !SameKey(favorites[1..][i], loc) {
          assert favorites[1..][i] == favorites[i + 1];
        }
      }
      RemovedAbsent(favorites[1..], loc);
    }
  }

  /** Removal never lengthens the list, and in a duplicate-free list it drops
      at most one entry. */
  lemma {:induction false} RemovedLength(favorites: seq<Location>, loc: Location)
    ensures |Removed(favorites, loc)| <= |favorites|
    ensures NoDuplicateKeys(favorites) ==> |favorites| - 1 <= |Removed(favorites, loc)|
  {
    if favorites != [] {
      RemovedLength(favorites[1..], loc);
      if NoDuplicateKeys(favorites) && SameKey(favorites[0], loc) {
        assert !Exists(favorites[1..], loc) by {
          forall i | 0 <= i < |favorites[1..]| ensures !SameKey(favorites[1..][i], loc) {
            assert favorites[1..][i] == favorites[i + 1];
            assert !SameKey(favorites[0], favorites[i + 1]);
          }
        }
        RemovedAbsent(favorites[1..], loc);
      }
    }
  }

  /** Membership in a list is membership by key. */
  lemma KeyOfMember(favorites: seq<Location>, x: Location, loc: Location)
    requires x in favorites && SameKey(x, loc)
    ensures Exists(favorites, loc)
  {
    var i :| 0 <= i < |favorites| && favorites[i] == x;
  }

  /** Adding keeps the list free of duplicate keys. */
  lemma AddedKeepsNoDuplicates(favorites: seq<Location>, loc: Location)
    requires NoDuplicateKeys(favorites)
    ensures NoDuplicateKeys(Added(favorites, loc))
  {
    if !Exists(favorites, loc) {
      var r := favorites + [loc];
      forall i, j | 0 <= i < j < |r| ensures !SameKey(r[i], r[j]) {
        if j == |favorites| {
          assert r[i] == favorites[i];
        }
      }
    }
  }

  /** Removing keeps the list free of duplicate keys. */
  lemma {:induction false} RemovedKeepsNoDuplicates(favorites: seq<Location>, loc: Location)
    requires NoDuplicateKeys(favorites)
    ensures NoDuplicateKeys(Removed(favorites, loc))
  {
    if favorites != [] {
      var tail := favorites[1..];
      assert NoDuplicateKeys(tail) by {
        forall i, j | 0 <= i < j < |tail| ensures !SameKey(tail[i], tail[j]) {
          assert tail[i] == favorites[i + 1] && tail[j] == favorites[j + 1];
        }
      }
      RemovedKeepsNoDuplicates(tail, loc);
      RemovedMembers(tail, loc);
      var rest := Removed(tail, loc);
      if !SameKey(favorites[0], loc) {
        var r := [favorites[0]] + rest;
        forall i, j | 0 <= i < j < |r| ensures !SameKey(r[i], r[j]) {
          if i == 0 {
            assert r[j] == rest[j - 1];
            assert rest[j - 1] in tail;
            var k :| 0 <= k < |tail| && tail[k] == rest[j - 1];
            assert tail[k] == favorites[k + 1];
          } else {
            assert r[i] == rest[i - 1] && r[j] == rest[j - 1];
          }
        }
      }
    }
  }

  /** `isFavorite` after an add is true and after a remove is false;
      `isFavorite(null)` is always false. */
  lemma IsFavoriteAfterUpdates(favorites: seq<Location>, loc: Location)
    ensures IsFavoriteIn(Added(favorites, loc), Some(loc))
    ensures !IsFavoriteIn(Removed(favorites, loc), Some(loc))
    ensures !IsFavoriteIn(favorites, None)
  {
    AddedMeaning(favorites, loc);
    RemovedMembers(favorites, loc);
    if Exists(Removed(favorites, loc), loc) {
      var i :| 0 <= i < |Removed(favorites, loc)| && SameKey(Removed(favorites, loc)[i], loc);
      assert Removed(favorites, loc)[i] in Removed(favorites, loc);
    }
  }

  /** The state of one `useFavorites` hook and what it has written to local
      storage under the favorites key. */
  class FavoritesStore {
    var favorites: seq<Location>
    /** The last list written to storage under `STORAGE_KEY_FAVORITES` since
        the hook mounted, if any. */
    var persisted: Option<seq<Location>>

    /** Storage, once written, holds the current list. */
    ghost predicate Valid()
      reads this
    {
      persisted.None? || persisted.value == favorites
    }

    /** Mounting loads the list stored under `STORAGE_KEY_FAVORITES` without
        writing it back. */
    constructor(storage: Browser.LocalStorage, parse: string -> Result<seq<Location>>)
      ensures Valid()
      ensures favorites == LoadFavorites(storage.GetItem(STORAGE_KEY_FAVORITES), parse) && persisted == None
    {
      favorites := LoadFavorites(storage.GetItem(STORAGE_KEY_FAVORITES), parse);
      persisted := None;
    }

    /** `addFavorite`. When the key is present the state keeps the same list,
        so no write happens; otherwise the extended list is written. */
    method Add(loc: Location)
      requires Valid()
      modifies this
      ensures Valid()
      ensures favorites == Added(old(favorites), loc)
      ensures Exists(old(favorites), loc) ==> persisted == old(persisted)
      ensures !Exists(old(favorites), loc) ==> persisted == Some(favorites)
    {
      if !Exists(favorites, loc) {
        favorites := favorites + [loc];
        persisted := Some(favorites);
      }
    }

    /** `removeFavorite`. Filtering always yields a new list, so the result is
        written even when nothing was removed. */
    method Remove(loc: Location)
      requires Valid()
      modifies this
      ensures Valid()
      ensures favorites == Removed(old(favorites), loc)
      ensures persisted == Some(favorites)
    {
      favorites := Removed(favorites, loc);
      persisted := Some(favorites);
    }

    /** `isFavorite`: false for `null`, otherwise whether some entry has the
        key of `loc`, whatever its country and region. */
    predicate IsFavorite(loc: Option<Location>)
      reads this
      ensures IsFavorite(loc) <==> loc.Some? && exists i :: 0 <= i < |favorites| && SameKey(favorites[i], loc.value)
      ensures forall x :: x in favorites && loc.Some? && SameKey(x, loc.value) ==> IsFavorite(loc)
    {
      IsFavoriteIn(favorites, loc)
    }
  }
}
