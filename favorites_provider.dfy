/**
 * The favorites set: the product ids the shopper has starred, kept without
 * repetition in insertion order, stored in local storage under "favorites",
 * and joined against the catalog for display.
 */
module FavoritesProvider {
  import opened Wrappers
  import opened Lists
  import opened Catalog

  type Store = map<string, string>

  const FavoritesKey: string := "favorites"

  /** The load effect throws when the stored text does not parse. */
  datatype LoadError = ParseError

  /**
   * The mount effect: a non-empty "favorites" value becomes the list (or the
   * effect throws when it does not parse, `parse` standing for `JSON.parse`);
   * without one the list stays as it started, empty.
   */
  function LoadFavorites(store: Store, parse: string -> Option<seq<string>>): (r: Result<seq<string>, LoadError>)
    ensures (FavoritesKey !in store || store[FavoritesKey] == "") ==> r == Ok([])
    ensures FavoritesKey in store && store[FavoritesKey] != "" ==>
              (r.Ok? <==> parse(store[FavoritesKey]).Some?)
    ensures r.Ok? && FavoritesKey in store && store[FavoritesKey] != "" ==>
              r.value == parse(store[FavoritesKey]).value
  {
    if FavoritesKey in store && store[FavoritesKey] != "" then
      match parse(store[FavoritesKey])
      case Some(ids) => Ok(ids)
      case None => Err(ParseError)
    else Ok([])
  }

  /** The save effect: "favorites" holds the serialised list, other keys stay. */
  function SaveFavorites(store: Store, favorites: seq<string>, serialize: seq<string> -> string): (r: Store)
    ensures FavoritesKey in r && r[FavoritesKey] == serialize(favorites)
    ensures forall k :: k in store && k != FavoritesKey ==> k in r && r[k] == store[k]
  {
    store[FavoritesKey := serialize(favorites)]
  }

  /** Saving and loading again gives the same list back, when the encoding round-trips. */
  lemma FavoritesStorageRoundTrip(store: Store, favorites: seq<string>,
                                  serialize: seq<string> -> string, parse: string -> Option<seq<string>>)
    requires serialize(favorites) != "" && parse(serialize(favorites)) == Some(favorites)
    ensures LoadFavorites(SaveFavorites(store, favorites, serialize), parse) == Ok(favorites)
  {
  }

  /** The list `addToFavorites(id)` produces: unchanged if present, else `[...favorites, id]`. */
  function AddedFavorite(favorites: seq<string>, id: string): (r: seq<string>)
    ensures IsFavorite(r, id)
    ensures |favorites| <= |r| <= |favorites| + 1 && r[..|favorites|] == favorites
  {
    if id in favorites then favorites else favorites + [id]
  }

  /** The list `removeFromFavorites(id)` produces: `favorites.filter(x => x !== id)`. */
  function RemovedFavorite(favorites: seq<string>, id: string): (r: seq<string>)
    ensures !IsFavorite(r, id)
    ensures forall x :: x in r <==> x in favorites && x != id
  {
    Filter(favorites, (x: string) => x != id)
  }

  /** `isFavorite(id)`: `favorites.includes(id)`. */
  predicate IsFavorite(favorites: seq<string>, id: string)
  {
    id in favorites
  }

  /** `favoriteItems`: `products.filter(p => favorites.includes(p.id))`. */
  function FavoriteItems(products: seq<Product>, favorites: seq<string>): (r: seq<Product>)
    ensures forall p :: p in r <==> p in products && IsFavorite(favorites, p.id)
  {
    Filter(products, (p: Product) => p.id in favorites)
  }

  /**
   * Adding is idempotent: an id already present leaves the list as it is,
   * a new id goes at the end, and a list without repetitions keeps none.
   */
  lemma AddFavoriteIdempotent(favorites: seq<string>, id: string)
    ensures id in favorites ==> AddedFavorite(favorites, id) == favorites
    ensures id !in favorites ==> AddedFavorite(favorites, id) == favorites + [id]
    ensures AddedFavorite(AddedFavorite(favorites, id), id) == AddedFavorite(favorites, id)
    ensures NoDuplicates(favorites) ==> NoDuplicates(AddedFavorite(favorites, id))
    ensures IsFavorite(AddedFavorite(favorites, id), id)
  {
  }

  /**
   * Removing drops that id and keeps the others in order; it is a no-op for
   * an absent id, `isFavorite` is false afterwards, and no repetition appears.
   */
  lemma RemoveFavoriteKeepsOthers(favorites: seq<string>, id: string)
    ensures forall x :: x in RemovedFavorite(favorites, id) <==> x in favorites && x != id
    ensures IsSubsequence(RemovedFavorite(favorites, id), favorites)
    ensures id !in favorites ==> RemovedFavorite(favorites, id) == favorites
    ensures !IsFavorite(RemovedFavorite(favorites, id), id)
    ensures NoDuplicates(favorites) ==> NoDuplicates(RemovedFavorite(favorites, id))
  {
    FilterSubsequence(favorites, (x: string) => x != id);
    if id !in favorites {
      FilterKeepsAll(favorites, (x: string) => x != id);
    }
    if NoDuplicates(favorites) {
      SubsequenceNoDuplicates(RemovedFavorite(favorites, id), favorites);
    }
  }

  /** The joined list is exactly the catalog products whose id is a favorite, in catalog order. */
  lemma FavoriteItemsAreCatalogJoin(products: seq<Product>, favorites: seq<string>)
    ensures forall p :: p in FavoriteItems(products, favorites) <==> p in products && IsFavorite(favorites, p.id)
    ensures IsSubsequence(FavoriteItems(products, favorites), products)
    ensures favorites == [] ==> FavoriteItems(products, favorites) == []
  {
    FilterSubsequence(products, (p: Product) => p.id in favorites);
    if favorites == [] {
      FilterKeepsNone(products, (p: Product) => p.id in favorites);
    }
  }

  /** The favorites provider's state. */
  class Favorites {
    var favorites: seq<string>

    /** The first render: an empty list. */
    constructor ()
      ensures favorites == []
    {
      favorites := [];
    }

    /** The mount effect; on a parse failure the list is left as it was and an error is reported. */
    method Load(store: Store, parse: string -> Option<seq<string>>) returns (r: Result<seq<string>, LoadError>)
      modifies this
      ensures r == LoadFavorites(store, parse)
      ensures r.Ok? ==> favorites == r.value
      ensures r.Err? ==> favorites == old(favorites)
    {
      r := LoadFavorites(store, parse);
      if r.Ok? {
        favorites := r.value;
      }
    }

    /** `addToFavorites(id)`. */
    method AddToFavorites(id: string)
      modifies this
      ensures favorites == AddedFavorite(old(favorites), id)
      ensures IsFavorite(favorites, id)
    {
      if id !in favorites {
        favorites := favorites + [id];
      }
    }

    /** `removeFromFavorites(id)`. */
    method RemoveFromFavorites(id: string)
      modifies this
      ensures favorites == RemovedFavorite(old(favorites), id)
      ensures !IsFavorite(favorites, id)
    {
      favorites := RemovedFavorite(favorites, id);
    }
  }
}
