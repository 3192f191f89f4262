/**
 * The favourites store (src/lib/store/favorites.ts): a list of product ids that
 * `toggle` flips membership in and `clear` empties.
 */
module Favorites {
  import opened Text

  class FavoritesStore {
    var ids: seq<string>

    /** The list never holds an id twice: it only ever appends an absent id. */
    predicate Valid()
      reads this
    {
      NoDuplicates(ids)
    }

    constructor()
      ensures ids == [] && Valid()
    {
      ids := [];
    }

    function IsFavorite(productId: string): bool
      reads this
    {
      productId in ids
    }

    /** `toggle(productId)`: drop the id when present, otherwise append it. */
    method Toggle(productId: string)
      modifies this
      ensures ids == ToggleMember(old(ids), productId)
      ensures IsFavorite(productId) <==> !old(IsFavorite(productId))
      ensures forall other :: other != productId ==> (IsFavorite(other) <==> old(IsFavorite(other)))
      ensures old(Valid()) ==> Valid()
    {
      var isFavorite := productId in ids;
      ids := if isFavorite then RemoveAll(ids, productId) else ids + [productId];
    }

    method Clear()
      modifies this
      ensures ids == [] && Valid()
      ensures forall productId :: !IsFavorite(productId)
    {
      ids := [];
    }
  }

  /** Toggling an id that is not a favourite twice gives back the same list, order included. */
  method ToggleTwiceRestores(store: FavoritesStore, productId: string)
    requires !store.IsFavorite(productId)
    modifies store
    ensures store.ids == old(store.ids)
  {
    ToggleTwiceAbsent(store.ids, productId);
    store.Toggle(productId);
    store.Toggle(productId);
  }
}
