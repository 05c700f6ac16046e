/** Which catalog cards a user owns. A card is owned exactly when its id is
    in the user's possession list; the home screen unlocks owned cards and
    the map marks only the cards not owned yet. */
module Ownership {
  import opened Common

  /** `checkUserHasTag`: the possession list contains the card's id. */
  predicate Owns(possessed: seq<string>, card: Place) {
    card.id in possessed
  }

  /** The catalog cards that are owned, in catalog order. */
  function Owned(catalog: seq<Place>, possessed: seq<string>): (r: seq<Place>)
    ensures |r| <= |catalog|
    ensures forall c :: c in r <==> c in catalog && c.id in possessed
  {
    if catalog == [] then []
    else if Owns(possessed, catalog[0]) then [catalog[0]] + Owned(catalog[1..], possessed)
    else Owned(catalog[1..], possessed)
  }

  /** The catalog cards that are not owned, in catalog order. */
  function Unowned(catalog: seq<Place>, possessed: seq<string>): (r: seq<Place>)
    ensures |r| <= |catalog|
    ensures forall c :: c in r <==> c in catalog && c.id !in possessed
  {
    if catalog == [] then []
    else if Owns(possessed, catalog[0]) then Unowned(catalog[1..], possessed)
    else [catalog[0]] + Unowned(catalog[1..], possessed)
  }

  /** Every catalog card is either owned or not owned, and counted once:
      the two views split the catalog without losing or repeating a card. */
  lemma {:induction false} OwnershipPartitionsCatalog(catalog: seq<Place>, possessed: seq<string>)
    ensures multiset(Owned(catalog, possessed)) + multiset(Unowned(catalog, possessed)) == multiset(catalog)
    ensures |Owned(catalog, possessed)| + |Unowned(catalog, possessed)| == |catalog|
  {
    if catalog != [] {
      OwnershipPartitionsCatalog(catalog[1..], possessed);
      assert catalog == [catalog[0]] + catalog[1..];
    }
  }

  /** Adding a card id that is already possessed changes neither view. */
  lemma {:induction false} RepossessingChangesNothing(catalog: seq<Place>, possessed: seq<string>, id: string)
    requires id in possessed
    ensures Owned(catalog, possessed + [id]) == Owned(catalog, possessed)
    ensures Unowned(catalog, possessed + [id]) == Unowned(catalog, possessed)
  {
    if catalog != [] {
      RepossessingChangesNothing(catalog[1..], possessed, id);
      assert Owns(possessed + [id], catalog[0]) == Owns(possessed, catalog[0]);
    }
  }
}
