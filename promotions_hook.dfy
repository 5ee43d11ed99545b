/** The promotions hook (src/hooks/usePromotions.ts): an in-memory list of
    promotions mirrored to the promotions key of the browser store. */
module Promotions {
  import opened Types
  import opened LocalStorageService

  /** The hook's own sample data. Unlike the service's samples these leave out
      `isActive` and `selectedProducts`, and spell the categories with a capital. */
  const HookSamples: seq<Promotion> := [
    Promotion("1", "Descuento Alimento Premium",
              "Obtén 20% de descuento en alimentos premium para perros y gatos",
              "Alimento", 20, 19737, 19768, "dog-products", None, None),
    Promotion("2", "Juguetes para Gatos",
              "Compra 2 y llévate 1 gratis en toda la línea de juguetes para gatos",
              "Juguetes", 33, 19732, 19753, "cat-products", None, None)
  ]

  /** `promotions.filter(p => p.id !== id)`: every record with that id is gone,
      every other record is kept, as many times as it occurred. */
  function RemoveById(ps: seq<Promotion>, id: string): (r: seq<Promotion>)
    ensures forall p :: p in r <==> p in ps && p.id != id
    ensures forall p :: multiset(r)[p] == if p.id == id then 0 else multiset(ps)[p]
    ensures |r| <= |ps|
  {
    if ps == [] then []
    else
      assert ps == [ps[0]] + ps[1..];
      (if ps[0].id == id then [] else [ps[0]]) + RemoveById(ps[1..], id)
  }

  /** Filtering distributes over concatenation, so the kept records stay in their
      original order. */
  lemma {:induction false} RemoveByIdConcat(a: seq<Promotion>, b: seq<Promotion>, id: string)
    ensures RemoveById(a + b, id) == RemoveById(a, id) + RemoveById(b, id)
  {
    if a == [] {
      assert a + b == b;
    } else {
      assert (a + b)[1..] == a[1..] + b;
      RemoveByIdConcat(a[1..], b, id);
    }
  }

  /** Deleting an id no record carries changes nothing. */
  lemma {:induction false} RemoveByIdAbsent(ps: seq<Promotion>, id: string)
    requires forall p :: p in ps ==> p.id != id
    ensures RemoveById(ps, id) == ps
  {
    if ps != [] {
      assert ps[0] in ps;
      RemoveByIdAbsent(ps[1..], id);
      assert ps == [ps[0]] + ps[1..];
    }
  }

  /** Deleting the same id twice is the same as deleting it once. */
  lemma RemoveByIdIdempotent(ps: seq<Promotion>, id: string)
    ensures RemoveById(RemoveById(ps, id), id) == RemoveById(ps, id)
  {
    RemoveByIdAbsent(RemoveById(ps, id), id);
  }

  /** Adding a record under a fresh id and then deleting that id gives back the
      original list. */
  lemma AddThenDelete(ps: seq<Promotion>, d: Draft, id: string)
    requires forall p :: p in ps ==> p.id != id
    ensures RemoveById(ps + [Stamp(d, id)], id) == ps
  {
    RemoveByIdConcat(ps, [Stamp(d, id)], id);
    RemoveByIdAbsent(ps, id);
    assert RemoveById([Stamp(d, id)], id) == [];
  }

  /** What the mount effect loads: the stored list when the key is present (even
      an empty list), the hook's samples when it is absent. */
  function MountedList(stored: Option<seq<Promotion>>): seq<Promotion> {
    if stored.Some? then stored.value else HookSamples
  }

  /** The hook seeds only an ABSENT key, while the service also seeds a stored empty
      list: on a store holding `[]` the two rules disagree. */
  lemma SeedingRulesDiffer(s: Slots)
    requires s.promotions == Some([])
    ensures MountedList(s.promotions) == []
    ensures GetPromotions(SeedDefaults(s)) == SamplePromotions
  {
  }

  class PromotionsHook {
    var promotions: seq<Promotion>
    const store: LocalStore

    /** The initial state before the mount effect has run. */
    constructor (store: LocalStore)
      ensures this.store == store && promotions == []
    {
      this.store := store;
      promotions := [];
    }

    /** The mount effect. */
    method Mount()
      modifies this, store
      ensures promotions == MountedList(old(store.slots.promotions))
      ensures old(store.slots.promotions).Some? ==> store.slots == old(store.slots)
      ensures old(store.slots.promotions).None? ==>
                store.slots == old(store.slots).(promotions := Some(HookSamples))
    {
      var stored := store.slots.promotions;
      if stored.Some? {
        promotions := stored.value;
      } else {
        promotions := HookSamples;
        store.slots := store.slots.(promotions := Some(HookSamples));
      }
    }

    /** Appends the draft under the id derived from the clock (`clockId` stands for
      `Date.now().toString()`), and writes the whole new list. */
    method AddPromotion(draft: Draft, clockId: string)
      modifies this, store
      ensures promotions == old(promotions) + [Stamp(draft, clockId)]
      ensures |promotions| == |old(promotions)| + 1
      ensures promotions[..|old(promotions)|] == old(promotions)
      ensures Unstamp(promotions[|promotions| - 1]) == draft
      ensures store.slots == old(store.slots).(promotions := Some(promotions))
    {
      var updated := promotions + [Stamp(draft, clockId)];
      promotions := updated;
      store.slots := store.slots.(promotions := Some(updated));
    }

    /** Hard delete of every record with the id, and writes the whole new list. */
    method DeletePromotion(id: string)
      modifies this, store
      ensures promotions == RemoveById(old(promotions), id)
      ensures store.slots == old(store.slots).(promotions := Some(promotions))
    {
      var updated := RemoveById(promotions, id);
      promotions := updated;
      store.slots := store.slots.(promotions := Some(updated));
    }
  }
}
