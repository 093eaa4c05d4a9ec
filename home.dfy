/** The home screen's progress card: a counter of completed quests, read
    from the completion map stored under `completedQuests`. */
module Home {
  import opened Store
  import opened Quests

  /** `Object.keys(map).length`. */
  function KeyCount(m: map<string, bool>): (n: nat) {
    |m.Keys|
  }

  /** A set never has more elements than a set that contains it. */
  lemma {:induction false} SubsetSize(a: set<string>, b: set<string>)
    requires a <= b
    ensures |a| <= |b|
    decreases b
  {
    if a != {} {
      var x :| x in a;
      SubsetSize(a - {x}, b - {x});
    }
  }

  /** Only catalog ids are ever recorded, so the counter shows at most the
      number of quests. */
  lemma CountAtMostCatalog(m: map<string, bool>)
    requires CompletionsOk(m)
    ensures KeyCount(m) <= |CatalogIds()| == 6
  {
    assert m.Keys <= CatalogIds();
    SubsetSize(m.Keys, CatalogIds());
  }

  class HomeScreen {
    const store: KvStore
    var completedCount: nat

    constructor (store: KvStore)
      ensures this.store == store && completedCount == 0
    {
      this.store := store;
      completedCount := 0;
    }

    /** `loadCompletedQuests`: the counter becomes the number of keys of the
        stored map; an absent key or a failed read leaves it as it was,
        however stale. */
    method LoadCompleted(readSucceeds: bool)
      modifies this
      ensures completedCount ==
        if readSucceeds && CompletedQuestsKey in store.data && store.data[CompletedQuestsKey].CompletionMap?
        then KeyCount(store.data[CompletedQuestsKey].completed) else old(completedCount)
      ensures StoredCompletionsOk(store.data) && old(completedCount) <= 6 ==> completedCount <= 6
    {
      var r := store.GetItem(CompletedQuestsKey, readSucceeds);
      if r.Present? && r.value.CompletionMap? {
        completedCount := KeyCount(r.value.completed);
        if StoredCompletionsOk(store.data) {
          CountAtMostCatalog(r.value.completed);
        }
      }
    }
  }
}
