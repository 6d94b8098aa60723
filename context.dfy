/**
 * The in-memory collection manager (context/PainContext.tsx): the provider's
 * state `painEntries` and `isInitialized`, the load-once effect, the
 * save-on-change effect and the add/remove updaters; plus the
 * `usePainContext` guard.
 *
 * The two effects are modelled as steps run right after the state change
 * that fires them: `Load` is the mount effect followed by the save effect
 * that its state change fires, and every mutator ends with `SaveOnChange`.
 */
module PainContext {
  import opened Wrappers
  import opened Entries
  import Storage

  /** The updater passed to `setPainEntries` by add: `[...prevEntries, entry]`. */
  function AddUpdater(prev: seq<Entry>, entry: Entry): (r: seq<Entry>)
    ensures |r| == |prev| + 1
    ensures r[..|prev|] == prev && r[|prev|] == entry
  {
    prev + [entry]
  }

  /** The updater passed to `setPainEntries` by remove: keep the entries
      whose id differs, in order. */
  function RemoveUpdater(prev: seq<Entry>, id: string): (r: seq<Entry>)
    ensures |r| <= |prev|
    ensures forall e :: e in r <==> e in prev && e.id != id
    ensures !HasId(prev, id) ==> r == prev
  {
    WithoutAbsent(prev, id);
    Without(prev, id)
  }

  class PainProvider {
    var painEntries: seq<Entry>
    var isInitialized: bool
    const store: Storage.Store

    /** The stored list is the collection. */
    predicate Synced()
      reads this, store
    {
      Storage.Decoded(store.items) == painEntries
    }

    /** First render: an empty collection, not initialised, nothing written. */
    constructor (store: Storage.Store)
      ensures this.store == store
      ensures painEntries == [] && !isInitialized
      ensures store.items == old(store.items)
    {
      this.store := store;
      painEntries := [];
      isInitialized := false;
    }

    /** The save-on-change effect (PainContext.tsx:41-47): once initialised,
        the whole collection is saved; a write error is logged, not raised. */
    method SaveOnChange(writeFails: bool)
      modifies store
      ensures store.items == if isInitialized then Storage.AfterSave(old(store.items), painEntries, writeFails)
                             else old(store.items)
      ensures isInitialized && !writeFails ==> Synced()
    {
      if isInitialized {
        var outcome := Storage.SavePainEntries(store, painEntries, writeFails);
      }
    }

    /** The mount effect (PainContext.tsx:23-38), which runs once per mount
        (its dependency list is empty), so before initialisation: the
        collection becomes the stored list (`[]` when the read failed),
        `isInitialized` becomes true either way, and the resulting state
        change fires a save of it. */
    method Load(readFails: bool, writeFails: bool)
      requires !isInitialized
      modifies this, store
      ensures painEntries == Storage.Loaded(old(store.items), readFails)
      ensures isInitialized
      ensures store.items == Storage.AfterSave(old(store.items), painEntries, writeFails)
      ensures !writeFails ==> Synced()
    {
      var entries := Storage.GetPainEntries(store, readFails);
      painEntries := entries;
      isInitialized := true;
      SaveOnChange(writeFails);
    }

    /** `addPainEntry` (PainContext.tsx:50-52) followed by the save effect. */
    method Add(entry: Entry, writeFails: bool)
      modifies this, store
      ensures painEntries == AddUpdater(old(painEntries), entry)
      ensures isInitialized == old(isInitialized)
      ensures store.items == if isInitialized then Storage.AfterSave(old(store.items), painEntries, writeFails)
                             else old(store.items)
    {
      painEntries := AddUpdater(painEntries, entry);
      SaveOnChange(writeFails);
    }

    /** `removePainEntry` (PainContext.tsx:55-59) followed by the save effect;
        the filter makes a new list even for an absent id, so the save runs. */
    method Remove(id: string, writeFails: bool)
      modifies this, store
      ensures painEntries == RemoveUpdater(old(painEntries), id)
      ensures isInitialized == old(isInitialized)
      ensures store.items == if isInitialized then Storage.AfterSave(old(store.items), painEntries, writeFails)
                             else old(store.items)
    {
      painEntries := RemoveUpdater(painEntries, id);
      SaveOnChange(writeFails);
    }

    /** The exposed `setPainEntries` (PainContext.tsx:9, 67) with a new list. */
    method SetPainEntries(entries: seq<Entry>, writeFails: bool)
      modifies this, store
      ensures painEntries == entries
      ensures isInitialized == old(isInitialized)
      ensures store.items == if isInitialized then Storage.AfterSave(old(store.items), entries, writeFails)
                             else old(store.items)
    {
      painEntries := entries;
      SaveOnChange(writeFails);
    }
  }

  const MissingProviderMessage: string := "usePainContext must be used within a PainProvider"

  /** `usePainContext` (PainContext.tsx:76-82): the provider's value, or the
      error thrown when the component is not inside a provider. */
  function UsePainContext<T>(context: Option<T>): (r: Result<T, string>)
    ensures r.Failure? <==> context.None?
    ensures context.Some? ==> r == Success(context.value)
    ensures context.None? ==> r == Failure(MissingProviderMessage)
  {
    match context
    case None => Failure(MissingProviderMessage)
    case Some(value) => Success(value)
  }

  /** One mutation applied through the provider. */
  datatype Op = AddOp(entry: Entry) | RemoveOp(id: string)

  function Apply(s: seq<Entry>, op: Op): seq<Entry> {
    match op
    case AddOp(e) => AddUpdater(s, e)
    case RemoveOp(id) => RemoveUpdater(s, id)
  }

  /** The collection after the updaters of `ops` run in order on `[]`. */
  function Replay(ops: seq<Op>): seq<Entry>
    decreases |ops|
  {
    if ops == [] then [] else Apply(Replay(ops[..|ops| - 1]), ops[|ops| - 1])
  }

  /** Reference definition: the added entries that no later remove of their
      id cancels, in the order they were added. */
  function Survivors(ops: seq<Op>): seq<Entry>
    decreases |ops|
  {
    if ops == [] then []
    else
      var kept := match ops[0]
                  case AddOp(e) => if RemoveOp(e.id) in ops[1..] then [] else [e]
                  case RemoveOp(_) => [];
      kept + Survivors(ops[1..])
  }

  lemma {:induction false} SurvivorsAppendAdd(ops: seq<Op>, e: Entry)
    ensures Survivors(ops + [AddOp(e)]) == Survivors(ops) + [e]
  {
    if ops == [] {
      assert [AddOp(e)][1..] == [];
    } else {
      var ops' := ops + [AddOp(e)];
      assert ops'[0] == ops[0];
      assert ops'[1..] == ops[1..] + [AddOp(e)];
      SurvivorsAppendAdd(ops[1..], e);
      if ops[0].AddOp? {
        assert RemoveOp(ops[0].entry.id) in ops'[1..] <==> RemoveOp(ops[0].entry.id) in ops[1..];
      }
    }
  }

  lemma {:induction false} SurvivorsAppendRemove(ops: seq<Op>, id: string)
    ensures Survivors(ops + [RemoveOp(id)]) == Without(Survivors(ops), id)
  {
    if ops == [] {
      assert [RemoveOp(id)][1..] == [];
    } else {
      var ops' := ops + [RemoveOp(id)];
      assert ops'[0] == ops[0];
      assert ops'[1..] == ops[1..] + [RemoveOp(id)];
      SurvivorsAppendRemove(ops[1..], id);
      var kept := match ops[0]
                  case AddOp(e) => if RemoveOp(e.id) in ops[1..] then [] else [e]
                  case RemoveOp(_) => [];
      assert Survivors(ops) == kept + Survivors(ops[1..]);
      WithoutAppend(kept, Survivors(ops[1..]), id);
      if ops[0].AddOp? {
        var e := ops[0].entry;
        assert RemoveOp(e.id) in ops'[1..] <==> RemoveOp(e.id) in ops[1..] || e.id == id;
        assert Without([e], id) == if e.id == id then [] else [e];
      }
    }
  }

  /** Replaying adds and removes from the empty collection leaves exactly the
      added entries not removed afterwards, in insertion order. */
  lemma {:induction false} ReplayIsSurvivors(ops: seq<Op>)
    ensures Replay(ops) == Survivors(ops)
    decreases |ops|
  {
    if ops != [] {
      var init := ops[..|ops| - 1];
      var last := ops[|ops| - 1];
      assert ops == init + [last];
      ReplayIsSurvivors(init);
      match last {
        case AddOp(e) =>
          SurvivorsAppendAdd(init, e);
        case RemoveOp(id) =>
          SurvivorsAppendRemove(init, id);
      }
    }
  }

  /** Removing a present id from a collection with unique ids shortens it by
      exactly one; the updaters keep ids unique when added ids are fresh. */
  lemma RemovePresentShortensByOne(prev: seq<Entry>, id: string)
    requires UniqueIds(prev) && HasId(prev, id)
    ensures |RemoveUpdater(prev, id)| == |prev| - 1
    ensures UniqueIds(RemoveUpdater(prev, id))
  {
    var k :| 0 <= k < |prev| && prev[k].id == id;
    WithoutUnique(prev, id, k);
    WithoutKeepsUnique(prev, id);
  }

  /** A read failure at load time is not noticed: the empty list loaded in its
      place is saved over whatever was stored. */
  lemma LoadAfterReadFailureOverwrites(items: map<string, Storage.Blob>)
    ensures Storage.Decoded(Storage.AfterSave(items, Storage.Loaded(items, true), false)) == []
  {
  }
}
