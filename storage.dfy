/**
 * The persistence layer (utils/storage.ts): the whole list of entries kept as
 * one serialized value under one fixed key of the device's key-value store.
 *
 * JSON encoding is modelled as an exact round trip: `Json(entries)` is the
 * text `JSON.stringify(entries)` and parsing it gives `entries` back;
 * `Malformed` is any stored text that does not parse (the empty string
 * included, which the source treats as "nothing stored"). A failing read or
 * write of the underlying store is a `bool` parameter chosen by the
 * environment.
 */
module Storage {
  import opened Wrappers
  import opened Entries

  /** The one key the layer reads and writes. */
  const PainEntriesKey: string := "pain_tracker_entries"

  /** A stored value. */
  datatype Blob = Json(entries: seq<Entry>) | Malformed

  /** The errors the underlying store may raise. */
  datatype StorageError = ReadError | WriteError

  /** The device's key-value store (AsyncStorage). */
  class Store {
    var items: map<string, Blob>

    constructor (initial: map<string, Blob>)
      ensures items == initial
    {
      items := initial;
    }

    /** `AsyncStorage.getItem(key)`: the stored value, `None` when the key is unset. */
    method GetItem(key: string, fails: bool) returns (r: Result<Option<Blob>, StorageError>)
      ensures fails ==> r == Failure(ReadError)
      ensures !fails ==> r == Success(if key in items then Some(items[key]) else None)
    {
      if fails {
        r := Failure(ReadError);
      } else if key in items {
        r := Success(Some(items[key]));
      } else {
        r := Success(None);
      }
    }

    /** `AsyncStorage.setItem(key, value)`: a failed write changes nothing. */
    method SetItem(key: string, value: Blob, fails: bool) returns (r: Outcome<StorageError>)
      modifies this
      ensures r == if fails then Fail(WriteError) else Pass
      ensures items == if fails then old(items) else old(items)[key := value]
    {
      if fails {
        r := Fail(WriteError);
      } else {
        items := items[key := value];
        r := Pass;
      }
    }
  }

  /** The list a successful read of `items` yields: the decoded value under
      the key, or the empty list when nothing is stored or it does not parse. */
  function Decoded(items: map<string, Blob>): seq<Entry> {
    if PainEntriesKey in items then
      match items[PainEntriesKey]
      case Json(entries) => entries
      case Malformed => []
    else []
  }

  /** What `getPainEntries` returns: a failing read is swallowed as `[]`. */
  function Loaded(items: map<string, Blob>, readFails: bool): seq<Entry> {
    if readFails then [] else Decoded(items)
  }

  /** The store after `savePainEntries(entries)`: the key overwritten by the
      whole list, or the store untouched when the write fails. */
  function AfterSave(items: map<string, Blob>, entries: seq<Entry>, writeFails: bool): map<string, Blob> {
    if writeFails then items else items[PainEntriesKey := Json(entries)]
  }

  /** `getPainEntries` (utils/storage.ts:9-17). */
  method GetPainEntries(store: Store, readFails: bool) returns (entries: seq<Entry>)
    ensures entries == Loaded(store.items, readFails)
    ensures readFails ==> entries == []
    ensures !readFails && PainEntriesKey !in store.items ==> entries == []
    ensures !readFails && PainEntriesKey in store.items ==>
              entries == match store.items[PainEntriesKey]
                         case Json(stored) => stored
                         case Malformed => []
  {
    var item := store.GetItem(PainEntriesKey, readFails);
    match item {
      case Failure(_) =>
        entries := [];
      case Success(None) =>
        entries := [];
      case Success(Some(Malformed)) =>
        entries := [];
      case Success(Some(Json(stored))) =>
        entries := stored;
    }
  }

  /** `savePainEntries` (utils/storage.ts:22-30): the write error propagates. */
  method SavePainEntries(store: Store, entries: seq<Entry>, writeFails: bool) returns (r: Outcome<StorageError>)
    modifies store
    ensures r == if writeFails then Fail(WriteError) else Pass
    ensures store.items == AfterSave(old(store.items), entries, writeFails)
  {
    r := store.SetItem(PainEntriesKey, Json(entries), writeFails);
  }

  /** `addPainEntry` (utils/storage.ts:35-44): read, append, write back. */
  method AddPainEntry(store: Store, entry: Entry, readFails: bool, writeFails: bool) returns (r: Outcome<StorageError>)
    modifies store
    ensures r == if writeFails then Fail(WriteError) else Pass
    ensures store.items == AfterSave(old(store.items), Loaded(old(store.items), readFails) + [entry], writeFails)
  {
    var entries := GetPainEntries(store, readFails);
    entries := entries + [entry];
    r := SavePainEntries(store, entries, writeFails);
  }

  /** `removePainEntry` (utils/storage.ts:49-58): read, filter by id, write back. */
  method RemovePainEntry(store: Store, id: string, readFails: bool, writeFails: bool) returns (r: Outcome<StorageError>)
    modifies store
    ensures r == if writeFails then Fail(WriteError) else Pass
    ensures store.items == AfterSave(old(store.items), Without(Loaded(old(store.items), readFails), id), writeFails)
  {
    var entries := GetPainEntries(store, readFails);
    var updated := Without(entries, id);
    r := SavePainEntries(store, updated, writeFails);
  }

  /** The read specification case by case: `[]` on a failed read or an
      unset key, the stored list for a parsed value. */
  lemma GetMatchesLoaded(items: map<string, Blob>, readFails: bool)
    ensures readFails || PainEntriesKey !in items ==> Loaded(items, readFails) == []
    ensures !readFails && PainEntriesKey in items && items[PainEntriesKey].Json? ==>
              Loaded(items, readFails) == items[PainEntriesKey].entries
  {
  }

  /** A successful save followed by a successful read returns exactly the
      saved list, whatever was stored before. */
  lemma LoadAfterSave(items: map<string, Blob>, entries: seq<Entry>)
    ensures Loaded(AfterSave(items, entries, false), false) == entries
  {
  }

  /** A second save overwrites the first. */
  lemma SaveOverwrites(items: map<string, Blob>, first: seq<Entry>, second: seq<Entry>)
    ensures AfterSave(AfterSave(items, first, false), second, false) == AfterSave(items, second, false)
  {
  }

  /** Saving touches no key but the fixed one. */
  lemma SaveTouchesOnlyItsKey(items: map<string, Blob>, entries: seq<Entry>, writeFails: bool, key: string)
    requires key != PainEntriesKey
    ensures key in AfterSave(items, entries, writeFails) <==> key in items
    ensures key in items ==> AfterSave(items, entries, writeFails)[key] == items[key]
  {
  }

  /** After a successful add, the stored list is the old one followed by the
      new entry. */
  lemma AddAppends(items: map<string, Blob>, entry: Entry)
    ensures Decoded(AfterSave(items, Loaded(items, false) + [entry], false)) == Decoded(items) + [entry]
  {
  }

  /** A read failure inside add is not noticed: the stored list is replaced
      by the new entry alone. */
  lemma AddAfterReadFailureDiscards(items: map<string, Blob>, entry: Entry)
    ensures Decoded(AfterSave(items, Loaded(items, true) + [entry], false)) == [entry]
  {
  }

  /** After a successful remove, the stored list is the old one without the
      entries of that id; for an absent id it is unchanged. */
  lemma RemoveFilters(items: map<string, Blob>, id: string)
    ensures Decoded(AfterSave(items, Without(Loaded(items, false), id), false)) == Without(Decoded(items), id)
    ensures !HasId(Decoded(items), id) ==>
              Decoded(AfterSave(items, Without(Loaded(items, false), id), false)) == Decoded(items)
  {
    WithoutAbsent(Decoded(items), id);
  }
}
