/**
 * The client's preference store: one preferences record held in state and
 * mirrored under one local-storage key. JSON encoding and decoding are
 * supplied from outside: `stringify` encodes a record, `parse` decodes a
 * saved text into the fields it carries, or fails.
 */
module Preferences {
  import opened Wrappers

  datatype Prefs = Prefs(category: string, legacyWeight: int)

  /** `Partial<UserPreferences>`: each field present or absent. */
  datatype PartialPrefs = PartialPrefs(category: Option<string>, legacyWeight: Option<int>)

  type Parser = string -> Option<PartialPrefs>
  type Printer = Prefs -> string

  const StorageKey := "userPreferences"
  const Defaults := Prefs("tmt", 50)
  const NoChange := PartialPrefs(None, None)

  /** The partial that carries every field of `p`. */
  function Whole(p: Prefs): PartialPrefs
  {
    PartialPrefs(Some(p.category), Some(p.legacyWeight))
  }

  /** `{ ...prev, ...partial }`: present fields replace, absent fields stay. */
  function Merge(prev: Prefs, partial: PartialPrefs): (r: Prefs)
    ensures partial.category.Some? ==> r.category == partial.category.value
    ensures partial.category.None? ==> r.category == prev.category
    ensures partial.legacyWeight.Some? ==> r.legacyWeight == partial.legacyWeight.value
    ensures partial.legacyWeight.None? ==> r.legacyWeight == prev.legacyWeight
  {
    Prefs(
      match partial.category case Some(c) => c case None => prev.category,
      match partial.legacyWeight case Some(w) => w case None => prev.legacyWeight)
  }

  /** Applying the same partial twice is applying it once. */
  lemma MergeIdempotent(prev: Prefs, partial: PartialPrefs)
    ensures Merge(Merge(prev, partial), partial) == Merge(prev, partial)
  {
  }

  /** An empty partial changes nothing. */
  lemma MergeNoChange(prev: Prefs)
    ensures Merge(prev, NoChange) == prev
  {
  }

  /** A partial carrying every field replaces the whole record. */
  lemma MergeWhole(prev: Prefs, p: Prefs)
    ensures Merge(prev, Whole(p)) == p
  {
  }

  /** `localStorage.getItem(key)` when it is truthy: absent and empty both count as nothing saved. */
  function Saved(storage: map<string, string>): (s: Option<string>)
    ensures s.Some? <==> StorageKey in storage && storage[StorageKey] != ""
    ensures s.Some? ==> s.value == storage[StorageKey]
  {
    if StorageKey in storage && storage[StorageKey] != "" then Some(storage[StorageKey]) else None
  }

  /** The initial preferences read from storage: defaults, overlaid by whatever parses. */
  function Restore(storage: map<string, string>, parse: Parser): (p: Prefs)
    ensures Saved(storage).None? ==> p == Defaults
    ensures Saved(storage).Some? && parse(Saved(storage).value).None? ==> p == Defaults
    ensures Saved(storage).Some? && parse(Saved(storage).value).Some? ==>
      p == Merge(Defaults, parse(Saved(storage).value).value)
  {
    match Saved(storage)
    case None => Defaults
    case Some(text) =>
      match parse(text)
      case None => Defaults
      case Some(partial) => Merge(Defaults, partial)
  }

  /** True when the saved text is present but does not parse. */
  predicate Corrupt(storage: map<string, string>, parse: Parser)
  {
    Saved(storage).Some? && parse(Saved(storage).value).None?
  }

  /** What the JSON functions are relied on for: encoding is never empty and decodes to every field. */
  ghost predicate RoundTrips(parse: Parser, stringify: Printer)
  {
    forall p: Prefs {:trigger stringify(p)} :: stringify(p) != "" && parse(stringify(p)) == Some(Whole(p))
  }

  /** Nothing saved or a corrupt text are both read as the defaults, so removing the key changes nothing. */
  lemma RestoreAfterRemoval(storage: map<string, string>, parse: Parser)
    requires Corrupt(storage, parse)
    ensures Restore(storage - {StorageKey}, parse) == Restore(storage, parse) == Defaults
  {
  }

  /** Writing the encoding of a record makes the next load read back exactly that record. */
  lemma RestoreAfterWrite(storage: map<string, string>, parse: Parser, stringify: Printer, p: Prefs)
    requires RoundTrips(parse, stringify)
    ensures Restore(storage[StorageKey := stringify(p)], parse) == p
  {
    assert stringify(p) != "" && parse(stringify(p)) == Some(Whole(p));
    MergeWhole(Defaults, p);
  }

  class PreferenceStore {
    var prefs: Prefs
    var storage: map<string, string>
    const parse: Parser
    const stringify: Printer

    /** Reloading the page reads back the current preferences. */
    ghost predicate Valid()
      reads this
    {
      RoundTrips(parse, stringify) && Restore(storage, parse) == prefs
    }

    /** The provider's initial state: read the saved text and drop it when it does not parse. */
    constructor Load(initial: map<string, string>, parse: Parser, stringify: Printer)
      requires RoundTrips(parse, stringify)
      ensures Valid()
      ensures this.parse == parse && this.stringify == stringify
      ensures prefs == Restore(initial, parse)
      ensures storage == if Corrupt(initial, parse) then initial - {StorageKey} else initial
    {
      this.parse := parse;
      this.stringify := stringify;
      var loaded := Defaults;
      var store := initial;
      match Saved(initial) {
        case None =>
        case Some(text) =>
          match parse(text) {
            case None =>
              store := store - {StorageKey};
            case Some(partial) =>
              loaded := Merge(Defaults, partial);
          }
      }
      prefs := loaded;
      storage := store;
      if Corrupt(initial, parse) {
        RestoreAfterRemoval(initial, parse);
      }
    }

    /** `setPreferences`: merge the partial into the state and persist the result. */
    method SetPreferences(partial: PartialPrefs)
      requires Valid()
      modifies this
      ensures Valid()
      ensures prefs == Merge(old(prefs), partial)
      ensures storage == old(storage)[StorageKey := stringify(prefs)]
    {
      var updated := Merge(prefs, partial);
      storage := storage[StorageKey := stringify(updated)];
      prefs := updated;
      RestoreAfterWrite(old(storage), parse, stringify, updated);
    }

    /** `resetPreferences`: back to the defaults, with the key removed. */
    method ResetPreferences()
      requires Valid()
      modifies this
      ensures Valid()
      ensures prefs == Defaults
      ensures storage == old(storage) - {StorageKey}
    {
      prefs := Defaults;
      storage := storage - {StorageKey};
    }
  }

  /** A change survives a reload: a store loaded from the written storage holds the same preferences. */
  method ReloadKeepsPreferences(initial: map<string, string>, parse: Parser, stringify: Printer, partial: PartialPrefs)
    returns (before: Prefs, after: Prefs)
    requires RoundTrips(parse, stringify)
    ensures before == Merge(Restore(initial, parse), partial)
    ensures after == before
  {
    var store := new PreferenceStore.Load(initial, parse, stringify);
    store.SetPreferences(partial);
    before := store.prefs;
    var reloaded := new PreferenceStore.Load(store.storage, parse, stringify);
    after := reloaded.prefs;
  }

  /** After a reset, a reload gives the defaults, whatever was stored before. */
  method ReloadAfterReset(initial: map<string, string>, parse: Parser, stringify: Printer)
    returns (after: Prefs)
    requires RoundTrips(parse, stringify)
    ensures after == Defaults
  {
    var store := new PreferenceStore.Load(initial, parse, stringify);
    store.ResetPreferences();
    var reloaded := new PreferenceStore.Load(store.storage, parse, stringify);
    after := reloaded.prefs;
  }
}
