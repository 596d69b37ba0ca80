/** The storage accessor (lib/taskflow.tsx:263-274): typed reads with a default
    fallback over a key-value store holding JSON text. The JSON encoding is not
    modelled; an entry is either what the last write put there or one of the
    ways a read can fail to produce a value. */
module Storage {
  import opened Seqs

  /** What a key of the store holds, as `getFromStorage` sees it. */
  datatype Entry<T> =
    | Missing            // `getItem` returns null: the key was never written
    | Blank              // the key holds the empty string, which is falsy
    | Malformed          // the text does not parse: `JSON.parse` throws
    | Stored(value: T)   // the text parses to the value last written

  /** `getFromStorage(key, defaultValue)`: the stored value, or the default
      when the key is missing, blank or unparseable. It never fails. */
  function GetFromStorage<T>(e: Entry<T>, default: T): (r: T)
    ensures e.Stored? ==> r == e.value
    ensures e.Missing? || e.Blank? || e.Malformed? ==> r == default
  {
    if e.Stored? then e.value else default
  }

  /** `setToStorage(key, value)`: replaces the whole entry. */
  function SetToStorage<T>(value: T): (e: Entry<T>)
    ensures e.Stored?
  {
    Stored(value)
  }

  /** A read after a write returns what was written, whatever the default. */
  lemma ReadAfterWrite<T>(value: T, default: T)
    ensures GetFromStorage(SetToStorage(value), default) == value
  {
  }

  /** The `initialized` flag is read raw (no JSON) and tested for truthiness:
      any non-empty text counts as set. */
  predicate FlagIsSet(flag: Option<string>): (b: bool)
    ensures flag.None? ==> !b
    ensures flag == Some("") ==> !b
    ensures flag.Some? && |flag.value| > 0 ==> b
  {
    IsTruthy(flag)
  }
}
