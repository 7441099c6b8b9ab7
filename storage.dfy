/** The browser's local storage, seen as a map from key to stored text.
    JSON is opaque here: a stored value is either the text `JSON.stringify`
    produced for a list of lines (which `JSON.parse` turns back into the
    same list) or a text that `JSON.parse` rejects. */
module Storage {

  datatype Stored<L> = Encoded(lines: seq<L>) | Unparsable(text: string)

  class LocalStorage<L> {
    var entries: map<string, Stored<L>>

    constructor (initial: map<string, Stored<L>>)
      ensures entries == initial
    {
      entries := initial;
    }

    /** `localStorage.setItem(key, value)`. The write fails (the browser
        throws, e.g. on an exceeded quota) exactly when `quotaOk` is false,
        and a failed write changes nothing. */
    method SetItem(key: string, value: Stored<L>, quotaOk: bool) returns (ok: bool)
      modifies this
      ensures ok == quotaOk
      ensures entries == if ok then old(entries)[key := value] else old(entries)
    {
      ok := quotaOk;
      if ok {
        entries := entries[key := value];
      }
    }
  }
}
