/** The keys and the fixed obfuscation key of src/services/storage.ts and
    src/services/history.ts. */
module StorageKeys {
  const API_CONFIG_KEY: string := "resume-bullet-point-api-config"
  const HISTORY_KEY: string := "resume-bullet-point-history"
  const ENCRYPTION_KEY: string := "resume-bullet-point-key"
}

/** The browser's `localStorage`, holding the records this application writes. */
module BrowserStorage {
  import opened ApiTypes

  /** A stored item. The JSON text `JSON.stringify` writes for a record is kept
      as that record; `Corrupt` is any other text, which `JSON.parse` rejects
      (the empty text, which the readers test before parsing, included). */
  datatype Stored =
    | ConfigRecord(config: SavedAPIConfig)
    | HistoryRecord(runs: seq<RunHistory>)
    | Corrupt(text: string)

  /** The items of the page's origin, by key. */
  class LocalStorage {
    var items: map<string, Stored>

    constructor(initial: map<string, Stored>)
      ensures items == initial
    {
      items := initial;
    }

    /** `localStorage.setItem`: stores `value` under `key`, replacing what was there. */
    method SetItem(key: string, value: Stored)
      modifies this
      ensures items == old(items)[key := value]
    {
      items := items[key := value];
    }

    /** `localStorage.removeItem`: forgets `key`; an absent key is no error. */
    method RemoveItem(key: string)
      modifies this
      ensures items == old(items) - {key}
    {
      items := items - {key};
    }
  }
}
