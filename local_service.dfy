/** The browser-storage provider (services/localService.ts). The whole
    portfolio is kept as one JSON document under a single key of
    `localStorage`. Serialisation is taken to be exact, so a stored document
    is the portfolio value itself; the two other things a key can hold are
    the empty string (which the provider treats like a missing key) and text
    that is not a portfolio document (on which `JSON.parse` throws). */
module LocalService {
  import opened Wrappers
  import opened Types
  import Constants

  const StorageKey := "dev_portfolio_v1_data"

  /** The text stored under a key. */
  datatype Item = Document(data: PortfolioData) | Blank | Malformed(text: string)

  const QuotaError := "QuotaExceededError"
  const ParseError := "SyntaxError"

  /** `window.localStorage`: a mutable string store. When the quota is
      exhausted, `setItem` throws and writes nothing. */
  class LocalStorage {
    var items: map<string, Item>
    var quotaExceeded: bool

    constructor (items0: map<string, Item>, quotaExceeded0: bool)
      ensures items == items0 && quotaExceeded == quotaExceeded0
    {
      items := items0;
      quotaExceeded := quotaExceeded0;
    }

    method GetItem(key: string) returns (v: Option<Item>)
      ensures v == if key in items then Some(items[key]) else None
    {
      v := if key in items then Some(items[key]) else None;
    }

    method SetItem(key: string, v: Item) returns (ok: bool)
      modifies this`items
      ensures ok == !quotaExceeded
      ensures items == if ok then old(items)[key := v] else old(items)
    {
      ok := !quotaExceeded;
      if ok {
        items := items[key := v];
      }
    }

    method RemoveItem(key: string)
      modifies this`items
      ensures items == old(items) - {key}
    {
      items := items - {key};
    }
  }

  /** `!saved`: a missing key and the empty string both count as "nothing stored". */
  predicate NothingStored(items: map<string, Item>) {
    StorageKey !in items || items[StorageKey] == Blank
  }

  /** What `getProfile` resolves to (or rejects with). */
  function Fetched(items: map<string, Item>, quotaExceeded: bool): Result<PortfolioData>
  {
    if NothingStored(items) then
      (if quotaExceeded then Err(QuotaError) else Ok(Constants.InitialData()))
    else match items[StorageKey]
      case Document(d) => Ok(d)
      case Malformed(_) => Err(ParseError)
  }

  /** The store after `getProfile`: the default is written only when
      nothing was stored and the write is accepted. */
  function AfterFetch(items: map<string, Item>, quotaExceeded: bool): map<string, Item>
  {
    if NothingStored(items) && !quotaExceeded then items[StorageKey := Document(Constants.InitialData())] else items
  }

  /** The store after `updateProfile(data)`. */
  function AfterSave(items: map<string, Item>, quotaExceeded: bool, data: PortfolioData): map<string, Item>
  {
    if quotaExceeded then items else items[StorageKey := Document(data)]
  }

  /** The store after `resetData()`: the key is removed, then the default
      written; a refused write leaves the key removed. */
  function AfterReset(items: map<string, Item>, quotaExceeded: bool): map<string, Item>
  {
    var cleared := items - {StorageKey};
    if quotaExceeded then cleared else cleared[StorageKey := Document(Constants.InitialData())]
  }

  /** With nothing stored (no key, or the empty string), a fetch writes the
      built-in portfolio and returns it; when the store refuses the write,
      the fetch fails and nothing changes. */
  lemma FetchFromEmptyStore(items: map<string, Item>, quotaExceeded: bool)
    requires NothingStored(items)
    ensures !quotaExceeded ==> Fetched(items, quotaExceeded) == Ok(Constants.InitialData())
    ensures !quotaExceeded ==> AfterFetch(items, quotaExceeded)[StorageKey] == Document(Constants.InitialData())
    ensures quotaExceeded ==> Fetched(items, quotaExceeded) == Err(QuotaError)
    ensures quotaExceeded ==> AfterFetch(items, quotaExceeded) == items
  {
  }

  /** With a document stored, a fetch returns it and writes nothing; stored
      text that is not a document makes the fetch fail. */
  lemma FetchStored(items: map<string, Item>, quotaExceeded: bool)
    requires !NothingStored(items)
    ensures AfterFetch(items, quotaExceeded) == items
    ensures items[StorageKey].Document? ==> Fetched(items, quotaExceeded) == Ok(items[StorageKey].data)
    ensures items[StorageKey].Malformed? ==> Fetched(items, quotaExceeded) == Err(ParseError)
  {
  }

  /** A second fetch returns what the first returned, and writes nothing. */
  lemma FetchIdempotent(items: map<string, Item>, quotaExceeded: bool)
    ensures Fetched(AfterFetch(items, quotaExceeded), quotaExceeded) == Fetched(items, quotaExceeded)
    ensures Fetched(items, quotaExceeded).Ok? ==>
      AfterFetch(AfterFetch(items, quotaExceeded), quotaExceeded) == AfterFetch(items, quotaExceeded)
  {
  }

  /** Saving and then fetching returns the saved document. */
  lemma SaveThenFetch(items: map<string, Item>, data: PortfolioData)
    ensures Fetched(AfterSave(items, false, data), false) == Ok(data)
    ensures AfterFetch(AfterSave(items, false, data), false) == AfterSave(items, false, data)
  {
  }

  /** Resetting and then fetching returns the built-in portfolio, whatever
      was stored before. */
  lemma ResetThenFetch(items: map<string, Item>)
    ensures Fetched(AfterReset(items, false), false) == Ok(Constants.InitialData())
  {
  }

  /** No operation touches a key other than the provider's own. */
  lemma OnlyOwnKeyTouched(items: map<string, Item>, quotaExceeded: bool, data: PortfolioData, key: string)
    requires key != StorageKey
    ensures key in AfterFetch(items, quotaExceeded) <==> key in items
    ensures key in AfterSave(items, quotaExceeded, data) <==> key in items
    ensures key in AfterReset(items, quotaExceeded) <==> key in items
    ensures key in items ==> AfterFetch(items, quotaExceeded)[key] == items[key]
    ensures key in items ==> AfterSave(items, quotaExceeded, data)[key] == items[key]
    ensures key in items ==> AfterReset(items, quotaExceeded)[key] == items[key]
  {
  }

  /** `LocalPortfolioService`: the provider over the shared store. */
  class LocalPortfolioService {
    const storage: LocalStorage

    constructor (storage: LocalStorage)
      ensures this.storage == storage
    {
      this.storage := storage;
    }

    /** `getProfile()`: the stored document, or the built-in portfolio,
        which is written first when nothing is stored. */
    method GetProfile() returns (r: Result<PortfolioData>)
      modifies storage`items
      ensures r == Fetched(old(storage.items), storage.quotaExceeded)
      ensures storage.items == AfterFetch(old(storage.items), storage.quotaExceeded)
    {
      var saved := storage.GetItem(StorageKey);
      if saved.None? || saved.value == Blank {
        var ok := storage.SetItem(StorageKey, Document(Constants.InitialData()));
        if !ok {
          return Err(QuotaError);
        }
        return Ok(Constants.InitialData());
      }
      match saved.value
      case Document(d) => r := Ok(d);
      case Malformed(_) => r := Err(ParseError);
    }

    /** `updateProfile(data)`: overwrites the stored document. */
    method UpdateProfile(data: PortfolioData) returns (ok: bool)
      modifies storage`items
      ensures ok == !storage.quotaExceeded
      ensures storage.items == AfterSave(old(storage.items), storage.quotaExceeded, data)
    {
      ok := storage.SetItem(StorageKey, Document(data));
    }

    /** `resetData()`: removes the key, then writes the built-in portfolio. */
    method ResetData() returns (ok: bool)
      modifies storage`items
      ensures ok == !storage.quotaExceeded
      ensures storage.items == AfterReset(old(storage.items), storage.quotaExceeded)
    {
      storage.RemoveItem(StorageKey);
      ok := storage.SetItem(StorageKey, Document(Constants.InitialData()));
    }
  }
}
