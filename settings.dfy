/**
 * The extension's local key-value store as the hover script reads and writes
 * it: the four settings, resolved with JavaScript's `||` fallback, and the
 * append-only history list.
 */
module Settings {
  import opened Optional

  /** A JavaScript number; temperature is only ever stored and passed on, so no arithmetic. */
  datatype Number = Finite(value: real) | Infinity | NegativeInfinity | NaN

  /** One logged interaction: `{question, answer, timestamp}`; the timestamp is opaque. */
  datatype HistoryEntry = HistoryEntry(question: string, answer: string, timestamp: string)

  /** A value held in the store. `Entries` is an array of history entries; `Object` a non-array object. */
  datatype Value =
    | Str(s: string)
    | Num(n: Number)
    | Bool(b: bool)
    | Null
    | Entries(entries: seq<HistoryEntry>)
    | Object

  type Store = map<string, Value>

  const ApiKeyKey: string := "apiKey"
  const SelectedModelKey: string := "selectedModel"
  const TemperatureKey: string := "temperature"
  const MaxTokensKey: string := "maxTokens"
  const HistoryKey: string := "history"

  const DefaultModel: Value := Str("gpt-3.5-turbo")
  const DefaultTemperature: Value := Num(Finite(0.7))
  const DefaultMaxTokens: Value := Num(Finite(100.0))

  /** JavaScript's ToBoolean: "", 0, -0, NaN, false and null are falsy; every object is truthy. */
  predicate Truthy(v: Value)
  {
    match v
    case Str(s) => s != ""
    case Num(n) => n != Finite(0.0) && n != NaN
    case Bool(b) => b
    case Null => false
    case Entries(_) => true
    case Object => true
  }

  /** `items[key]` after `chrome.storage.local.get(key)`: None stands for `undefined`. */
  function Get(store: Store, key: string): Option<Value>
  {
    if key in store then Some(store[key]) else None
  }

  /** `stored || fallback`. */
  function Or(stored: Option<Value>, fallback: Value): Value
  {
    if stored.Some? && Truthy(stored.value) then stored.value else fallback
  }

  /** `getAPIKey()`: the stored key as is, with no default; `undefined` exactly when none is stored. */
  function ApiKey(store: Store): (r: Option<Value>)
    ensures r.Some? <==> ApiKeyKey in store
    ensures r.Some? ==> r.value == store[ApiKeyKey]
  {
    Get(store, ApiKeyKey)
  }

  /** The hover handler's `!apiKey` test fails, i.e. a request may be issued. */
  predicate HasApiKey(store: Store)
  {
    ApiKey(store).Some? && Truthy(ApiKey(store).value)
  }

  /** `getSelectedModel()`: never falsy; the stored value wins exactly when it is truthy. */
  function SelectedModel(store: Store): (r: Value)
    ensures Truthy(r)
    ensures r == DefaultModel || Get(store, SelectedModelKey) == Some(r)
    ensures Get(store, SelectedModelKey).Some? && Truthy(Get(store, SelectedModelKey).value) ==> r == Get(store, SelectedModelKey).value
  {
    Or(Get(store, SelectedModelKey), DefaultModel)
  }

  /** `getCustomTemperature()`: never falsy; the stored value wins exactly when it is truthy. */
  function CustomTemperature(store: Store): (r: Value)
    ensures Truthy(r)
    ensures r == DefaultTemperature || Get(store, TemperatureKey) == Some(r)
    ensures Get(store, TemperatureKey).Some? && Truthy(Get(store, TemperatureKey).value) ==> r == Get(store, TemperatureKey).value
  {
    Or(Get(store, TemperatureKey), DefaultTemperature)
  }

  /** `getCustomMaxTokens()`: never falsy; the stored value wins exactly when it is truthy. */
  function CustomMaxTokens(store: Store): (r: Value)
    ensures Truthy(r)
    ensures r == DefaultMaxTokens || Get(store, MaxTokensKey) == Some(r)
    ensures Get(store, MaxTokensKey).Some? && Truthy(Get(store, MaxTokensKey).value) ==> r == Get(store, MaxTokensKey).value
  {
    Or(Get(store, MaxTokensKey), DefaultMaxTokens)
  }

  /** With nothing stored, every setting resolves to its default and there is no API key. */
  lemma UnsetSettingsUseDefaults(store: Store)
    requires ApiKeyKey !in store && SelectedModelKey !in store
    requires TemperatureKey !in store && MaxTokensKey !in store
    ensures !HasApiKey(store)
    ensures SelectedModel(store) == Str("gpt-3.5-turbo")
    ensures CustomTemperature(store) == Num(Finite(0.7))
    ensures CustomMaxTokens(store) == Num(Finite(100.0))
  {
  }

  /**
   * A stored setting is used exactly when it is truthy. In particular a stored
   * temperature 0 (or NaN, from parsing an empty field) becomes 0.7, a stored
   * maxTokens 0 becomes 100 and an empty model name becomes the default model.
   */
  lemma StoredSettingUsedIffTruthy(store: Store, v: Value)
    ensures SelectedModel(store[SelectedModelKey := v]) == if Truthy(v) then v else DefaultModel
    ensures CustomTemperature(store[TemperatureKey := v]) == if Truthy(v) then v else DefaultTemperature
    ensures CustomMaxTokens(store[MaxTokensKey := v]) == if Truthy(v) then v else DefaultMaxTokens
  {
  }

  /** Writing one setting never changes how the other settings resolve. */
  lemma SettingsAreIndependent(store: Store, key: string, v: Value)
    ensures key != ApiKeyKey ==> ApiKey(store[key := v]) == ApiKey(store)
    ensures key != SelectedModelKey ==> SelectedModel(store[key := v]) == SelectedModel(store)
    ensures key != TemperatureKey ==> CustomTemperature(store[key := v]) == CustomTemperature(store)
    ensures key != MaxTokensKey ==> CustomMaxTokens(store[key := v]) == CustomMaxTokens(store)
  {
  }

  /**
   * What `chrome.storage.local.get({history: []})` hands to the append callback:
   * the stored array, `[]` when nothing is stored, and None when the stored
   * value is not an array (its `push` then throws and nothing is written).
   */
  function StoredHistory(store: Store): Option<seq<HistoryEntry>>
  {
    if HistoryKey !in store then Some([])
    else if store[HistoryKey].Entries? then Some(store[HistoryKey].entries)
    else None
  }

  /**
   * The store after `saveInteraction`: exactly one entry appended at the end of
   * the history, every earlier entry and every other key left as it was.
   */
  function AppendInteraction(store: Store, entry: HistoryEntry): (r: Store)
    ensures StoredHistory(store).Some? ==> StoredHistory(r) == Some(StoredHistory(store).value + [entry])
    ensures StoredHistory(store).None? ==> r == store
    ensures forall k :: k != HistoryKey ==> Get(r, k) == Get(store, k)
  {
    match StoredHistory(store)
    case Some(h) => store[HistoryKey := Entries(h + [entry])]
    case None => store
  }

  /** The store after `saveInteraction` has run once per entry, in order. */
  function AppendAll(store: Store, entries: seq<HistoryEntry>): Store
  {
    if entries == [] then store
    else AppendInteraction(AppendAll(store, entries[..|entries| - 1]), entries[|entries| - 1])
  }

  /**
   * The history is append-only: after a run of successful completions the
   * stored history is the old one followed by their entries in order, and no
   * setting has changed.
   */
  lemma {:induction false} HistoryIsAppendOnly(store: Store, entries: seq<HistoryEntry>)
    requires StoredHistory(store).Some?
    ensures StoredHistory(AppendAll(store, entries)) == Some(StoredHistory(store).value + entries)
    ensures forall k :: k != HistoryKey ==> Get(AppendAll(store, entries), k) == Get(store, k)
  {
    if entries != [] {
      var front := entries[..|entries| - 1];
      HistoryIsAppendOnly(store, front);
      var last := entries[|entries| - 1];
      assert entries == front + [last];
      var before := AppendAll(store, front);
      assert AppendAll(store, entries) == AppendInteraction(before, last);
      assert StoredHistory(before) == Some(StoredHistory(store).value + front);
      assert StoredHistory(store).value + front + [last] == StoredHistory(store).value + entries;
    } else {
      assert StoredHistory(store).value + entries == StoredHistory(store).value;
    }
  }
}
