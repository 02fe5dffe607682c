/** The shared-preferences store the preference layer reads and writes.

    Each key holds either a boolean or a string. Reads are typed: asking for a
    string where a boolean is stored (or the other way round) throws
    ClassCastException, and an absent key yields the caller's default. */
module SettingsStore {
  import opened Wrappers
  import opened JavaLang

  datatype StoredValue = BoolValue(b: bool) | StringValue(s: string)

  type Store = map<string, StoredValue>

  /** `SharedPreferences.getString(key, defValue)`; `defValue` may be null. */
  function GetString(store: Store, key: string, defValue: Option<string>): (r: Result<Option<string>, JavaException>)
    ensures key !in store ==> r == Ok(defValue)
    ensures key in store ==> (r.Ok? <==> store[key].StringValue?)
    ensures key in store && r.Ok? ==> r.value == Some(store[key].s)
    ensures r.Err? ==> r.error == ClassCastException
  {
    if key !in store then Ok(defValue)
    else
      match store[key]
      case StringValue(s) => Ok(Some(s))
      case BoolValue(_) => Err(ClassCastException)
  }

  /** `SharedPreferences.getBoolean(key, defValue)`. */
  function GetBoolean(store: Store, key: string, defValue: bool): (r: Result<bool, JavaException>)
    ensures key !in store ==> r == Ok(defValue)
    ensures key in store ==> (r.Ok? <==> store[key].BoolValue?)
    ensures key in store && r.Ok? ==> r.value == store[key].b
    ensures r.Err? ==> r.error == ClassCastException
  {
    if key !in store then Ok(defValue)
    else
      match store[key]
      case BoolValue(b) => Ok(b)
      case StringValue(_) => Err(ClassCastException)
  }

  /** The store after `edit().putString(key, value).apply()`: a null value
      removes the key, any other value replaces whatever the key held. */
  function PutString(store: Store, key: string, value: Option<string>): (r: Store)
    ensures GetString(r, key, None) == Ok(value)
    ensures forall k :: k != key ==> (k in r <==> k in store)
    ensures forall k :: k != key && k in r ==> r[k] == store[k]
  {
    match value
    case Some(v) => store[key := StringValue(v)]
    case None => store - {key}
  }

  /** Writing a key leaves every read of every other key as it was. */
  lemma PutStringFramesOtherKeys(store: Store, key: string, value: Option<string>, other: string)
    requires other != key
    ensures forall d :: GetString(PutString(store, key, value), other, d) == GetString(store, other, d)
    ensures forall d :: GetBoolean(PutString(store, key, value), other, d) == GetBoolean(store, other, d)
  {
  }

  /** The process-wide default preferences, updated in place. */
  class PreferenceStore {
    var entries: Store

    constructor (initial: Store)
      ensures entries == initial
    {
      entries := initial;
    }

    /** `PreferenceUtils.saveString`: `putString` then `apply`, with the write
        taken to be visible at once. */
    method SaveString(key: string, value: Option<string>)
      modifies this
      ensures entries == PutString(old(entries), key, value)
      ensures GetString(entries, key, None) == Ok(value)
      ensures forall k :: k != key ==> (k in entries <==> k in old(entries))
      ensures forall k :: k != key && k in entries ==> entries[k] == old(entries)[k]
    {
      entries := PutString(entries, key, value);
    }
  }
}
