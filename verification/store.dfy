/**
 * The browser store the app keeps everything in, and what the app reads back
 * from it: the configuration, the API key, one day's record, the history index,
 * and the key/value pairs an import writes.
 */
module Store {
  import opened Wrappers
  import opened Objects
  import opened JsonFormat
  import opened Types
  import opened Codec
  import opened Text
  import Numbers

  const ConfigKey := "komorebi_config_v1"
  const ApiKeyKey := "komorebi_gemini_key"
  const DayPrefix := "komorebi_day_"

  /** `localStorage`: a string-to-string map. */
  class Storage {
    var items: map<string, string>

    constructor(initial: map<string, string>)
      ensures items == initial
    {
      items := initial;
    }

    /** `getItem(k)`: `null` when the key is absent. */
    function GetItem(k: string): (r: Option<string>)
      reads this
      ensures r.Some? <==> k in items
      ensures r.Some? ==> r.value == items[k]
    {
      if k in items then Some(items[k]) else None
    }

    method SetItem(k: string, v: string)
      modifies this
      ensures items == old(items)[k := v]
    {
      items := items[k := v];
    }
  }

  /** The stored text under `k` when it is truthy (present and not empty). */
  function Saved(items: map<string, string>, k: string): (r: Option<string>)
    ensures r.Some? <==> k in items && items[k] != ""
    ensures r.Some? ==> r.value == items[k]
  {
    if k in items && items[k] != "" then Some(items[k]) else None
  }

  /** `getDayKey(date)`. */
  function DayKey(date: string): (k: string)
    ensures StartsWith(k, DayPrefix) && k[|DayPrefix|..] == date
  {
    DayPrefix + date
  }

  /** Different dates are stored under different keys. */
  lemma DayKeyInjective(a: string, b: string)
    requires DayKey(a) == DayKey(b)
    ensures a == b
  {
    assert a == DayKey(a)[|DayPrefix|..];
  }

  /** A key with the day prefix is the day key of what follows the prefix. */
  lemma DayKeyOfSuffix(k: string)
    requires StartsWith(k, DayPrefix)
    ensures DayKey(k[|DayPrefix|..]) == k
  {
    assert k == k[..|DayPrefix|] + k[|DayPrefix|..];
  }

  /** The configuration and API-key entries are never taken for days. */
  lemma SettingsAreNotDays()
    ensures !StartsWith(ConfigKey, DayPrefix) && !StartsWith(ApiKeyKey, DayPrefix)
  {
    assert ConfigKey[..|DayPrefix|][9] != DayPrefix[9];
    assert ApiKeyKey[..|DayPrefix|][9] != DayPrefix[9];
  }

  // ----- configuration -----

  /**
   * The configuration after start-up: the saved object spread over `base`, or
   * `base` itself when nothing truthy is saved or the text does not parse.
   */
  function LoadedConfig(items: map<string, string>, base: AppConfig): (r: AppConfig)
    ensures Saved(items, ConfigKey).None? ==> r == base
    ensures Saved(items, ConfigKey).Some? && Parse(items[ConfigKey]).None? ==> r == base
    ensures Saved(items, ConfigKey).Some? && Parse(items[ConfigKey]).Some?
      ==> r == MergeConfig(base, Parse(items[ConfigKey]).value)
  {
    var saved := Saved(items, ConfigKey);
    if saved.Some? then
      var parsed := Parse(saved.value);
      if parsed.Some? then MergeConfig(base, parsed.value) else base
    else base
  }

  /** The text `handleUpdateConfig` stores. */
  function ConfigText(c: AppConfig): string {
    Print(EncodeConfig(c))
  }

  /** A configuration saved by the editor is what the next start-up loads. */
  lemma ConfigSaveLoad(items: map<string, string>, base: AppConfig, c: AppConfig)
    ensures LoadedConfig(items[ConfigKey := ConfigText(c)], base) == c
  {
    var text := ConfigText(c);
    PrintStart(EncodeConfig(c));
    ParseRoundTrip(EncodeConfig(c));
    ConfigRoundTrip(base, c);
    assert Saved(items[ConfigKey := text], ConfigKey) == Some(text);
  }

  // ----- one day -----

  /**
   * The record shown for `date`: the saved one, or the empty record when none
   * is saved, the text does not parse, or it is not shaped like a day.
   */
  function LoadedDay(items: map<string, string>, date: string): (r: DayData)
    ensures Saved(items, DayKey(date)).None? ==> r == EmptyDay(date)
    ensures r == EmptyDay(date) || (Saved(items, DayKey(date)).Some? && Parse(items[DayKey(date)]).Some?
      && DecodeDay(Parse(items[DayKey(date)]).value) == Some(r))
    ensures Saved(items, DayKey(date)).Some? && Parse(items[DayKey(date)]).Some?
      && DecodeDay(Parse(items[DayKey(date)]).value).Some?
      ==> r == DecodeDay(Parse(items[DayKey(date)]).value).value
    ensures Saved(items, DayKey(date)).Some? && Parse(items[DayKey(date)]).Some?
      && DecodeDay(Parse(items[DayKey(date)]).value).None?
      ==> r == EmptyDay(date)
  {
    var saved := Saved(items, DayKey(date));
    if saved.Some? then
      var parsed := Parse(saved.value);
      if parsed.Some? && DecodeDay(parsed.value).Some? then DecodeDay(parsed.value).value else EmptyDay(date)
    else EmptyDay(date)
  }

  /** The text `handleSaveDay` stores. */
  function DayText(d: DayData): string {
    Print(EncodeDay(d))
  }

  /** A saved day is what loading its date gives back. */
  lemma DaySaveLoad(items: map<string, string>, date: string, d: DayData)
    requires ValidDay(d)
    ensures LoadedDay(items[DayKey(date) := DayText(d)], date) == d
  {
    PrintStart(EncodeDay(d));
    ParseRoundTrip(EncodeDay(d));
    DayRoundTrip(d);
    assert Saved(items[DayKey(date) := DayText(d)], DayKey(date)) == Some(DayText(d));
  }

  // ----- the history index -----

  /**
   * `h` indexes the keys `keys` of `items`: one entry per day key among them
   * whose text parses, under the date after the prefix, holding the parsed value.
   */
  ghost predicate IndexOf(h: map<string, Json>, items: map<string, string>, keys: set<string>) {
    (forall date :: date in h ==> DayKey(date) in keys && DayKey(date) in items && Parse(items[DayKey(date)]) == Some(h[date]))
    && (forall k :: k in keys && k in items && StartsWith(k, DayPrefix) && Parse(items[k]).Some? ==> k[|DayPrefix|..] in h)
  }

  /** `h` is the index the start-up scan builds from the whole store. */
  ghost predicate IsHistoryOf(h: map<string, Json>, items: map<string, string>) {
    IndexOf(h, items, items.Keys)
  }

  /** The start-up scan over every stored key (`localStorage.key(i)` in any order). */
  method ScanHistory(items: map<string, string>) returns (hist: map<string, Json>)
    ensures IsHistoryOf(hist, items)
  {
    hist := map[];
    var remaining := items.Keys;
    ghost var seen: set<string> := {};
    while remaining != {}
      invariant remaining + seen == items.Keys && remaining !! seen
      invariant IndexOf(hist, items, seen)
      decreases remaining
    {
      var k :| k in remaining;
      if StartsWith(k, DayPrefix) {
        var parsed := Parse(items[k]);
        if parsed.Some? {
          DayKeyOfSuffix(k);
          hist := hist[k[|DayPrefix|..] := parsed.value];
        }
      }
      remaining := remaining - {k};
      seen := seen + {k};
    }
  }

  /** Saving a day keeps the index and the store in step, whatever else they hold. */
  lemma SaveKeepsHistory(h: map<string, Json>, items: map<string, string>, date: string, d: DayData)
    requires IsHistoryOf(h, items)
    ensures IsHistoryOf(h[date := EncodeDay(d)], items[DayKey(date) := DayText(d)])
  {
    var h', items' := h[date := EncodeDay(d)], items[DayKey(date) := DayText(d)];
    ParseRoundTrip(EncodeDay(d));
    forall date' | date' in h' ensures DayKey(date') in items'.Keys && DayKey(date') in items' && Parse(items'[DayKey(date')]) == Some(h'[date']) {
      if date' != date {
        if DayKey(date') == DayKey(date) {
          DayKeyInjective(date', date);
        }
      }
    }
    forall k | k in items'.Keys && k in items' && StartsWith(k, DayPrefix) && Parse(items'[k]).Some? ensures k[|DayPrefix|..] in h' {
      if k != DayKey(date) {
        assert k in items;
      }
    }
  }

  // ----- import -----

  /** The text an imported value is stored as: a string verbatim, anything else printed. */
  function StoredText(v: Json): (r: string)
    ensures v.JStr? ==> r == v.s
    ensures !v.JStr? ==> Parse(r) == Some(v)
  {
    ParseRoundTrip(v);
    if v.JStr? then v.s else Print(v)
  }

  /** Index keys `"0"`, `"1"`, … mapped to the stored text of each element. */
  function IndexMap<T>(xs: seq<T>, f: T -> string): (r: map<string, string>)
    ensures forall i :: 0 <= i < |xs| ==> Numbers.NatToString(i) in r && r[Numbers.NatToString(i)] == f(xs[i])
    ensures forall k :: k in r ==> exists i :: 0 <= i < |xs| && k == Numbers.NatToString(i)
  {
    if xs == [] then map[]
    else
      var n := |xs| - 1;
      var r := IndexMap(xs[..n], f)[Numbers.NatToString(n) := f(xs[n])];
      assert forall i :: 0 <= i < n ==> Numbers.NatToString(i) != Numbers.NatToString(n) by {
        forall i | 0 <= i < n ensures Numbers.NatToString(i) != Numbers.NatToString(n) {
          Numbers.NatToStringValue(i);
          Numbers.NatToStringValue(n);
        }
      }
      r
  }

  function CharText(c: char): string { [c] }

  /**
   * The keys and texts `handleImportData` writes for a parsed value
   * (`Object.keys(data)`): an object's own keys, an array's or a string's
   * indices, nothing for a number or a boolean. `Object.keys(null)` throws
   * before any write: `None`.
   */
  function ImportEntries(data: Json): (r: Option<map<string, string>>)
    ensures r.None? <==> data.JNull?
    ensures data.JObj? ==> r.Some? && r.value.Keys == ToMap(data.members).Keys
    ensures data.JObj? ==> forall k :: k in r.value ==> r.value[k] == StoredText(ToMap(data.members)[k])
  {
    match data
    case JNull => None
    case JBool(_) => Some(map[])
    case JNum(_) => Some(map[])
    case JStr(s) => Some(IndexMap(s, CharText))
    case JArr(es) => Some(IndexMap(es, StoredText))
    case JObj(ms) => var m := ToMap(ms); Some(map k | k in m :: StoredText(m[k]))
  }

  /** What an import writes for a text: `None` when `JSON.parse` or `Object.keys` throws. */
  function ImportWrites(text: string): (r: Option<map<string, string>>)
    ensures Parse(text).None? ==> r.None?
  {
    var parsed := Parse(text);
    if parsed.Some? then ImportEntries(parsed.value) else None
  }

  /** The entries of `m` whose keys are in `keys`. */
  function Restrict(m: map<string, string>, keys: set<string>): (r: map<string, string>)
    ensures r.Keys == m.Keys * keys
    ensures forall k :: k in r ==> r[k] == m[k]
  {
    map k | k in m.Keys * keys :: m[k]
  }

  lemma RestrictStep(start: map<string, string>, m: map<string, string>, done: set<string>, k: string)
    requires k in m
    ensures (start + Restrict(m, done))[k := m[k]] == start + Restrict(m, done + {k})
  {
  }

  /** `Object.keys(data).forEach(k => setItem(k, …))`: every entry written, keys in any order. */
  method WriteAll(storage: Storage, m: map<string, string>)
    modifies storage
    ensures storage.items == old(storage.items) + m
  {
    var remaining := m.Keys;
    ghost var done: set<string> := {};
    ghost var start := storage.items;
    while remaining != {}
      invariant remaining + done == m.Keys && remaining !! done
      invariant storage.items == start + Restrict(m, done)
      decreases remaining
    {
      var k :| k in remaining;
      RestrictStep(start, m, done, k);
      storage.SetItem(k, m[k]);
      remaining := remaining - {k};
      done := done + {k};
    }
    assert Restrict(m, done) == m;
  }

  /** An imported string value is stored verbatim under its key. */
  lemma ImportStringVerbatim(ms: seq<Prop<Json>>, k: string, s: string)
    requires Lookup(ms, k) == Some(JStr(s))
    ensures ImportEntries(JObj(ms)).Some?
    ensures k in ImportEntries(JObj(ms)).value && ImportEntries(JObj(ms)).value[k] == s
  {
  }
}
