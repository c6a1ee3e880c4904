/**
 * The settings view: the export of every stored entry of the app's namespace
 * as one JSON object, and the import of such a text back into storage.
 */
module Settings {
  import opened Wrappers
  import opened Objects
  import opened JsonFormat
  import opened Text
  import opened Store
  import AppShell
  import opened Types
  import Codec

  /** The prefix an exported key starts with. */
  const Namespace: string := "komorebi"

  /** A stored text as exported: parsed when it parses, otherwise the raw string. */
  function ExportValue(v: string): (j: Json)
    ensures Parse(v).Some? ==> j == Parse(v).value
    ensures Parse(v).None? ==> j == JStr(v)
  {
    var p := Parse(v);
    if p.Some? then p.value else JStr(v)
  }

  /** The exported object, by key: the stored keys of the namespace and nothing else. */
  function ExportMap(items: map<string, string>): (m: map<string, Json>)
    ensures forall k :: k in m <==> k in items && StartsWith(k, Namespace)
    ensures forall k :: k in m ==> m[k] == ExportValue(items[k])
  {
    map k | k in items && StartsWith(k, Namespace) :: ExportValue(items[k])
  }

  /** Setting a property of an object with unique keys sets that key of its map. */
  lemma ToMapPut<V>(o: seq<Prop<V>>, k: string, v: V)
    requires UniqueKeys(o)
    ensures ToMap(Put(o, k, v)) == ToMap(o)[k := v]
  {
    var r := Put(o, k, v);
    forall x ensures (x in ToMap(r) <==> x in ToMap(o)[k := v]) && (x in ToMap(r) ==> ToMap(r)[x] == ToMap(o)[k := v][x]) {
      ToMapIsGetLast(r, x);
      ToMapIsGetLast(o, x);
      GetLastUnique(r, x);
      GetLastUnique(o, x);
    }
  }

  /** The part of the export built once the keys `done` have been visited. */
  function PartialExport(items: map<string, string>, done: set<string>): map<string, Json>
    requires done <= items.Keys
  {
    map k | k in done && StartsWith(k, Namespace) :: ExportValue(items[k])
  }

  lemma PartialExportStep(items: map<string, string>, done: set<string>, k: string)
    requires done <= items.Keys && k in items && k !in done
    ensures StartsWith(k, Namespace) ==>
      PartialExport(items, done + {k}) == PartialExport(items, done)[k := ExportValue(items[k])]
    ensures !StartsWith(k, Namespace) ==> PartialExport(items, done + {k}) == PartialExport(items, done)
  {
  }

  /** Visiting one more key keeps `data` a unique-keyed object holding the export so far. */
  lemma ExportStep(items: map<string, string>, data: seq<Prop<Json>>, seen: set<string>, k: string)
    requires seen <= items.Keys && k in items && k !in seen
    requires UniqueKeys(data) && ToMap(data) == PartialExport(items, seen)
    ensures StartsWith(k, Namespace) ==>
      UniqueKeys(Put(data, k, ExportValue(items[k])))
      && ToMap(Put(data, k, ExportValue(items[k]))) == PartialExport(items, seen + {k})
    ensures !StartsWith(k, Namespace) ==> ToMap(data) == PartialExport(items, seen + {k})
  {
    PartialExportStep(items, seen, k);
    if StartsWith(k, Namespace) {
      ToMapPut(data, k, ExportValue(items[k]));
    }
  }

  /** The export loop: each stored key of the namespace, in storage order, set on `data`. */
  method CollectExport(items: map<string, string>) returns (data: seq<Prop<Json>>)
    ensures UniqueKeys(data) && ToMap(data) == ExportMap(items)
  {
    data := [];
    var remaining := items.Keys;
    ghost var seen: set<string> := {};
    while remaining != {}
      invariant remaining + seen == items.Keys && remaining !! seen
      invariant UniqueKeys(data) && ToMap(data) == PartialExport(items, seen)
      decreases remaining
    {
      var k :| k in remaining;
      ExportStep(items, data, seen, k);
      if StartsWith(k, Namespace) {
        data := Put(data, k, ExportValue(items[k]));
      }
      remaining := remaining - {k};
      seen := seen + {k};
    }
    assert PartialExport(items, seen) == ExportMap(items);
  }

  /** `text` is an export of `items`: a JSON object, one member per key, holding `ExportMap(items)`. */
  predicate Exports(text: string, items: map<string, string>) {
    var p := Parse(text);
    p.Some? && p.value.JObj? && UniqueKeys(p.value.members) && ToMap(p.value.members) == ExportMap(items)
  }

  /** What an import writes for every exported key: a string as itself, any other value as JSON text. */
  function Reimported(items: map<string, string>): (m: map<string, string>)
    ensures forall k :: k in m <==> k in items && StartsWith(k, Namespace)
  {
    var e := ExportMap(items);
    map k | k in e :: StoredText(e[k])
  }

  /** Importing an export writes back every key of the namespace, and nothing else. */
  lemma ExportImport(text: string, items: map<string, string>)
    requires Exports(text, items)
    ensures ImportWrites(text) == Some(Reimported(items))
  {
  }

  /** A stored value that is not JSON comes back verbatim. */
  lemma NonJsonRoundTrip(text: string, items: map<string, string>, k: string)
    requires Exports(text, items)
    requires k in items && StartsWith(k, Namespace) && Parse(items[k]).None?
    ensures ImportWrites(text).Some? && k in ImportWrites(text).value
    ensures ImportWrites(text).value[k] == items[k]
  {
    ExportImport(text, items);
  }

  lemma {:induction false} EscapeLength(s: string)
    ensures |Escape(s)| >= |s|
  {
    if s != [] {
      EscapeLength(s[1..]);
    }
  }

  /** A stored JSON string literal comes back without its quotes: not the text that was stored. */
  lemma StringLiteralLosesQuotes(text: string, items: map<string, string>, k: string, s: string)
    requires Exports(text, items)
    requires k in items && StartsWith(k, Namespace) && items[k] == Print(JStr(s))
    ensures ImportWrites(text).Some? && k in ImportWrites(text).value
    ensures ImportWrites(text).value[k] == s && s != items[k]
  {
    ParseRoundTrip(JStr(s));
    ExportImport(text, items);
    EscapeLength(s);
  }

  /** The configuration and the key are part of every export that finds them stored. */
  lemma ExportHasSettings(items: map<string, string>)
    ensures ConfigKey in items ==> ConfigKey in ExportMap(items)
    ensures ApiKeyKey in items ==> ApiKeyKey in ExportMap(items)
  {
    assert ConfigKey[..|Namespace|] == Namespace;
    assert ApiKeyKey[..|Namespace|] == Namespace;
  }

  /** Stored JSON text of a value that is not a string survives an export followed by an import. */
  lemma JsonSurvivesBackup(text: string, items: map<string, string>, k: string, v: Json)
    requires Exports(text, items)
    requires k in items && StartsWith(k, Namespace) && !v.JStr? && items[k] == Print(v)
    ensures ImportWrites(text).Some? && k in ImportWrites(text).value
    ensures ImportWrites(text).value[k] == Print(v)
  {
    ParseRoundTrip(v);
    ExportImport(text, items);
  }

  /** A day record the app saved survives an export followed by an import of that export. */
  lemma DaySurvivesBackup(text: string, items: map<string, string>, date: string, d: DayData)
    requires Exports(text, items)
    requires DayKey(date) in items && items[DayKey(date)] == DayText(d)
    ensures ImportWrites(text).Some? && DayKey(date) in ImportWrites(text).value
    ensures ImportWrites(text).value[DayKey(date)] == DayText(d)
  {
    var k := DayKey(date);
    assert k[..|Namespace|] == Namespace by {
      assert k[..|DayPrefix|] == DayPrefix;
    }
    JsonSurvivesBackup(text, items, k, Codec.EncodeDay(d));
  }

  /** The configuration the editor saved survives an export followed by an import of that export. */
  lemma ConfigSurvivesBackup(text: string, items: map<string, string>, c: AppConfig)
    requires Exports(text, items)
    requires ConfigKey in items && items[ConfigKey] == ConfigText(c)
    ensures ImportWrites(text).Some? && ConfigKey in ImportWrites(text).value
    ensures ImportWrites(text).value[ConfigKey] == ConfigText(c)
  {
    assert ConfigKey[..|Namespace|] == Namespace;
    JsonSurvivesBackup(text, items, ConfigKey, Codec.EncodeConfig(c));
  }

  datatype ImportOutcome = Imported | Rejected

  /** The alert each outcome shows; only a successful import reloads the app. */
  function OutcomeMessage(o: ImportOutcome): (s: string)
    ensures |s| > 0
  {
    match o
    case Imported => "Data imported successfully. The app will reload."
    case Rejected => "Invalid JSON data."
  }

  class SettingsModal {
    var keyInput: string
    var exportData: string

    constructor(apiKey: string)
      ensures keyInput == apiKey && exportData == ""
    {
      keyInput := apiKey;
      exportData := "";
    }

    method SetExportData(text: string)
      modifies this
      ensures exportData == text && keyInput == old(keyInput)
    {
      exportData := text;
    }

    /** Opening the view: the key field shows the saved key and the text area the export. */
    method Open(storage: Store.Storage, apiKey: string)
      modifies this
      ensures keyInput == apiKey
      ensures Exports(exportData, storage.items)
    {
      keyInput := apiKey;
      var data := CollectExport(storage.items);
      ParseRoundTrip(JObj(data));
      exportData := Print(JObj(data));
    }

    /** `handleImport`: the text area goes to the app's import; text it cannot read writes nothing. */
    method HandleImport(app: AppShell.App) returns (outcome: ImportOutcome)
      modifies app.storage
      ensures outcome == Imported <==> ImportWrites(exportData).Some?
      ensures outcome == Imported ==> app.storage.items == old(app.storage.items) + ImportWrites(exportData).value
      ensures outcome == Rejected ==> app.storage.items == old(app.storage.items)
    {
      var ok := app.ImportData(exportData);
      outcome := if ok then Imported else Rejected;
    }
  }
}
