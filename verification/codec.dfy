/**
 * The records as the JSON that `JSON.stringify` writes, and back.
 *
 * Encoders write every field; an absent optional field is left out, as
 * `JSON.stringify` leaves out `undefined`. Decoders read a field as
 * `JSON.parse` builds it (the last duplicate wins, `Lookup`), accept `null` for
 * an optional field, and give `None` for a value not shaped like the record.
 */
module Codec {
  import opened Wrappers
  import opened Objects
  import opened JsonFormat
  import opened Types
  import Seqs

  // ----- field readers and writers -----

  function AsString(j: Json): Option<string> {
    if j.JStr? then Some(j.s) else None
  }

  function StrJson(s: string): Json { JStr(s) }

  /** A required string field. */
  function ReqStr(f: Option<Json>): Option<string> {
    if f.Some? && f.value.JStr? then Some(f.value.s) else None
  }

  /** A required number field. */
  function ReqInt(f: Option<Json>): Option<int> {
    if f.Some? && f.value.JNum? then Some(f.value.n) else None
  }

  /** An optional string field: absent or `null` is `Some(None)`, a string is `Some(Some(s))`. */
  function OptStr(f: Option<Json>): Option<Option<string>> {
    if f.None? || f.value.JNull? then Some(None)
    else if f.value.JStr? then Some(Some(f.value.s))
    else None
  }

  /** An optional number field. */
  function OptInt(f: Option<Json>): Option<Option<int>> {
    if f.None? || f.value.JNull? then Some(None)
    else if f.value.JNum? then Some(Some(f.value.n))
    else None
  }

  function StrField(o: Option<string>): Option<Json> {
    if o.Some? then Some(JStr(o.value)) else None
  }

  function IntField(o: Option<int>): Option<Json> {
    if o.Some? then Some(JNum(o.value)) else None
  }

  /** Writes an optional field only when it is present. */
  function WithOpt(ps: seq<Prop<Json>>, k: string, o: Option<Json>): (r: seq<Prop<Json>>)
    ensures forall k' :: k' != k ==> Lookup(r, k') == Lookup(ps, k')
    ensures Lookup(r, k) == if o.Some? then o else Lookup(ps, k)
  {
    if o.Some? then With(ps, k, o.value) else ps
  }

  function Members(j: Json): seq<Prop<Json>> {
    if j.JObj? then j.members else []
  }

  /** Every element decoded by `dec`, or `None` when one fails. */
  function DecodeAll<T>(es: seq<Json>, dec: Json -> Option<T>): (r: Option<seq<T>>)
    ensures r.Some? ==> |r.value| == |es| && forall i :: 0 <= i < |es| ==> dec(es[i]) == Some(r.value[i])
  {
    if es == [] then Some([])
    else
      match dec(es[0])
      case None => None
      case Some(x) =>
        match DecodeAll(es[1..], dec)
        case None => None
        case Some(xs) => Some([x] + xs)
  }

  function AsArray<T>(j: Json, dec: Json -> Option<T>): Option<seq<T>> {
    if j.JArr? then DecodeAll(j.elems, dec) else None
  }

  function EncodeArray<T>(xs: seq<T>, enc: T -> Json): Json {
    JArr(Seqs.MapSeq(xs, enc))
  }

  lemma {:induction false} DecodeAllRoundTrip<T>(xs: seq<T>, enc: T -> Json, dec: Json -> Option<T>)
    requires forall x :: x in xs ==> dec(enc(x)) == Some(x)
    ensures DecodeAll(Seqs.MapSeq(xs, enc), dec) == Some(xs)
  {
    var es := Seqs.MapSeq(xs, enc);
    if xs != [] {
      assert es[0] == enc(xs[0]);
      assert es[1..] == Seqs.MapSeq(xs[1..], enc);
      DecodeAllRoundTrip(xs[1..], enc, dec);
      assert [xs[0]] + xs[1..] == xs;
    }
  }

  // ----- library -----

  function EncodeLibraryItem(x: LibraryItem): Json {
    JObj(WithOpt(WithOpt(WithOpt(With([], "name", JStr(x.name)), "desc", StrField(x.desc)), "resource", StrField(x.resource)), "years", StrField(x.years)))
  }

  function DecodeLibraryItem(j: Json): Option<LibraryItem> {
    var ms := Members(j);
    var name := ReqStr(Lookup(ms, "name"));
    var desc := OptStr(Lookup(ms, "desc"));
    var resource := OptStr(Lookup(ms, "resource"));
    var years := OptStr(Lookup(ms, "years"));
    if j.JObj? && name.Some? && desc.Some? && resource.Some? && years.Some? then
      Some(LibraryItem(name.value, desc.value, resource.value, years.value))
    else None
  }

  lemma LibraryItemFields(x: LibraryItem)
    ensures Lookup(Members(EncodeLibraryItem(x)), "name") == Some(JStr(x.name))
    ensures Lookup(Members(EncodeLibraryItem(x)), "desc") == StrField(x.desc)
    ensures Lookup(Members(EncodeLibraryItem(x)), "resource") == StrField(x.resource)
    ensures Lookup(Members(EncodeLibraryItem(x)), "years") == StrField(x.years)
  {
    assert "name"[0] != "desc"[0] && "name"[0] != "resource"[0] && "name"[0] != "years"[0];
    assert "desc"[0] != "resource"[0] && "desc"[0] != "years"[0] && "resource"[0] != "years"[0];
    var o1 := With([], "name", JStr(x.name));
    var o2 := WithOpt(o1, "desc", StrField(x.desc));
    var o3 := WithOpt(o2, "resource", StrField(x.resource));
    var o4 := WithOpt(o3, "years", StrField(x.years));
    assert Members(EncodeLibraryItem(x)) == o4;
    assert Lookup(o1, "name") == Some(JStr(x.name)) by {
      assert ToMap(o1) == ToMap<Json>([])["name" := JStr(x.name)];
    }
    assert Lookup(o1, "desc") == None && Lookup(o1, "resource") == None && Lookup(o1, "years") == None by {
      assert ToMap(o1) == ToMap<Json>([])["name" := JStr(x.name)];
    }
    assert Lookup(o4, "name") == Lookup(o3, "name") == Lookup(o2, "name") == Lookup(o1, "name");
    assert Lookup(o4, "desc") == Lookup(o3, "desc") == Lookup(o2, "desc");
    assert Lookup(o4, "resource") == Lookup(o3, "resource");
  }

  lemma DecodeLibraryItemFrom(ms: seq<Prop<Json>>, x: LibraryItem)
    requires Lookup(ms, "name") == Some(JStr(x.name))
    requires Lookup(ms, "desc") == StrField(x.desc)
    requires Lookup(ms, "resource") == StrField(x.resource)
    requires Lookup(ms, "years") == StrField(x.years)
    ensures DecodeLibraryItem(JObj(ms)) == Some(x)
  {
  }

  lemma LibraryItemRoundTrip(x: LibraryItem)
    ensures DecodeLibraryItem(EncodeLibraryItem(x)) == Some(x)
  {
    LibraryItemFields(x);
    DecodeLibraryItemFrom(Members(EncodeLibraryItem(x)), x);
  }

  function EncodeStrings(qs: seq<string>): Json {
    EncodeArray(qs, StrJson)
  }

  function DecodeStrings(j: Json): Option<seq<string>> {
    AsArray(j, AsString)
  }

  lemma StringsRoundTrip(qs: seq<string>)
    ensures DecodeStrings(EncodeStrings(qs)) == Some(qs)
  {
    DecodeAllRoundTrip(qs, StrJson, AsString);
  }

  function EncodeLibraryItems(xs: seq<LibraryItem>): Json {
    EncodeArray(xs, EncodeLibraryItem)
  }

  function DecodeLibraryItems(j: Json): Option<seq<LibraryItem>> {
    AsArray(j, DecodeLibraryItem)
  }

  lemma LibraryItemsRoundTrip(xs: seq<LibraryItem>)
    ensures DecodeLibraryItems(EncodeLibraryItems(xs)) == Some(xs)
  {
    forall x | x in xs
      ensures DecodeLibraryItem(EncodeLibraryItem(x)) == Some(x)
    {
      LibraryItemRoundTrip(x);
    }
    DecodeAllRoundTrip(xs, EncodeLibraryItem, DecodeLibraryItem);
  }

  /** The library object, its four lists already encoded. */
  function LibraryJson(mm: Json, pr: Json, inv: Json, qs: Json): Json {
    JObj(With(With(With(With([], "mentalModels", mm), "productivity", pr), "investors", inv), "quotes", qs))
  }

  function EncodeLibrary(l: Library): Json {
    LibraryJson(EncodeLibraryItems(l.mentalModels), EncodeLibraryItems(l.productivity), EncodeLibraryItems(l.investors), EncodeStrings(l.quotes))
  }

  function DecodeLibrary(j: Json): Option<Library> {
    var ms := Members(j);
    var mm := Lookup(ms, "mentalModels");
    var pr := Lookup(ms, "productivity");
    var inv := Lookup(ms, "investors");
    var qs := Lookup(ms, "quotes");
    if j.JObj? && mm.Some? && pr.Some? && inv.Some? && qs.Some? then
      var mm' := DecodeLibraryItems(mm.value);
      var pr' := DecodeLibraryItems(pr.value);
      var inv' := DecodeLibraryItems(inv.value);
      var qs' := DecodeStrings(qs.value);
      if mm'.Some? && pr'.Some? && inv'.Some? && qs'.Some? then Some(Library(mm'.value, pr'.value, inv'.value, qs'.value))
      else None
    else None
  }

  lemma DecodeLibraryJson(mm: Json, pr: Json, inv: Json, qs: Json, l: Library)
    requires DecodeLibraryItems(mm) == Some(l.mentalModels) && DecodeLibraryItems(pr) == Some(l.productivity)
    requires DecodeLibraryItems(inv) == Some(l.investors) && DecodeStrings(qs) == Some(l.quotes)
    ensures DecodeLibrary(LibraryJson(mm, pr, inv, qs)) == Some(l)
  {
  }

  lemma LibraryRoundTrip(l: Library)
    ensures DecodeLibrary(EncodeLibrary(l)) == Some(l)
  {
    LibraryItemsRoundTrip(l.mentalModels);
    LibraryItemsRoundTrip(l.productivity);
    LibraryItemsRoundTrip(l.investors);
    StringsRoundTrip(l.quotes);
    DecodeLibraryJson(EncodeLibraryItems(l.mentalModels), EncodeLibraryItems(l.productivity), EncodeLibraryItems(l.investors), EncodeStrings(l.quotes), l);
  }

  // ----- protocols -----

  function EncodeItem(i: ProtocolItem): Json {
    JObj(WithOpt(With(With([], "id", JStr(i.id)), "label", JStr(i.itemLabel)), "xp", IntField(i.xp)))
  }

  function DecodeItem(j: Json): Option<ProtocolItem> {
    var ms := Members(j);
    var id := ReqStr(Lookup(ms, "id"));
    var lbl := ReqStr(Lookup(ms, "label"));
    var xp := OptInt(Lookup(ms, "xp"));
    if j.JObj? && id.Some? && lbl.Some? && xp.Some? then Some(ProtocolItem(id.value, lbl.value, xp.value)) else None
  }

  lemma ItemRoundTrip(i: ProtocolItem)
    ensures DecodeItem(EncodeItem(i)) == Some(i)
  {
  }

  function EncodeItems(items: seq<ProtocolItem>): Json {
    EncodeArray(items, EncodeItem)
  }

  function DecodeItems(j: Json): Option<seq<ProtocolItem>> {
    AsArray(j, DecodeItem)
  }

  lemma ItemsRoundTrip(items: seq<ProtocolItem>)
    ensures DecodeItems(EncodeItems(items)) == Some(items)
  {
    forall i | i in items
      ensures DecodeItem(EncodeItem(i)) == Some(i)
    {
      ItemRoundTrip(i);
    }
    DecodeAllRoundTrip(items, EncodeItem, DecodeItem);
  }

  function ScoringField(t: Option<ScoringType>): Option<Json> {
    match t
    case None => None
    case Some(CountMultiplier) => Some(JStr("count_multiplier"))
    case Some(Sum) => Some(JStr("sum"))
  }

  /** The `scoringType` field: absent or `null`, or one of the two names. */
  function OptScoring(f: Option<Json>): Option<Option<ScoringType>> {
    if f.None? || f.value.JNull? then Some(None)
    else if f.value == JStr("count_multiplier") then Some(Some(CountMultiplier))
    else if f.value == JStr("sum") then Some(Some(Sum))
    else None
  }

  /** A card object, its item list and details already encoded. */
  function CardJson(c: ProtocolCard, items: Json, details: Option<Json>): Json {
    JObj(WithOpt(With(WithOpt(WithOpt(With(With(With([],
      "id", JStr(c.id)),
      "title", JStr(c.title)),
      "maxXP", JNum(c.maxXP)),
      "scoringType", ScoringField(c.scoringType)),
      "perItemXP", IntField(c.perItemXP)),
      "items", items),
      "details", details))
  }

  function EncodeCard(c: ProtocolCard): Json {
    CardJson(c, EncodeItems(c.items), if c.details.Some? then Some(EncodeStrings(c.details.value)) else None)
  }

  function DecodeCard(j: Json): Option<ProtocolCard> {
    var ms := Members(j);
    var id := ReqStr(Lookup(ms, "id"));
    var title := ReqStr(Lookup(ms, "title"));
    var maxXP := ReqInt(Lookup(ms, "maxXP"));
    var scoring := OptScoring(Lookup(ms, "scoringType"));
    var perItem := OptInt(Lookup(ms, "perItemXP"));
    var items := Lookup(ms, "items");
    var details := Lookup(ms, "details");
    if j.JObj? && id.Some? && title.Some? && maxXP.Some? && scoring.Some? && perItem.Some? && items.Some? then
      var items' := DecodeItems(items.value);
      var details' := if details.None? || details.value.JNull? then Some(None)
                      else if DecodeStrings(details.value).Some? then Some(DecodeStrings(details.value))
                      else None;
      if items'.Some? && details'.Some? then
        Some(ProtocolCard(id.value, title.value, maxXP.value, scoring.value, perItem.value, items'.value, details'.value))
      else None
    else None
  }

  lemma CardJsonId(c: ProtocolCard, items: Json, details: Option<Json>)
    ensures Lookup(Members(CardJson(c, items, details)), "id") == Some(JStr(c.id))
  {
  }

  lemma CardJsonTitle(c: ProtocolCard, items: Json, details: Option<Json>)
    ensures Lookup(Members(CardJson(c, items, details)), "title") == Some(JStr(c.title))
  {
  }

  lemma CardJsonMaxXP(c: ProtocolCard, items: Json, details: Option<Json>)
    ensures Lookup(Members(CardJson(c, items, details)), "maxXP") == Some(JNum(c.maxXP))
  {
  }

  lemma CardJsonScoring(c: ProtocolCard, items: Json, details: Option<Json>)
    ensures Lookup(Members(CardJson(c, items, details)), "scoringType") == ScoringField(c.scoringType)
    ensures Lookup(Members(CardJson(c, items, details)), "perItemXP") == IntField(c.perItemXP)
  {
  }

  lemma CardJsonTail(c: ProtocolCard, items: Json, details: Option<Json>)
    ensures Lookup(Members(CardJson(c, items, details)), "items") == Some(items)
    ensures Lookup(Members(CardJson(c, items, details)), "details") == details
  {
  }

  lemma DecodeCardFrom(ms: seq<Prop<Json>>, c: ProtocolCard)
    requires Lookup(ms, "id") == Some(JStr(c.id))
    requires Lookup(ms, "title") == Some(JStr(c.title))
    requires Lookup(ms, "maxXP") == Some(JNum(c.maxXP))
    requires Lookup(ms, "scoringType") == ScoringField(c.scoringType)
    requires Lookup(ms, "perItemXP") == IntField(c.perItemXP)
    requires Lookup(ms, "items").Some? && DecodeItems(Lookup(ms, "items").value) == Some(c.items)
    requires Lookup(ms, "details").Some? <==> c.details.Some?
    requires c.details.Some? ==> !Lookup(ms, "details").value.JNull? && DecodeStrings(Lookup(ms, "details").value) == c.details
    ensures DecodeCard(JObj(ms)) == Some(c)
  {
  }

  lemma CardRoundTrip(c: ProtocolCard)
    ensures DecodeCard(EncodeCard(c)) == Some(c)
  {
    ItemsRoundTrip(c.items);
    if c.details.Some? {
      StringsRoundTrip(c.details.value);
    }
    var details := if c.details.Some? then Some(EncodeStrings(c.details.value)) else None;
    CardJsonId(c, EncodeItems(c.items), details);
    CardJsonTitle(c, EncodeItems(c.items), details);
    CardJsonMaxXP(c, EncodeItems(c.items), details);
    CardJsonScoring(c, EncodeItems(c.items), details);
    CardJsonTail(c, EncodeItems(c.items), details);
    DecodeCardFrom(Members(CardJson(c, EncodeItems(c.items), details)), c);
  }

  function EncodeCards(cards: seq<ProtocolCard>): Json {
    EncodeArray(cards, EncodeCard)
  }

  function DecodeCards(j: Json): Option<seq<ProtocolCard>> {
    AsArray(j, DecodeCard)
  }

  lemma CardsRoundTrip(cards: seq<ProtocolCard>)
    ensures DecodeCards(EncodeCards(cards)) == Some(cards)
  {
    forall c | c in cards
      ensures DecodeCard(EncodeCard(c)) == Some(c)
    {
      CardRoundTrip(c);
    }
    DecodeAllRoundTrip(cards, EncodeCard, DecodeCard);
  }

  function SectionJson(s: ProtocolSection, cards: Json): Json {
    JObj(With(With(With([], "title", JStr(s.title)), "columns", JNum(s.columns)), "cards", cards))
  }

  function EncodeSection(s: ProtocolSection): Json {
    SectionJson(s, EncodeCards(s.cards))
  }

  function DecodeSection(j: Json): Option<ProtocolSection> {
    var ms := Members(j);
    var title := ReqStr(Lookup(ms, "title"));
    var columns := ReqInt(Lookup(ms, "columns"));
    var cards := Lookup(ms, "cards");
    if j.JObj? && title.Some? && columns.Some? && cards.Some? && DecodeCards(cards.value).Some? then
      Some(ProtocolSection(title.value, columns.value, DecodeCards(cards.value).value))
    else None
  }

  lemma DecodeSectionJson(s: ProtocolSection, cards: Json)
    requires DecodeCards(cards) == Some(s.cards)
    ensures DecodeSection(SectionJson(s, cards)) == Some(s)
  {
  }

  lemma SectionRoundTrip(s: ProtocolSection)
    ensures DecodeSection(EncodeSection(s)) == Some(s)
  {
    CardsRoundTrip(s.cards);
    DecodeSectionJson(s, EncodeCards(s.cards));
  }

  function EncodeProtocols(ps: seq<ProtocolSection>): Json {
    EncodeArray(ps, EncodeSection)
  }

  function DecodeProtocols(j: Json): Option<seq<ProtocolSection>> {
    AsArray(j, DecodeSection)
  }

  lemma ProtocolsRoundTrip(ps: seq<ProtocolSection>)
    ensures DecodeProtocols(EncodeProtocols(ps)) == Some(ps)
  {
    forall s | s in ps
      ensures DecodeSection(EncodeSection(s)) == Some(s)
    {
      SectionRoundTrip(s);
    }
    DecodeAllRoundTrip(ps, EncodeSection, DecodeSection);
  }

  // ----- the rest of the configuration -----

  function EncodeWorkout(w: Workout): Json {
    JObj(With(With([], "t", JStr(w.t)), "d", JStr(w.d)))
  }

  function DecodeWorkout(j: Json): Option<Workout> {
    var ms := Members(j);
    var t := ReqStr(Lookup(ms, "t"));
    var d := ReqStr(Lookup(ms, "d"));
    if j.JObj? && t.Some? && d.Some? then Some(Workout(t.value, d.value)) else None
  }

  lemma WorkoutRoundTrip(w: Workout)
    ensures DecodeWorkout(EncodeWorkout(w)) == Some(w)
  {
  }

  function EncodeWorkouts(ws: seq<Workout>): Json {
    EncodeArray(ws, EncodeWorkout)
  }

  function DecodeWorkouts(j: Json): Option<seq<Workout>> {
    AsArray(j, DecodeWorkout)
  }

  lemma WorkoutsRoundTrip(ws: seq<Workout>)
    ensures DecodeWorkouts(EncodeWorkouts(ws)) == Some(ws)
  {
    forall w | w in ws
      ensures DecodeWorkout(EncodeWorkout(w)) == Some(w)
    {
      WorkoutRoundTrip(w);
    }
    DecodeAllRoundTrip(ws, EncodeWorkout, DecodeWorkout);
  }

  function EncodePersona(p: PersonaConfig): Json {
    JObj(With(With(With([], "anima", JStr(p.anima)), "archetype", JStr(p.archetype)), "symbol", JStr(p.symbol)))
  }

  function DecodePersona(j: Json): Option<PersonaConfig> {
    var ms := Members(j);
    var a := ReqStr(Lookup(ms, "anima"));
    var t := ReqStr(Lookup(ms, "archetype"));
    var s := ReqStr(Lookup(ms, "symbol"));
    if j.JObj? && a.Some? && t.Some? && s.Some? then Some(PersonaConfig(a.value, t.value, s.value)) else None
  }

  lemma PersonaRoundTrip(p: PersonaConfig)
    ensures DecodePersona(EncodePersona(p)) == Some(p)
  {
  }

  function EncodeLevels(l: Levels): Json {
    JObj(With(With(With([], "elite", JNum(l.elite)), "strong", JNum(l.strong)), "survival", JNum(l.survival)))
  }

  function DecodeLevels(j: Json): Option<Levels> {
    var ms := Members(j);
    var e := ReqInt(Lookup(ms, "elite"));
    var s := ReqInt(Lookup(ms, "strong"));
    var v := ReqInt(Lookup(ms, "survival"));
    if j.JObj? && e.Some? && s.Some? && v.Some? then Some(Levels(e.value, s.value, v.value)) else None
  }

  lemma LevelsRoundTrip(l: Levels)
    ensures DecodeLevels(EncodeLevels(l)) == Some(l)
  {
  }

  /** The configuration object, its six fields already encoded. */
  function ConfigJson(levels: Json, maxXP: int, persona: Json, library: Json, workouts: Json, protocols: Json): Json {
    JObj(With(With(With(With(With(With([],
      "levels", levels),
      "maxXP", JNum(maxXP)),
      "persona", persona),
      "library", library),
      "workouts", workouts),
      "protocols", protocols))
  }

  /** `JSON.stringify(config)`; an absent persona is the `null` it can only have come from. */
  function EncodeConfig(c: AppConfig): Json {
    ConfigJson(
      EncodeLevels(c.levels),
      c.maxXP,
      if c.persona.Some? then EncodePersona(c.persona.value) else JNull,
      EncodeLibrary(c.library),
      EncodeWorkouts(c.workouts),
      EncodeProtocols(c.protocols))
  }

  /** The `persona` field of a merge: a saved `null` removes the persona. */
  function MergePersona(f: Option<Json>, base: Option<PersonaConfig>): (r: Option<PersonaConfig>)
    ensures f.None? ==> r == base
    ensures f == Some(JNull) ==> r.None?
  {
    if f.None? then base
    else if f.value.JNull? then None
    else if DecodePersona(f.value).Some? then DecodePersona(f.value)
    else base
  }

  /**
   * `{ ...base, ...parsed }` read as a configuration: each field present in the
   * saved object replaces the base one, each missing field keeps it. Spreading a
   * value that is not an object contributes no configuration field (the index
   * keys of an array or a string are digits), so only an object's members are read.
   */
  function MergeConfig(base: AppConfig, parsed: Json): (r: AppConfig)
    ensures !parsed.JObj? ==> r == base
  {
    var ms := Members(parsed);
    var levels := Lookup(ms, "levels");
    var maxXP := Lookup(ms, "maxXP");
    var library := Lookup(ms, "library");
    var workouts := Lookup(ms, "workouts");
    var protocols := Lookup(ms, "protocols");
    AppConfig(
      if levels.Some? && DecodeLevels(levels.value).Some? then DecodeLevels(levels.value).value else base.levels,
      if maxXP.Some? && maxXP.value.JNum? then maxXP.value.n else base.maxXP,
      MergePersona(Lookup(ms, "persona"), base.persona),
      if library.Some? && DecodeLibrary(library.value).Some? then DecodeLibrary(library.value).value else base.library,
      if workouts.Some? && DecodeWorkouts(workouts.value).Some? then DecodeWorkouts(workouts.value).value else base.workouts,
      if protocols.Some? && DecodeProtocols(protocols.value).Some? then DecodeProtocols(protocols.value).value else base.protocols)
  }

  /** Saved keys override the base and missing keys keep it, field by field. */
  lemma MergeFields(base: AppConfig, ms: seq<Prop<Json>>)
    ensures "levels" !in ToMap(ms) ==> MergeConfig(base, JObj(ms)).levels == base.levels
    ensures "maxXP" !in ToMap(ms) ==> MergeConfig(base, JObj(ms)).maxXP == base.maxXP
    ensures "persona" !in ToMap(ms) ==> MergeConfig(base, JObj(ms)).persona == base.persona
    ensures "library" !in ToMap(ms) ==> MergeConfig(base, JObj(ms)).library == base.library
    ensures "workouts" !in ToMap(ms) ==> MergeConfig(base, JObj(ms)).workouts == base.workouts
    ensures "protocols" !in ToMap(ms) ==> MergeConfig(base, JObj(ms)).protocols == base.protocols
    ensures forall n :: Lookup(ms, "maxXP") == Some(JNum(n)) ==> MergeConfig(base, JObj(ms)).maxXP == n
    ensures Lookup(ms, "persona") == Some(JNull) ==> MergeConfig(base, JObj(ms)).persona.None?
  {
  }

  lemma ConfigJsonFields(levels: Json, maxXP: int, persona: Json, library: Json, workouts: Json, protocols: Json)
    ensures Lookup(Members(ConfigJson(levels, maxXP, persona, library, workouts, protocols)), "levels") == Some(levels)
    ensures Lookup(Members(ConfigJson(levels, maxXP, persona, library, workouts, protocols)), "maxXP") == Some(JNum(maxXP))
    ensures Lookup(Members(ConfigJson(levels, maxXP, persona, library, workouts, protocols)), "persona") == Some(persona)
    ensures Lookup(Members(ConfigJson(levels, maxXP, persona, library, workouts, protocols)), "library") == Some(library)
    ensures Lookup(Members(ConfigJson(levels, maxXP, persona, library, workouts, protocols)), "workouts") == Some(workouts)
    ensures Lookup(Members(ConfigJson(levels, maxXP, persona, library, workouts, protocols)), "protocols") == Some(protocols)
  {
  }

  lemma MergeConfigFrom(base: AppConfig, c: AppConfig, ms: seq<Prop<Json>>)
    requires Lookup(ms, "levels").Some? && DecodeLevels(Lookup(ms, "levels").value) == Some(c.levels)
    requires Lookup(ms, "maxXP") == Some(JNum(c.maxXP))
    requires Lookup(ms, "persona").Some?
    requires c.persona.None? ==> Lookup(ms, "persona").value == JNull
    requires c.persona.Some? ==> DecodePersona(Lookup(ms, "persona").value) == c.persona && !Lookup(ms, "persona").value.JNull?
    requires Lookup(ms, "library").Some? && DecodeLibrary(Lookup(ms, "library").value) == Some(c.library)
    requires Lookup(ms, "workouts").Some? && DecodeWorkouts(Lookup(ms, "workouts").value) == Some(c.workouts)
    requires Lookup(ms, "protocols").Some? && DecodeProtocols(Lookup(ms, "protocols").value) == Some(c.protocols)
    ensures MergeConfig(base, JObj(ms)) == c
  {
  }

  /** A saved configuration replaces every field of the base it is merged over. */
  lemma ConfigRoundTrip(base: AppConfig, c: AppConfig)
    ensures MergeConfig(base, EncodeConfig(c)) == c
  {
    var persona := if c.persona.Some? then EncodePersona(c.persona.value) else JNull;
    LevelsRoundTrip(c.levels);
    if c.persona.Some? {
      PersonaRoundTrip(c.persona.value);
    }
    LibraryRoundTrip(c.library);
    WorkoutsRoundTrip(c.workouts);
    ProtocolsRoundTrip(c.protocols);
    ConfigJsonFields(EncodeLevels(c.levels), c.maxXP, persona, EncodeLibrary(c.library), EncodeWorkouts(c.workouts), EncodeProtocols(c.protocols));
    MergeConfigFrom(base, c, Members(EncodeConfig(c)));
  }

  // ----- day records -----

  function BoolJson(b: bool): Json { JBool(b) }

  function EncodeChecked(checked: seq<Prop<bool>>): Json {
    JObj(MapValues(checked, BoolJson))
  }

  /** A parsed `checkedItems` object: duplicates resolved, each value read by its truthiness. */
  function DecodeChecked(j: Json): Option<seq<Prop<bool>>> {
    if j.JObj? then Some(Assign([], MapValues(j.members, Truthy))) else None
  }

  function DayJson(d: DayData, checked: Json): Json {
    JObj(With(With(With([], "date", JStr(d.date)), "checkedItems", checked), "note", JStr(d.note)))
  }

  function EncodeDay(d: DayData): Json {
    DayJson(d, EncodeChecked(d.checkedItems))
  }

  function DecodeDay(j: Json): (r: Option<DayData>)
    ensures r.Some? ==> ValidDay(r.value)
  {
    var ms := Members(j);
    var date := ReqStr(Lookup(ms, "date"));
    var checked := Lookup(ms, "checkedItems");
    var note := ReqStr(Lookup(ms, "note"));
    if j.JObj? && date.Some? && checked.Some? && note.Some? && DecodeChecked(checked.value).Some? then
      Some(DayData(date.value, DecodeChecked(checked.value).value, note.value))
    else None
  }

  lemma CheckedRoundTrip(checked: seq<Prop<bool>>)
    requires UniqueKeys(checked)
    ensures DecodeChecked(EncodeChecked(checked)) == Some(checked)
  {
    var back := MapValues(MapValues(checked, BoolJson), Truthy);
    MapValuesInverse(checked, BoolJson, Truthy);
    assert [] + back == back;
    AssignUnique([], back);
  }

  lemma DayRoundTrip(d: DayData)
    requires ValidDay(d)
    ensures DecodeDay(EncodeDay(d)) == Some(d)
  {
    CheckedRoundTrip(d.checkedItems);
    assert DecodeChecked(EncodeChecked(d.checkedItems)) == Some(d.checkedItems);
  }
}
