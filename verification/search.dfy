/**
 * The consultation box: the local library context sent along with a question
 * (the items and quotes that mention one of the query's longer words), and the
 * panel's state around the request.
 */
module Search {
  import opened Wrappers
  import opened Types
  import opened Text
  import opened Seqs

  predicate LongWord(w: string) {
    |w| > 3
  }

  /** `query.toLowerCase().split(' ').filter(w => w.length > 3)`; `KeywordsSpec` states what it holds. */
  function Keywords(query: string): seq<string> {
    Filter(Split(ToLower(query), ' '), LongWord)
  }

  /** The keywords are exactly the pieces of the lowercased query longer than 3 characters. */
  lemma KeywordsSpec(query: string)
    ensures forall w :: w in Keywords(query) <==> w in Split(ToLower(query), ' ') && |w| > 3
    ensures forall w :: w in Keywords(query) ==> ' ' !in w
    ensures Keywords(query) == [] <==> forall w :: w in Split(ToLower(query), ' ') ==> |w| <= 3
  {
    SplitNoSeparator(ToLower(query), ' ');
    var ks := Keywords(query);
    assert ks != [] ==> ks[0] in ks;
  }

  /** Some keyword occurs in the lowercased name or, when there is one, the lowercased description. */
  predicate ItemMatches(ks: seq<string>, i: LibraryItem) {
    exists k :: k in ks && (Includes(ToLower(i.name), k) || (i.desc.Some? && Includes(ToLower(i.desc.value), k)))
  }

  predicate QuoteMatches(ks: seq<string>, q: string) {
    exists k :: k in ks && Includes(ToLower(q), k)
  }

  /** The items of `xs` that match, in their order. */
  function RelevantItems(xs: seq<LibraryItem>, ks: seq<string>): seq<LibraryItem> {
    Filter(xs, i => ItemMatches(ks, i))
  }

  /** The quotes of `qs` that match, in their order. */
  function RelevantQuotes(qs: seq<string>, ks: seq<string>): seq<string> {
    Filter(qs, q => QuoteMatches(ks, q))
  }

  /** `RelevantItems` keeps, in order, exactly the matching items, each as often as in `xs`; no keyword matches nothing. */
  lemma RelevantItemsSpec(xs: seq<LibraryItem>, ks: seq<string>)
    ensures IsSubsequence(RelevantItems(xs, ks), xs)
    ensures forall x :: x in RelevantItems(xs, ks) <==> x in xs && ItemMatches(ks, x)
    ensures ks == [] ==> RelevantItems(xs, ks) == []
    ensures forall x :: multiset(RelevantItems(xs, ks))[x] == if ItemMatches(ks, x) then multiset(xs)[x] else 0
  {
    var r := RelevantItems(xs, ks);
    FilterIsSubsequence(xs, i => ItemMatches(ks, i));
    FilterCounts(xs, i => ItemMatches(ks, i));
    assert r != [] ==> r[0] in r;
  }

  /** `RelevantQuotes` keeps, in order, exactly the matching quotes, each as often as in `qs`; no keyword matches nothing. */
  lemma RelevantQuotesSpec(qs: seq<string>, ks: seq<string>)
    ensures IsSubsequence(RelevantQuotes(qs, ks), qs)
    ensures forall q :: q in RelevantQuotes(qs, ks) <==> q in qs && QuoteMatches(ks, q)
    ensures ks == [] ==> RelevantQuotes(qs, ks) == []
    ensures forall q :: multiset(RelevantQuotes(qs, ks))[q] == if QuoteMatches(ks, q) then multiset(qs)[q] else 0
  {
    var r := RelevantQuotes(qs, ks);
    FilterIsSubsequence(qs, q => QuoteMatches(ks, q));
    FilterCounts(qs, q => QuoteMatches(ks, q));
    assert r != [] ==> r[0] in r;
  }

  /** What accompanies the question: `contextItems` and `relevantQuotes`. */
  datatype SearchContext = SearchContext(contextItems: seq<LibraryItem>, quotes: seq<string>)

  /** `contextItems` and `relevantQuotes` for a question; `ContextSpec` states what they hold. */
  function Context(lib: Library, query: string): SearchContext {
    var ks := Keywords(query);
    SearchContext(RelevantItems(lib.mentalModels, ks) + RelevantItems(lib.productivity, ks), RelevantQuotes(lib.quotes, ks))
  }

  /**
   * The context is the matching mental models followed by the matching
   * productivity methods, in order, and the matching quotes, in order; a query
   * without a long word sends no context.
   */
  lemma ContextSpec(lib: Library, query: string)
    ensures IsSubsequence(Context(lib, query).contextItems, lib.mentalModels + lib.productivity)
    ensures forall x :: x in Context(lib, query).contextItems <==>
      (x in lib.mentalModels || x in lib.productivity) && ItemMatches(Keywords(query), x)
    ensures IsSubsequence(Context(lib, query).quotes, lib.quotes)
    ensures forall q :: q in Context(lib, query).quotes <==> q in lib.quotes && QuoteMatches(Keywords(query), q)
    ensures Keywords(query) == [] ==> Context(lib, query).contextItems == [] && Context(lib, query).quotes == []
    ensures forall x :: (multiset(Context(lib, query).contextItems)[x] ==
      if ItemMatches(Keywords(query), x) then multiset(lib.mentalModels + lib.productivity)[x] else 0)
    ensures forall q :: (multiset(Context(lib, query).quotes)[q] ==
      if QuoteMatches(Keywords(query), q) then multiset(lib.quotes)[q] else 0)
  {
    var ks := Keywords(query);
    var p := i => ItemMatches(ks, i);
    RelevantItemsSpec(lib.mentalModels, ks);
    RelevantItemsSpec(lib.productivity, ks);
    RelevantQuotesSpec(lib.quotes, ks);
    FilterConcat(lib.mentalModels, lib.productivity, p);
    FilterIsSubsequence(lib.mentalModels + lib.productivity, p);
    FilterCounts(lib.mentalModels + lib.productivity, p);
  }

  /** A long word of the query found verbatim in a lowercased quote brings that quote along. */
  lemma QuoteFoundByWord(lib: Library, query: string, w: string, q: string)
    requires w in Split(ToLower(query), ' ') && |w| > 3
    requires q in lib.quotes && Includes(ToLower(q), w)
    ensures q in Context(lib, query).quotes
  {
    KeywordsSpec(query);
    assert w in Keywords(query);
    ContextSpec(lib, query);
  }

  /** An investor that is neither a mental model nor a productivity method is never sent. */
  lemma InvestorsExcluded(lib: Library, query: string, x: LibraryItem)
    requires x in lib.investors && x !in lib.mentalModels && x !in lib.productivity
    ensures x !in Context(lib, query).contextItems
  {
    ContextSpec(lib, query);
  }

  /** The request `handleSearch` sends: the question, its context and the persona. */
  datatype SearchRequest = SearchRequest(query: string, context: SearchContext, persona: Option<PersonaConfig>)

  /** `!query.trim()`: the query is empty or white space only (see `Text.TrimBlank`). */
  predicate Blank(query: string) {
    Trim(query) == []
  }

  /** The request for a question, with its context and the persona. */
  function Request(config: AppConfig, query: string): SearchRequest {
    SearchRequest(query, Context(config.library, query), config.persona)
  }

  const NoKeyNotice: string := "Please configure your Gemini API Key in Settings (\U{2699}\U{FE0F}) to consult the AI."
  const ConnectionError: string := "The connection to the spirit realm was interrupted."

  class JaguarSearch {
    var query: string
    var answer: Option<string>
    var loading: bool
    var isOpen: bool
    var error: Option<string>

    constructor()
      ensures query == "" && answer.None? && !loading && !isOpen && error.None?
    {
      query := "";
      answer := None;
      loading := false;
      isOpen := false;
      error := None;
    }

    method SetQuery(q: string)
      modifies this
      ensures query == q && answer == old(answer) && loading == old(loading) && isOpen == old(isOpen) && error == old(error)
    {
      query := q;
    }

    /**
     * `handleSearch` up to the request: a blank query does nothing; without a key
     * the notice is shown and nothing is sent; otherwise the panel opens,
     * clears and waits for the returned request.
     */
    method HandleSearch(config: AppConfig, hasApiKey: bool) returns (request: Option<SearchRequest>)
      modifies this
      ensures query == old(query)
      ensures Blank(query) ==>
        request.None? && answer == old(answer) && loading == old(loading) && isOpen == old(isOpen) && error == old(error)
      ensures !Blank(query) && !hasApiKey ==>
        request.None? && answer == Some(NoKeyNotice) && isOpen && loading == old(loading) && error == old(error)
      ensures !Blank(query) && hasApiKey ==>
        request == Some(Request(config, query)) && loading && isOpen && answer.None? && error.None?
    {
      var q := query;
      if Blank(q) {
        return None;
      }
      if !hasApiKey {
        answer := Some(NoKeyNotice);
        isOpen := true;
        return None;
      }
      var r := Request(config, q);
      loading := true;
      isOpen := true;
      answer := None;
      error := None;
      request := Some(r);
    }

    /** The request settles: `Some(answer)` on success, `None` when it failed; loading always ends. */
    method ReceiveResponse(response: Option<string>)
      modifies this
      ensures !loading && query == old(query) && isOpen == old(isOpen)
      ensures response.Some? ==> answer == response && error == old(error)
      ensures response.None? ==> error == Some(ConnectionError) && answer == old(answer)
    {
      if response.Some? {
        answer := response;
      } else {
        error := Some(ConnectionError);
      }
      loading := false;
    }
  }
}
