/**
 * The search page: a debounced query over the game catalogue. When the
 * debounce timer fires, a fetch starts only for an empty query (list all)
 * or one of two or more characters; the fetch's outcome then sets either
 * the game list or an error message, and always clears `loading`. The view
 * shows exactly one of: a loading notice, the error, a "no games" notice,
 * or the game cards.
 */
module SearchPage {
  import opened Wrappers
  import opened JsString

  /** A catalogue entry as the page reads it. */
  datatype Game = Game(id: int, name: string, backgroundImage: string, rating: real)

  /**
   * How an awaited request ended: an HTTP response (`ok`, and the decoded
   * `results` when the body parsed), or a rejected `fetch`.
   */
  datatype Outcome =
    | Response(ok: bool, body: Option<seq<Game>>)
    | NetworkError

  /** The one message the page shows for every failure. */
  const LoadErrorMessage: string := "Erro ao carregar jogos. Tente novamente mais tarde."

  /**
   * The fetch gate on `searchTerm.length`, a count of UTF-16 units: an empty
   * query (list all) or one of at least two units.
   */
  predicate ShouldFetch(query: string) {
    Utf16Length(query) > 1 || Utf16Length(query) == 0
  }

  /**
   * The only query not sent is a single character from the Basic
   * Multilingual Plane; one emoji is two units long and is sent.
   */
  lemma ShouldFetchExactlyUnlessOneChar(query: string)
    ensures !ShouldFetch(query) <==> |query| == 1 && query[0] as int <= 0xFFFF
  {
    Utf16LengthIsOne(query);
  }

  /** A query of one emoji ("\U{1F3AE}") counts as two units, so it is sent. */
  lemma SingleEmojiIsSent()
    ensures ShouldFetch("\U{1F3AE}")
    ensures |"\U{1F3AE}"| == 1
  {
    ShouldFetchExactlyUnlessOneChar("\U{1F3AE}");
  }

  /** The results an outcome delivers, or `None` where the page's `try` block throws. */
  function Results(outcome: Outcome): (r: Option<seq<Game>>)
    ensures r.Some? <==> outcome.Response? && outcome.ok && outcome.body.Some?
    ensures r.Some? ==> r.value == outcome.body.value
  {
    match outcome
    case Response(ok, body) => if ok then body else None
    case NetworkError => None
  }

  /** What the list area renders, in the order the page tests for it. */
  datatype View = LoadingNotice | ErrorNotice(message: string) | NoGamesNotice | GameCards(games: seq<Game>)

  /**
   * The render branch: `loading` first, then a truthy (non-empty) `error`,
   * then an empty list, else one card per game.
   */
  function SelectView(loading: bool, error: Option<string>, games: seq<Game>): (v: View)
    ensures v.LoadingNotice? <==> loading
    ensures v.ErrorNotice? <==> !loading && error.Some? && error.value != ""
    ensures v.ErrorNotice? ==> v.message == error.value
    ensures v.NoGamesNotice? <==> !loading && (error.None? || error.value == "") && games == []
    ensures v.GameCards? <==> !loading && (error.None? || error.value == "") && games != []
    ensures v.GameCards? ==> v.games == games
  {
    if loading then LoadingNotice
    else if error.Some? && error.value != "" then ErrorNotice(error.value)
    else if games == [] then NoGamesNotice
    else GameCards(games)
  }

  class SearchPageState {
    var searchTerm: string
    var games: seq<Game>
    var loading: bool
    var error: Option<string>

    /** The first render: empty query and list, `loading` already true, no error. */
    constructor ()
      ensures searchTerm == "" && games == [] && loading && error == None
    {
      searchTerm, games, loading, error := "", [], true, None;
    }

    /** `error` is never set to an empty message, so a set error is always shown. */
    ghost predicate Valid()
      reads this
    {
      error.Some? ==> error.value == LoadErrorMessage
    }

    /** The list area for the current state. */
    function CurrentView(): View
      reads this
    {
      SelectView(loading, error, games)
    }

    /** `handleSearchInputChange`: the input's value becomes the query. */
    method HandleSearchInputChange(value: string)
      modifies this`searchTerm
      ensures searchTerm == value
    {
      searchTerm := value;
    }

    /** The synchronous start of `fetchGames`: show the loading notice, clear the error. */
    method StartFetch()
      modifies this`loading, this`error
      ensures loading && error == None
      ensures Valid()
    {
      loading := true;
      error := None;
    }

    /**
     * The rest of `fetchGames`, once the request has settled: results on a
     * good response, otherwise the error message and an empty list; in
     * every case `loading` ends false.
     */
    method FinishFetch(outcome: Outcome)
      requires Valid()
      modifies this`games, this`error, this`loading
      ensures Valid() && !loading
      ensures Results(outcome).Some? ==> games == Results(outcome).value && error == old(error)
      ensures Results(outcome).None? ==> games == [] && error == Some(LoadErrorMessage)
    {
      var results := Results(outcome);
      if results.Some? {
        games := results.value;
      } else {
        error := Some(LoadErrorMessage);
        games := [];
      }
      loading := false;
    }

    /**
     * The debounce timer fires for the current query: a fetch starts iff the
     * query passes the gate, and `requested` names the query sent.
     */
    method TimerFires() returns (requested: Option<string>)
      requires Valid()
      modifies this`loading, this`error
      ensures Valid()
      ensures requested.Some? <==> ShouldFetch(searchTerm)
      ensures requested.Some? ==> requested.value == searchTerm && loading && error == None
      ensures requested.None? ==> loading == old(loading) && error == old(error)
    {
      if ShouldFetch(searchTerm) {
        StartFetch();
        requested := Some(searchTerm);
      } else {
        requested := None;
      }
    }

    /**
     * One complete search: the timer fires for `searchTerm` and, if a fetch
     * started, it settles with `outcome`. A successful fetch shows the
     * results with no error; a failed one shows the error message.
     */
    method Search(outcome: Outcome) returns (requested: Option<string>)
      requires Valid()
      modifies this`games, this`error, this`loading
      ensures Valid()
      ensures requested.Some? <==> ShouldFetch(searchTerm)
      ensures requested.None? ==> games == old(games) && loading == old(loading) && error == old(error)
      ensures requested.Some? && Results(outcome).Some? ==>
        CurrentView() == (if Results(outcome).value == [] then NoGamesNotice else GameCards(Results(outcome).value))
      ensures requested.Some? && Results(outcome).None? ==> CurrentView() == ErrorNotice(LoadErrorMessage)
    {
      requested := TimerFires();
      if requested.Some? {
        FinishFetch(outcome);
      }
    }
  }

  /**
   * The first render of a new page shows the loading notice; the initial
   * fetch it schedules is still pending.
   */
  method FirstRender() returns (view: View)
    ensures view == LoadingNotice
  {
    var page := new SearchPageState();
    view := page.CurrentView();
  }
}
