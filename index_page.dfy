/**
 * The home page's listing grid: the search parameter it sends to `GET /places`, how it keeps the
 * answer, and the padding of a short listing to a full grid of cards.
 */
module IndexPage {
  import opened Wrappers
  import opened Text
  import opened Client
  import Server

  /** The smallest number of cards the grid shows. */
  const MinCards := 16

  /** The body of `GET /places`: normally an array, but the page does not rely on it. */
  datatype PlacesBody = Places(items: seq<Server.Place>) | NotAList

  /** `{ search: q.trim() }` when the trimmed query is non-empty, else no parameter at all. */
  function SearchParams(query: string): (r: Option<string>)
    ensures r.Some? <==> Trim(query) != ""
    ensures r.Some? ==> r.value == Trim(query)
  {
    if Trim(query) != "" then Some(Trim(query)) else None
  }

  /** Trimming on the page changes nothing the server answers: it trims the query too. */
  lemma SearchParamsAgreeWithServer(db: Server.Db, query: string)
    ensures Server.SearchSpec(db, SearchParams(query)) == Server.SearchSpec(db, Some(query))
  {
    if Trim(query) != "" {
      TrimIdempotent(query);
    }
  }

  lemma {:induction false} MulBounds(a: int, n: int)
    requires n > 0
    ensures a >= 1 ==> a * n >= n
    ensures a <= -1 ==> a * n <= -n
    decreases if a < 0 then -a else a
  {
    if a > 1 {
      MulBounds(a - 1, n);
      assert a * n == (a - 1) * n + n;
    }
    if a < -1 {
      MulBounds(a + 1, n);
      assert a * n == (a + 1) * n - n;
    }
  }

  /** The remainder of `q * n + m` by `n` is `m` when `m` is below `n`. */
  lemma ModUnique(x: int, q: int, m: int, n: int)
    requires n > 0 && 0 <= m < n && x == q * n + m
    ensures x % n == m
  {
    assert x == (x / n) * n + x % n;
    assert (q - x / n) * n == x % n - m;
    MulBounds(q - x / n, n);
  }

  /**
   * `getDisplayPlaces`: a search in progress, an empty listing or a full one is shown as it is;
   * otherwise whole copies of the listing are appended until there are at least 16 cards, and
   * the first 16 are shown, so card `i` is listing `i` modulo its length.
   */
  method GetDisplayPlaces<T>(searchInput: string, places: seq<T>) returns (r: seq<T>)
    ensures searchInput != "" || |places| == 0 || |places| >= MinCards ==> r == places
    ensures searchInput == "" && 0 < |places| < MinCards ==>
      |r| == MinCards && forall i :: 0 <= i < |r| ==> r[i] == places[i % |places|]
  {
    if searchInput != "" || |places| == 0 || |places| >= MinCards {
      return places;
    }
    var n := |places|;
    var repeated: seq<T> := [];
    var i := 0;
    while |repeated| < MinCards
      invariant |repeated| == i * n
      invariant forall j :: 0 <= j < |repeated| ==> repeated[j] == places[j % n]
      decreases MinCards - |repeated|
    {
      forall j | |repeated| <= j < |repeated| + n
        ensures (repeated + places)[j] == places[j % n]
      {
        ModUnique(j, i, j - |repeated|, n);
      }
      assert (i + 1) * n == i * n + n;
      repeated := repeated + places;
      i := i + 1;
    }
    return repeated[..MinCards];
  }

  /** Mounting the page: the initial state, and the fetch effect's first run with no parameters. */
  method Mount() returns (p: Page, params: Option<string>)
    ensures fresh(p)
    ensures p.places == [] && p.loading && p.searchInput == "" && p.debouncedQuery == ""
    ensures params == SearchParams("") && params.None?
  {
    p := new Page();
    params := SearchParams("");
  }

  /** The page's state. */
  class Page {
    var places: seq<Server.Place>
    var loading: bool
    var searchInput: string
    var debouncedQuery: string

    constructor ()
      ensures places == [] && loading && searchInput == "" && debouncedQuery == ""
    {
      places, loading, searchInput, debouncedQuery := [], true, "", "";
    }

    /** The first half of `handleSearch`: the field shows what was typed at once. */
    method HandleSearch(value: string)
      modifies this
      ensures searchInput == value
      ensures places == old(places) && loading == old(loading) && debouncedQuery == old(debouncedQuery)
    {
      searchInput := value;
    }

    /**
     * The debounce timer fires: the query settles, and the fetch effect, which depends on the
     * settled query only, sends `GET /places` with its parameters exactly when the query changed.
     */
    method Settle(value: string) returns (fetch: bool, params: Option<string>)
      modifies this
      ensures debouncedQuery == value
      ensures fetch <==> value != old(debouncedQuery)
      ensures params == SearchParams(value)
      ensures places == old(places) && loading == old(loading) && searchInput == old(searchInput)
    {
      fetch := value != debouncedQuery;
      debouncedQuery := value;
      params := SearchParams(value);
    }

    /** The fetch settles: an array is kept, anything else (or a failure) empties the listing. */
    method OnPlacesReply(reply: Reply<PlacesBody>)
      modifies this
      ensures !loading
      ensures places == (if reply.Resolved? && reply.data.Places? then reply.data.items else [])
      ensures searchInput == old(searchInput) && debouncedQuery == old(debouncedQuery)
    {
      loading := false;
      match reply
      case Resolved(Places(items)) => places := items;
      case _ => places := [];
    }
  }
}
