/** The game-library page: the catalog it holds, the visible state of its
    grid, banners and counter, the detail modal, and the operations that
    change them. The network is an input: each `fetch` call is given as the
    way it settled. */
module Page {
  import opened Wrappers
  import opened Catalog

  const ApiUrl: string := "https://www.freetogame.com/api/games"
  const CorsProxy: string := "https://corsproxy.io/?"
  /** The proxy address followed by the percent-encoded feed address. */
  const ProxiedApiUrl: string := CorsProxy + "https%3A%2F%2Fwww.freetogame.com%2Fapi%2Fgames"

  /** How one `fetch` call settled: it threw, or it produced a response with
      its `ok` flag and the record list its JSON body parses to (None when
      parsing fails). */
  datatype Response = Thrown | Settled(ok: bool, body: Option<seq<Game>>)

  /** The addresses requested: the proxy is asked only when the direct call throws. */
  function Requests(direct: Response): (urls: seq<string>)
    ensures |urls| > 0 && urls[0] == ApiUrl
    ensures ProxiedApiUrl in urls <==> direct.Thrown?
  {
    if direct.Thrown? then [ApiUrl, ProxiedApiUrl] else [ApiUrl]
  }

  /** The records a response yields, or None when the load fails on it. */
  function Accept(response: Response): (r: Option<seq<Game>>)
    ensures r.Some? <==> response.Settled? && response.ok && response.body.Some?
    ensures r.Some? ==> r.value == response.body.value
  {
    if response.Settled? && response.ok && response.body.Some? then response.body else None
  }

  /** The outcome of the whole load: the direct response, or the proxied one
      when the direct call threw. None is the failure every error path ends in. */
  function Load(direct: Response, proxied: Response): (r: Option<seq<Game>>)
    ensures r.Some? <==> (direct.Settled? && direct.ok && direct.body.Some?) ||
                         (direct.Thrown? && proxied.Settled? && proxied.ok && proxied.body.Some?)
    ensures r.Some? && direct.Settled? ==> r.value == direct.body.value
    ensures r.Some? && direct.Thrown? ==> r.value == proxied.body.value
  {
    Accept(if direct.Thrown? then proxied else direct)
  }

  /** A direct call that settles decides the outcome alone: a non-ok status
      is a failure and is not retried through the proxy. */
  lemma ProxyOnlyAfterThrow(direct: Response, proxied1: Response, proxied2: Response)
    requires direct.Settled?
    ensures Load(direct, proxied1) == Load(direct, proxied2)
    ensures !direct.ok ==> Load(direct, proxied1) == None
  {
  }

  /** The detail modal and the body's overflow style it controls. */
  datatype Modal = Modal(active: bool, bodyOverflow: string, details: Option<Details>)

  const ClosedModal: Modal := Modal(false, "", None)

  /** Opening fills in the record's details, shows the modal and stops the page scrolling. */
  function Opened(g: Game): (m: Modal)
    ensures m.active && m.bodyOverflow == "hidden"
    ensures m.details.Some? && m.details.value.title == g.title && m.details.value.link == PurchasePage
  {
    Modal(true, "hidden", Some(DetailsOf(g)))
  }

  /** Closing hides the modal and restores scrolling; its content stays. */
  function Closed(m: Modal): (r: Modal)
    ensures !r.active && r.bodyOverflow == "" && r.details == m.details
  {
    m.(active := false, bodyOverflow := "")
  }

  /** Closing twice is closing once, and closing an opened modal leaves the
      record's details in place with the page scrollable again. */
  lemma CloseIdempotent(m: Modal, g: Game)
    ensures Closed(Closed(m)) == Closed(m)
    ensures Closed(Opened(g)) == Modal(false, "", Some(DetailsOf(g)))
  {
  }

  /** The modal is active exactly when the body's scrolling is switched off. */
  ghost predicate ModalValid(m: Modal)
  {
    m.active <==> m.bodyOverflow == "hidden"
  }

  class LibraryPage {
    var allGames: seq<Game>
    var filteredGames: seq<Game>
    /** The cards in the grid, in order. */
    var grid: seq<Card>
    var loadingShown: bool
    var errorShown: bool
    var noResultsShown: bool
    var countShown: bool
    var countNumber: int
    var modal: Modal

    /** What every operation of the page keeps: every shown record is in
        the catalog, a visible counter tells how many are shown and the grid
        holds their cards, the no-results banner only stands over an empty
        grid, and the modal owns the page's scrolling. */
    ghost predicate Valid()
      reads this
      ensures Valid() && countShown ==>
                |grid| == countNumber && forall i :: 0 <= i < |grid| ==> grid[i].game in allGames
    {
      (forall i :: 0 <= i < |filteredGames| ==> filteredGames[i] in allGames) &&
      (countShown ==> countNumber == |filteredGames| && grid == Cards(filteredGames)) &&
      (noResultsShown ==> filteredGames == [] && grid == []) &&
      ModalValid(modal)
    }

    constructor ()
      ensures Valid()
      ensures allGames == [] && filteredGames == [] && grid == []
      ensures !loadingShown && !errorShown && !noResultsShown && !countShown
      ensures modal == ClosedModal
    {
      allGames, filteredGames, grid := [], [], [];
      loadingShown, errorShown, noResultsShown, countShown := false, false, false, false;
      countNumber := 0;
      modal := ClosedModal;
    }

    /** Shows the spinner, hides the error, no-results and counter elements and empties the grid. */
    method ShowLoading()
      requires Valid()
      modifies this
      ensures Valid()
      ensures loadingShown && !errorShown && !noResultsShown && !countShown && grid == []
      ensures allGames == old(allGames) && filteredGames == old(filteredGames)
      ensures countNumber == old(countNumber) && modal == old(modal)
    {
      loadingShown := true;
      errorShown := false;
      noResultsShown := false;
      countShown := false;
      grid := [];
    }

    method HideLoading()
      modifies this`loadingShown
      ensures !loadingShown
    {
      loadingShown := false;
    }

    method ShowError()
      modifies this`errorShown
      ensures errorShown
    {
      errorShown := true;
    }

    method HideError()
      modifies this`errorShown
      ensures !errorShown
    {
      errorShown := false;
    }

    method ShowGamesCount(count: int)
      modifies this`countShown, this`countNumber
      ensures countShown && countNumber == count
    {
      countShown := true;
      countNumber := count;
    }

    /** Rebuilds the grid from scratch: the no-results banner for an empty
        list, otherwise one card per record in list order. */
    method DisplayGames(games: seq<Game>)
      modifies this`grid, this`noResultsShown
      ensures grid == Cards(games)
      ensures noResultsShown <==> |games| == 0
    {
      grid := [];
      if |games| == 0 {
        noResultsShown := true;
        return;
      }
      noResultsShown := false;
      var i := 0;
      while i < |games|
        invariant 0 <= i <= |games|
        invariant grid == Cards(games[..i])
        invariant !noResultsShown
      {
        grid := grid + [CardOf(games[i])];
        i := i + 1;
      }
      assert games[..i] == games;
    }

    /** Applies the current controls: filters the catalog, sorts the result
        as the sort select asks, redraws the grid and updates the counter. */
    method FilterGames(searchValue: string, categoryValue: string, platformValue: string, sortValue: string)
      requires Valid()
      modifies this
      ensures Valid()
      ensures filteredGames == Visible(allGames, searchValue, categoryValue, platformValue, sortValue)
      ensures forall i :: 0 <= i < |filteredGames| ==>
                Matches(ReadQuery(searchValue, categoryValue, platformValue), filteredGames[i])
      ensures multiset(filteredGames) == multiset(Filter(allGames, ReadQuery(searchValue, categoryValue, platformValue)))
      ensures Sorted(ReadSort(sortValue), filteredGames)
      ensures grid == Cards(filteredGames) && (noResultsShown <==> filteredGames == [])
      ensures countShown && countNumber == |filteredGames|
      ensures allGames == old(allGames) && modal == old(modal)
      ensures loadingShown == old(loadingShown) && errorShown == old(errorShown)
    {
      var query := ReadQuery(searchValue, categoryValue, platformValue);
      var order := ReadSort(sortValue);
      filteredGames := Filter(allGames, query);
      match order {
        case Alphabetical =>
          filteredGames := SortBy(order, filteredGames);
        case ReleaseDate =>
          filteredGames := SortBy(order, filteredGames);
        case Popularity =>
        case Relevance =>
      }
      assert filteredGames == Visible(allGames, searchValue, categoryValue, platformValue, sortValue);
      VisibleSpec(allGames, searchValue, categoryValue, platformValue, sortValue);
      DisplayGames(filteredGames);
      ShowGamesCount(|filteredGames|);
    }

    /** Replaces the catalog with the fixed fallback records and shows all of them. */
    method LoadSampleData()
      requires ModalValid(modal)
      modifies this
      ensures Valid()
      ensures allGames == SampleGames && filteredGames == SampleGames
      ensures !loadingShown && !errorShown
      ensures grid == Cards(SampleGames) && |grid| == 6 && !noResultsShown
      ensures countShown && countNumber == 6
      ensures modal == old(modal)
    {
      allGames := SampleGames;
      filteredGames := allGames;
      HideLoading();
      HideError();
      DisplayGames(filteredGames);
      ShowGamesCount(|filteredGames|);
    }

    /** Loads the catalog at start-up. `direct` is how the call to the feed
        settled and `proxied` how the call through the proxy would; the result
        lists the addresses actually requested. On success the whole feed is
        shown; on every failure the fallback records are. */
    method FetchGames(direct: Response, proxied: Response) returns (requested: seq<string>)
      requires Valid()
      modifies this
      ensures Valid()
      ensures requested == Requests(direct)
      ensures Load(direct, proxied).Some? ==> allGames == Load(direct, proxied).value
      ensures Load(direct, proxied).None? ==> allGames == SampleGames
      ensures filteredGames == allGames
      ensures grid == Cards(allGames) && (noResultsShown <==> allGames == [])
      ensures countShown && countNumber == |allGames|
      ensures !loadingShown && !errorShown
      ensures modal == old(modal)
    {
      ShowLoading();
      requested := [ApiUrl];
      var response := direct;
      if direct.Thrown? {
        requested := requested + [ProxiedApiUrl];
        response := proxied;
      }
      if response.Settled? && response.ok && response.body.Some? {
        allGames := response.body.value;
        filteredGames := allGames;
          HideLoading();
        DisplayGames(filteredGames);
        ShowGamesCount(|filteredGames|);
      } else {
        HideLoading();
        ShowError();
        LoadSampleData();
      }
    }

    /** Opens the detail modal on one record. */
    method OpenModal(g: Game)
      requires Valid()
      modifies this`modal
      ensures Valid()
      ensures modal == Opened(g)
    {
      modal := Modal(true, "hidden", Some(DetailsOf(g)));
    }

    /** Clicking a card opens the modal on the record it was drawn for. */
    method ClickCard(i: nat)
      requires Valid() && i < |grid|
      modifies this`modal
      ensures Valid()
      ensures modal == Opened(grid[i].game)
      ensures countShown ==> modal == Opened(filteredGames[i])
    {
      OpenModal(grid[i].game);
    }

    method CloseModal()
      requires Valid()
      modifies this`modal
      ensures Valid()
      ensures modal == Closed(old(modal))
    {
      modal := modal.(active := false, bodyOverflow := "");
    }

    /** The document's keydown listener: Escape closes the modal, whatever its state. */
    method KeyDown(key: string)
      requires Valid()
      modifies this`modal
      ensures Valid()
      ensures modal == if key == "Escape" then Closed(old(modal)) else old(modal)
    {
      if key == "Escape" {
        CloseModal();
      }
    }
  }
}
