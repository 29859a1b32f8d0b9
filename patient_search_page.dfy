/** The patient search page (src/pages/PatientSearchPage.tsx): the same
    debounced suggestion box as the documents panel, a submit that opens
    the first result whenever there is one, and the authentication gate. */
module PatientSearchPage {
  import opened Wrappers
  import opened Text
  import opened Seqs
  import opened Domain
  import opened Api
  import opened SearchBox
  import AuthService
  import PatientSlice

  const BlankQueryError := ("Bitte geben Sie eine " + "Patienten-ID, " + "Nachname oder Vorname " + "ein.")
  const NotFoundError := ("❌ Keine Patienten " + "gefunden. Bitte " + "überprüfen Sie Ihre " + "Suchanfrage und " + "versuchen Sie es " + "erneut.")
  const SearchFailedError := ("❌ Fehler bei der " + "Suche. Bitte " + "versuchen Sie es " + "erneut.")

  /** This page's error texts, shown through `AlertLine`. */
  const Texts := AlertTexts(BlankQueryError, NotFoundError, SearchFailedError)

  class Page {
    var localSearchQuery: string
    var error: Alert
    var suggestions: seq<Patient>
    var showSuggestions: bool
    var timer: Timer

    constructor ()
      ensures localSearchQuery == "" && error == NoAlert && suggestions == [] && !showSuggestions && timer == Idle
    {
      localSearchQuery, error, suggestions, showSuggestions, timer := "", NoAlert, [], false, Idle;
    }

    /** The mount effect: without a token the page leaves for '/'; it loads
        no patients either way. */
    method Mount(browser: Browser)
      modifies browser
      ensures !AuthService.IsAuthenticated(old(browser.storage)) ==> browser.location == "/"
      ensures AuthService.IsAuthenticated(old(browser.storage)) ==> browser.location == old(browser.location)
      ensures browser.storage == old(browser.storage)
    {
      if !AuthService.IsAuthenticated(browser.storage) {
        browser.location := "/";
      }
    }

    /** `handleInputChange`: the raw value is kept, the error cleared, and
        `debouncedSearch(value)` replaces the pending timer by one for the
        raw value. */
    method InputChange(value: string, now: int)
      modifies this
      ensures localSearchQuery == value && error == NoAlert
      ensures timer == Step(old(timer), Keystroke(now, value)).0 && timer == Arm(now, value)
      ensures suggestions == old(suggestions) && showSuggestions == old(showSuggestions)
    {
      localSearchQuery := value;
      error := NoAlert;
      timer := Arm(now, value);
    }

    /** The search a fired timer starts for `query`: one request, then at
        most five results offered, or the box hidden when the search throws. */
    method Offer(query: string, store: PatientSlice.PatientStore, browser: Browser,
                 fetch: Request -> Fetched<seq<Patient>>)
      returns (sent: Request, outcome: Result<seq<Patient>, string>)
      requires !IsBlank(query)
      modifies this, store, browser
      ensures sent == BuildRequest(old(browser.storage), PatientSlice.SearchEndpoint(query), Get)
      ensures (suggestions, showSuggestions) == Suggestions(outcome)
      ensures outcome.Ok? <==> fetch(sent).Response? && IsOk(fetch(sent).status)
      ensures outcome.Ok? ==> outcome.value == fetch(sent).body
      ensures PatientSlice.SearchStored(old(store.patients), store.patients, store.error, fetch(sent)) && !store.isLoading
      ensures browser.storage == StorageAfter(old(browser.storage), fetch(sent))
      ensures browser.location == LocationAfter(old(browser.location), fetch(sent))
      ensures store.currentPatient == old(store.currentPatient) && store.searchQuery == old(store.searchQuery)
      ensures localSearchQuery == old(localSearchQuery) && error == old(error) && timer == old(timer)
    {
      sent, outcome := PatientSlice.AwaitSearch(store, browser, query, fetch);
      suggestions, showSuggestions := Suggestions(outcome).0, Suggestions(outcome).1;
    }

    /** A clock tick: a due timer fires once; a trimmed value of at least
        two characters is searched trimmed and at most five results are
        shown, and a failed search or a shorter value hides the box. */
    method TimerTick(now: int, store: PatientSlice.PatientStore, browser: Browser,
                     fetch: Request -> Fetched<seq<Patient>>)
      returns (fired: Option<string>, sent: Option<Request>, outcome: Option<Result<seq<Patient>, string>>)
      modifies this, store, browser
      ensures (timer, fired) == Step(old(timer), Tick(now))
      ensures fired.None? ==>
        sent.None? && unchanged(store) && unchanged(browser)
        && suggestions == old(suggestions) && showSuggestions == old(showSuggestions)
      ensures fired.Some? && SearchText(fired.value).None? ==>
        sent.None? && unchanged(store) && unchanged(browser) && suggestions == [] && !showSuggestions
      ensures fired.Some? && SearchText(fired.value).Some? ==>
        sent == Some(BuildRequest(old(browser.storage), PatientSlice.SearchEndpoint(SearchText(fired.value).value), Get))
        && outcome.Some? && (suggestions, showSuggestions) == Suggestions(outcome.value)
        && (outcome.value.Ok? <==> fetch(sent.value).Response? && IsOk(fetch(sent.value).status))
        && (outcome.value.Ok? ==> outcome.value.value == fetch(sent.value).body)
      ensures sent.Some? ==>
        PatientSlice.SearchStored(old(store.patients), store.patients, store.error, fetch(sent.value))
        && !store.isLoading
        && browser.storage == StorageAfter(old(browser.storage), fetch(sent.value))
        && browser.location == LocationAfter(old(browser.location), fetch(sent.value))
      ensures store.currentPatient == old(store.currentPatient) && store.searchQuery == old(store.searchQuery)
      ensures localSearchQuery == old(localSearchQuery) && error == old(error)
    {
      sent, outcome := None, None;
      if !Due(timer, now) {
        fired := None;
        return;
      }
      fired := Some(timer.value);
      timer := Idle;
      var query := SearchText(fired.value);
      if query.None? {
        suggestions, showSuggestions := [], false;
        return;
      }
      var request, result := Offer(query.value, store, browser, fetch);
      sent, outcome := Some(request), Some(result);
    }

    /** `handleSearch`: a blank query is refused without a request;
        otherwise the error is cleared, the suggestions hidden, the raw
        query stored as the search query and searched as it is (not
        trimmed). No result shows an error; any result opens the workspace
        of the first one; a failure shows the search error. */
    method Search(store: PatientSlice.PatientStore, browser: Browser, fetch: Request -> Fetched<seq<Patient>>)
      returns (sent: Option<Request>, outcome: Option<Result<seq<Patient>, string>>)
      modifies this, store, browser
      ensures IsBlank(old(localSearchQuery)) ==>
        sent.None? && outcome.None? && error == BlankQuery && unchanged(store) && unchanged(browser)
        && showSuggestions == old(showSuggestions)
      ensures !IsBlank(old(localSearchQuery)) ==>
        sent == Some(BuildRequest(old(browser.storage), PatientSlice.SearchEndpoint(old(localSearchQuery)), Get))
        && store.searchQuery == old(localSearchQuery) && !showSuggestions && outcome.Some?
        && (outcome.value.Ok? <==> fetch(sent.value).Response? && IsOk(fetch(sent.value).status))
        && (outcome.value.Ok? ==> outcome.value.value == fetch(sent.value).body)
      ensures outcome.Some? && outcome.value.Ok? && |outcome.value.value| == 0 ==>
        error == NotFound && browser.location == old(browser.location)
        && browser.storage == old(browser.storage)
      ensures outcome.Some? && outcome.value.Ok? && |outcome.value.value| >= 1 ==>
        browser.location == WorkspacePath(outcome.value.value[0].id) && browser.storage == old(browser.storage)
        && error == NoAlert
      ensures outcome.Some? && outcome.value.Err? ==> error == SearchFailed
      ensures sent.Some? ==>
        PatientSlice.SearchStored(old(store.patients), store.patients, store.error, fetch(sent.value))
        && !store.isLoading
        && browser.storage == StorageAfter(old(browser.storage), fetch(sent.value))
      ensures sent.Some? && outcome.value.Err? ==>
        browser.location == LocationAfter(old(browser.location), fetch(sent.value))
      ensures store.currentPatient == old(store.currentPatient)
      ensures localSearchQuery == old(localSearchQuery) && suggestions == old(suggestions) && timer == old(timer)
    {
      var query := localSearchQuery;
      if IsBlank(query) {
        sent, outcome := None, None;
        error := BlankQuery;
        return;
      }
      var request, result := Submit(query, store, browser, fetch);
      sent, outcome := Some(request), Some(result);
    }

    /** The non-blank branch of `handleSearch`. */
    method Submit(query: string, store: PatientSlice.PatientStore, browser: Browser,
                  fetch: Request -> Fetched<seq<Patient>>)
      returns (sent: Request, outcome: Result<seq<Patient>, string>)
      requires !IsBlank(query)
      modifies this, store, browser
      ensures sent == BuildRequest(old(browser.storage), PatientSlice.SearchEndpoint(query), Get)
      ensures store.searchQuery == query && !showSuggestions
      ensures outcome.Ok? <==> fetch(sent).Response? && IsOk(fetch(sent).status)
      ensures outcome.Ok? ==> outcome.value == fetch(sent).body
      ensures outcome.Ok? && |outcome.value| == 0 ==>
        error == NotFound && browser.location == old(browser.location) && browser.storage == old(browser.storage)
      ensures outcome.Ok? && |outcome.value| >= 1 ==>
        browser.location == WorkspacePath(outcome.value[0].id) && browser.storage == old(browser.storage)
        && error == NoAlert
      ensures outcome.Err? ==> error == SearchFailed
      ensures PatientSlice.SearchStored(old(store.patients), store.patients, store.error, fetch(sent)) && !store.isLoading
      ensures browser.storage == StorageAfter(old(browser.storage), fetch(sent))
      ensures outcome.Err? ==> browser.location == LocationAfter(old(browser.location), fetch(sent))
      ensures store.currentPatient == old(store.currentPatient)
      ensures localSearchQuery == old(localSearchQuery) && suggestions == old(suggestions) && timer == old(timer)
    {
      error := NoAlert;
      showSuggestions := false;
      var before := (localSearchQuery, suggestions, timer);
      store.SetSearchQuery(query);
      assert (localSearchQuery, suggestions, timer) == before;
      sent, outcome := PatientSlice.AwaitSearch(store, browser, query, fetch);
      assert (localSearchQuery, suggestions, timer) == before;
      ShowOutcome(outcome, browser);
    }

    /** How `handleSearch` reacts to the settled search. */
    method ShowOutcome(result: Result<seq<Patient>, string>, browser: Browser)
      modifies this, browser
      ensures result.Ok? && |result.value| == 0 ==>
        error == NotFound && browser.location == old(browser.location) && browser.storage == old(browser.storage)
      ensures result.Ok? && |result.value| >= 1 ==>
        browser.location == WorkspacePath(result.value[0].id) && browser.storage == old(browser.storage)
        && error == old(error)
      ensures result.Err? ==>
        error == SearchFailed && browser.location == old(browser.location) && browser.storage == old(browser.storage)
      ensures localSearchQuery == old(localSearchQuery) && suggestions == old(suggestions)
      ensures showSuggestions == old(showSuggestions) && timer == old(timer)
    {
      match result
      case Ok(results) =>
        if |results| == 0 {
          error := NotFound;
        } else {
          browser.location := WorkspacePath(results[0].id);
        }
      case Err(_) =>
        error := SearchFailed;
    }

    /** `handleSuggestionClick(patient)`. */
    method SuggestionClick(patient: Patient, browser: Browser)
      modifies this, browser
      ensures localSearchQuery == FullName(patient) && !showSuggestions
      ensures browser.location == WorkspacePath(patient.id) && browser.storage == old(browser.storage)
      ensures error == old(error) && suggestions == old(suggestions) && timer == old(timer)
    {
      localSearchQuery := FullName(patient);
      showSuggestions := false;
      browser.location := WorkspacePath(patient.id);
    }

    /** The cleanup on unmount cancels the pending timer. */
    method Unmount()
      modifies this
      ensures timer == Idle
      ensures localSearchQuery == old(localSearchQuery) && error == old(error)
      ensures suggestions == old(suggestions) && showSuggestions == old(showSuggestions)
    {
      timer := Idle;
    }
  }

  /** `handleSkip`: the workspace without a patient. */
  method Skip(browser: Browser)
    modifies browser
    ensures browser.location == WorkspacePath("empty") && browser.storage == old(browser.storage)
  {
    browser.location := WorkspacePath("empty");
  }
}
