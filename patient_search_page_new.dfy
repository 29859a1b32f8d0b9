/** The rewritten patient search page (src/pages/PatientSearchPageNew.tsx):
    no suggestion box; the mount effect runs a blank search, typing only
    edits the field, and a submit that finds several patients leaves them
    to the result list, which shows while the store has patients and a
    search query. */
module PatientSearchPageNew {
  import opened Wrappers
  import opened Text
  import opened Domain
  import opened Api
  import opened SearchBox
  import AuthService
  import PatientSlice

  const BlankQueryError := ("Veuillez entrer un ID " + "patient, nom ou " + "prénom.")
  const NotFoundError := ("Aucun patient trouvé. " + "Vérifiez votre " + "recherche.")
  const SearchFailedError := ("Erreur lors de la " + "recherche. Veuillez " + "réessayer.")

  /** This page's error texts, shown through `AlertLine`. */
  const Texts := AlertTexts(BlankQueryError, NotFoundError, SearchFailedError)

  /** The result list is rendered exactly when there are patients and a
      non-empty search query in the store; an `undefined` list makes the
      render throw, so nothing is shown. */
  predicate ShowsResults(patients: Option<seq<Patient>>, searchQuery: string) {
    patients.Some? && |patients.value| > 0 && searchQuery != ""
  }

  class Page {
    var localSearchQuery: string
    var error: Alert

    constructor ()
      ensures localSearchQuery == "" && error == NoAlert
    {
      localSearchQuery, error := "", NoAlert;
    }

    /** `handleInputChange`: only the field changes; no search starts. */
    method InputChange(value: string)
      modifies this
      ensures localSearchQuery == value && error == old(error)
    {
      localSearchQuery := value;
    }

    /** `handleSearch`: a blank query is refused without a request;
        otherwise the error is cleared, the raw query stored and searched.
        No result shows an error, exactly one opens its workspace, and
        several stay on the page, where the result list shows them. */
    method Search(store: PatientSlice.PatientStore, browser: Browser, fetch: Request -> Fetched<seq<Patient>>)
      returns (sent: Option<Request>, outcome: Option<Result<seq<Patient>, string>>)
      modifies this, store, browser
      ensures IsBlank(old(localSearchQuery)) ==>
        sent.None? && error == BlankQuery && unchanged(store) && unchanged(browser)
      ensures !IsBlank(old(localSearchQuery)) ==>
        sent == Some(BuildRequest(old(browser.storage), PatientSlice.SearchEndpoint(old(localSearchQuery)), Get))
        && store.searchQuery == old(localSearchQuery) && outcome.Some?
        && (outcome.value.Ok? <==> fetch(sent.value).Response? && IsOk(fetch(sent.value).status))
        && (outcome.value.Ok? ==> outcome.value.value == fetch(sent.value).body && store.patients == Some(outcome.value.value))
      ensures outcome.Some? && outcome.value.Ok? && |outcome.value.value| == 0 ==>
        error == NotFound && unchanged(browser)
      ensures outcome.Some? && outcome.value.Ok? && |outcome.value.value| == 1 ==>
        browser.location == WorkspacePath(outcome.value.value[0].id) && browser.storage == old(browser.storage)
        && error == NoAlert
      ensures outcome.Some? && outcome.value.Ok? && |outcome.value.value| > 1 ==>
        unchanged(browser) && error == NoAlert && ShowsResults(store.patients, store.searchQuery)
      ensures outcome.Some? && outcome.value.Err? ==> error == SearchFailed
      ensures sent.Some? ==>
        PatientSlice.SearchStored(old(store.patients), store.patients, store.error, fetch(sent.value))
        && !store.isLoading
        && browser.storage == StorageAfter(old(browser.storage), fetch(sent.value))
      ensures sent.Some? && outcome.value.Err? ==>
        browser.location == LocationAfter(old(browser.location), fetch(sent.value))
      ensures store.currentPatient == old(store.currentPatient)
      ensures localSearchQuery == old(localSearchQuery)
    {
      sent, outcome := None, None;
      var query := localSearchQuery;
      if IsBlank(query) {
        error := BlankQuery;
        return;
      }
      store.SetSearchQuery(query);
      var request, result := PatientSlice.AwaitSearch(store, browser, query, fetch);
      sent, outcome := Some(request), Some(result);
      // The error is cleared before the request; nothing in between reads it.
      error := NoAlert;
      ShowOutcome(result, browser);
    }

    /** How `handleSearch` reacts to the settled search. */
    method ShowOutcome(result: Result<seq<Patient>, string>, browser: Browser)
      modifies this, browser
      ensures result.Ok? && |result.value| == 0 ==> error == NotFound && unchanged(browser)
      ensures result.Ok? && |result.value| == 1 ==>
        browser.location == WorkspacePath(result.value[0].id) && browser.storage == old(browser.storage)
        && error == old(error)
      ensures result.Ok? && |result.value| > 1 ==> unchanged(browser) && error == old(error)
      ensures result.Err? ==> error == SearchFailed && unchanged(browser)
      ensures localSearchQuery == old(localSearchQuery)
    {
      match result
      case Ok(results) =>
        if |results| == 0 {
          error := NotFound;
        } else if |results| == 1 {
          browser.location := WorkspacePath(results[0].id);
        }
      case Err(_) =>
        error := SearchFailed;
    }
  }

  /** The mount effect: without a token the page leaves for '/'; otherwise
      it dispatches `searchPatients('')`, which sends no request and leaves
      the store with no patients. */
  method Mount(store: PatientSlice.PatientStore, browser: Browser, fetch: Request -> Fetched<seq<Patient>>)
    returns (sent: Option<Request>)
    modifies store, browser
    ensures sent.None?
    ensures !AuthService.IsAuthenticated(old(browser.storage)) ==> browser.location == "/" && unchanged(store)
    ensures AuthService.IsAuthenticated(old(browser.storage)) ==>
      unchanged(browser) && store.patients == Some([]) && !store.isLoading && store.error == None
      && !ShowsResults(store.patients, store.searchQuery)
    ensures browser.storage == old(browser.storage)
  {
    sent := None;
    if !AuthService.IsAuthenticated(browser.storage) {
      browser.location := "/";
      return;
    }
    var settled;
    sent, settled := PatientSlice.SearchPatients(store, browser, "", fetch);
  }

  /** `handlePatientSelect(id)`, from the result list. */
  method PatientSelect(id: string, browser: Browser)
    modifies browser
    ensures browser.location == WorkspacePath(id) && browser.storage == old(browser.storage)
  {
    browser.location := WorkspacePath(id);
  }

  /** `handleSkip`: the workspace without a patient. */
  method Skip(browser: Browser)
    modifies browser
    ensures browser.location == WorkspacePath("empty") && browser.storage == old(browser.storage)
  {
    browser.location := WorkspacePath("empty");
  }
}
