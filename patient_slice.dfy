/** The patient store (src/store/slices/patientSlice.ts): the last search
    result, the patient being viewed, a loading flag, an error and the query
    shown in the search box, with the three request thunks. */
module PatientSlice {
  import opened Wrappers
  import opened Text
  import opened Domain
  import opened Api

  const FailedToSearch := ("Failed to search " + "patients")
  const FailedToGet := "Failed to get patient"
  const FailedToCreate := ("Failed to create " + "patient")

  /** The endpoint `searchPatients` asks for a non-blank query; the query is
      encoded as it was typed, not trimmed. */
  function SearchEndpoint(query: string): string {
    "/patients/?search=" + EncodeURIComponent(query)
  }

  /** The body of `searchPatients(query)`: a blank query resolves to the
      empty list without a request; any other query is one `apiRequest`. */
  method SearchPatientsThunk(browser: Browser, query: string, fetch: Request -> Fetched<seq<Patient>>)
    returns (sent: Option<Request>, settled: Settled<Option<seq<Patient>>>)
    modifies browser
    ensures IsBlank(query) <==> sent.None?
    ensures IsBlank(query) ==> settled == Fulfilled(Some([])) && unchanged(browser)
    ensures !IsBlank(query) ==>
      sent == Some(BuildRequest(old(browser.storage), SearchEndpoint(query), Get))
    ensures !IsBlank(query) && fetch(sent.value).Response? && IsOk(fetch(sent.value).status) ==>
      settled == Fulfilled(Some(fetch(sent.value).body))
    ensures !IsBlank(query) && fetch(sent.value).NetworkError? ==>
      settled == Rejected(fetch(sent.value).reason)
    ensures !IsBlank(query) && fetch(sent.value).Response? && fetch(sent.value).status == 401 ==>
      settled == Fulfilled(None) && browser.storage == old(browser.storage) - {TokenKey} && browser.location == "/"
    ensures !IsBlank(query) && fetch(sent.value).Response? && !IsOk(fetch(sent.value).status)
            && fetch(sent.value).status != 401 ==>
      settled == Rejected(ApiErrorMessage(fetch(sent.value).status, fetch(sent.value).statusText))
    ensures settled != Fulfilled(None) ==> unchanged(browser)
  {
    if IsBlank(query) {
      sent, settled := None, Fulfilled(Some([]));
      return;
    }
    var request, result := ApiRequest(browser, SearchEndpoint(query), Get, fetch);
    sent, settled := Some(request), SettleWith(result);
  }

  /** The body of `getPatient(patientId)`: one GET and its four outcomes. */
  method GetPatientThunk(browser: Browser, patientId: string, fetch: Request -> Fetched<Patient>)
    returns (sent: Request, settled: Settled<Option<Patient>>)
    modifies browser
    ensures sent == BuildRequest(old(browser.storage), "/patients/" + patientId, Get)
    ensures sent.url == ApiBaseUrl + "/patients/" + patientId && sent.verb == "GET"
    ensures fetch(sent).Response? && IsOk(fetch(sent).status) ==> settled == Fulfilled(Some(fetch(sent).body))
    ensures fetch(sent).NetworkError? ==> settled == Rejected(fetch(sent).reason)
    ensures fetch(sent).Response? && fetch(sent).status == 401 ==>
      settled == Fulfilled(None) && browser.location == "/" && browser.storage == old(browser.storage) - {TokenKey}
    ensures fetch(sent).Response? && !IsOk(fetch(sent).status) && fetch(sent).status != 401 ==>
      settled == Rejected(ApiErrorMessage(fetch(sent).status, fetch(sent).statusText))
    ensures settled != Fulfilled(None) ==> unchanged(browser)
  {
    var result;
    sent, result := ApiRequest(browser, "/patients/" + patientId, Get, fetch);
    settled := SettleWith(result);
  }

  /** The body of `createPatient(patientData)`: one POST of the new fields. */
  method CreatePatientThunk(browser: Browser, patientData: NewPatient, fetch: Request -> Fetched<Patient>)
    returns (sent: Request, settled: Settled<Option<Patient>>)
    modifies browser
    ensures sent == BuildRequest(old(browser.storage), "/patients/", Post(NewPatientJson(patientData)))
    ensures sent.url == ApiBaseUrl + "/patients/" && sent.verb == "POST"
    ensures sent.body == NewPatientJson(patientData)
    ensures fetch(sent).Response? && IsOk(fetch(sent).status) ==> settled == Fulfilled(Some(fetch(sent).body))
    ensures fetch(sent).NetworkError? ==> settled == Rejected(fetch(sent).reason)
    ensures fetch(sent).Response? && fetch(sent).status == 401 ==>
      settled == Fulfilled(None) && browser.location == "/" && browser.storage == old(browser.storage) - {TokenKey}
    ensures fetch(sent).Response? && !IsOk(fetch(sent).status) && fetch(sent).status != 401 ==>
      settled == Rejected(ApiErrorMessage(fetch(sent).status, fetch(sent).statusText))
    ensures settled != Fulfilled(None) ==> unchanged(browser)
  {
    var result;
    sent, result := ApiRequest(browser, "/patients/", Post(NewPatientJson(patientData)), fetch);
    settled := SettleWith(result);
  }

  class PatientStore {
    /** The last search result; None is `undefined`, the payload a search
        answered with 401 fulfils with. */
    var patients: Option<seq<Patient>>
    var currentPatient: Option<Patient>
    var isLoading: bool
    var error: Option<string>
    var searchQuery: string

    constructor ()
      ensures patients == Some([]) && currentPatient == None && !isLoading && error == None && searchQuery == ""
    {
      patients, currentPatient, isLoading, error, searchQuery := Some([]), None, false, None, "";
    }

    method SetSearchQuery(query: string)
      modifies this
      ensures searchQuery == query
      ensures patients == old(patients) && currentPatient == old(currentPatient)
      ensures isLoading == old(isLoading) && error == old(error)
    {
      searchQuery := query;
    }

    method ClearCurrentPatient()
      modifies this
      ensures currentPatient == None
      ensures patients == old(patients) && searchQuery == old(searchQuery)
      ensures isLoading == old(isLoading) && error == old(error)
    {
      currentPatient := None;
    }

    method ClearError()
      modifies this
      ensures error == None
      ensures patients == old(patients) && currentPatient == old(currentPatient)
      ensures isLoading == old(isLoading) && searchQuery == old(searchQuery)
    {
      error := None;
    }

    /** The pending case shared by all three thunks. */
    method Pending()
      modifies this
      ensures isLoading && error == None
      ensures patients == old(patients) && currentPatient == old(currentPatient)
      ensures searchQuery == old(searchQuery)
    {
      isLoading := true;
      error := None;
    }

    /** The payload replaces the list, `undefined` included. */
    method SearchFulfilled(payload: Option<seq<Patient>>)
      modifies this
      ensures !isLoading && error == None && patients == payload
      ensures currentPatient == old(currentPatient) && searchQuery == old(searchQuery)
    {
      isLoading := false;
      patients := payload;
      error := None;
    }

    /** The rejected case of the three thunks, each with its own default. */
    method Rejected(message: string, default: string)
      modifies this
      ensures !isLoading && error == Some(OrElse(message, default))
      ensures patients == old(patients) && currentPatient == old(currentPatient)
      ensures searchQuery == old(searchQuery)
    {
      isLoading := false;
      error := Some(OrElse(message, default));
    }

    method SearchRejected(message: string)
      modifies this
      ensures !isLoading && error == Some(OrElse(message, FailedToSearch))
      ensures patients == old(patients) && currentPatient == old(currentPatient)
      ensures searchQuery == old(searchQuery)
    {
      Rejected(message, FailedToSearch);
    }

    /** Sets the viewed patient (None when the payload is `undefined`); the
        search result list is not touched. */
    method GetPatientFulfilled(payload: Option<Patient>)
      modifies this
      ensures !isLoading && error == None && currentPatient == payload
      ensures patients == old(patients) && searchQuery == old(searchQuery)
    {
      isLoading := false;
      currentPatient := payload;
      error := None;
    }

    method GetPatientRejected(message: string)
      modifies this
      ensures !isLoading && error == Some(OrElse(message, FailedToGet))
      ensures patients == old(patients) && currentPatient == old(currentPatient)
      ensures searchQuery == old(searchQuery)
    {
      Rejected(message, FailedToGet);
    }

    /** Appends the created patient after the current list. On an
        `undefined` list the `push` throws, and the draft with it is
        discarded: nothing changes. */
    method CreatePatientFulfilled(payload: Patient)
      modifies this
      ensures old(patients).Some? ==>
        !isLoading && error == None && patients == Some(old(patients).value + [payload])
      ensures old(patients).None? ==>
        patients == None && isLoading == old(isLoading) && error == old(error)
      ensures currentPatient == old(currentPatient) && searchQuery == old(searchQuery)
    {
      if patients.None? {
        return;
      }
      isLoading := false;
      patients := Some(patients.value + [payload]);
      error := None;
    }

    method CreatePatientRejected(message: string)
      modifies this
      ensures !isLoading && error == Some(OrElse(message, FailedToCreate))
      ensures patients == old(patients) && currentPatient == old(currentPatient)
      ensures searchQuery == old(searchQuery)
    {
      Rejected(message, FailedToCreate);
    }
  }

  /** `dispatch(searchPatients(query))`: pending, the thunk body, then the
      settling case. A 401 fulfils with `undefined`, which becomes the list. */
  method SearchPatients(store: PatientStore, browser: Browser, query: string,
                        fetch: Request -> Fetched<seq<Patient>>)
    returns (sent: Option<Request>, settled: Settled<Option<seq<Patient>>>)
    modifies store, browser
    ensures IsBlank(query) <==> sent.None?
    ensures IsBlank(query) ==> settled == Fulfilled(Some([])) && unchanged(browser)
    ensures !IsBlank(query) ==> sent == Some(BuildRequest(old(browser.storage), SearchEndpoint(query), Get))
    ensures !IsBlank(query) && fetch(sent.value).Response? && IsOk(fetch(sent.value).status) ==>
      settled == Fulfilled(Some(fetch(sent.value).body))
    ensures !IsBlank(query) && fetch(sent.value).NetworkError? ==> settled == Rejected(fetch(sent.value).reason)
    ensures !IsBlank(query) && fetch(sent.value).Response? && fetch(sent.value).status == 401 ==>
      settled == Fulfilled(None) && browser.storage == old(browser.storage) - {TokenKey} && browser.location == "/"
    ensures !IsBlank(query) && fetch(sent.value).Response? && !IsOk(fetch(sent.value).status)
            && fetch(sent.value).status != 401 ==>
      settled == Rejected(ApiErrorMessage(fetch(sent.value).status, fetch(sent.value).statusText))
    ensures settled != Fulfilled(None) ==> unchanged(browser)
    ensures settled.Fulfilled? ==>
      store.patients == settled.payload && !store.isLoading && store.error == None
    ensures !IsBlank(query) && fetch(sent.value).Response? && fetch(sent.value).status == 401 ==>
      store.patients == None && !store.isLoading && store.error == None
    ensures settled.Rejected? ==>
      store.patients == old(store.patients) && !store.isLoading
      && store.error == Some(OrElse(settled.message, FailedToSearch))
    ensures store.currentPatient == old(store.currentPatient) && store.searchQuery == old(store.searchQuery)
  {
    store.Pending();
    sent, settled := SearchPatientsThunk(browser, query, fetch);
    match settled
    case Fulfilled(ps) => store.SearchFulfilled(ps);
    case Rejected(message) => store.SearchRejected(message);
  }

  /** What `.unwrap()` on the dispatched search gives its caller: the
      results, or a throw. An `undefined` payload is returned as is, and the
      caller's first use of it (`slice`, `length`) throws. */
  function Unwrap(settled: Settled<Option<seq<Patient>>>): (r: Result<seq<Patient>, string>)
    ensures r.Ok? <==> settled.Fulfilled? && settled.payload.Some?
    ensures r.Ok? ==> r.value == settled.payload.value
  {
    match settled
    case Fulfilled(Some(results)) => Ok(results)
    case Fulfilled(None) => Err(UndefinedResults)
    case Rejected(message) => Err(message)
  }

  /** The list and the error a non-blank search leaves in the store when
      its request was answered with `f`, the list having been `before`: the
      results of an ok answer, `undefined` after a 401, and otherwise the
      old list with the rejection's message. */
  predicate SearchStored(before: Option<seq<Patient>>, patients: Option<seq<Patient>>, error: Option<string>,
                         f: Fetched<seq<Patient>>) {
    match f
    case NetworkError(reason) => patients == before && error == Some(OrElse(reason, FailedToSearch))
    case Response(status, statusText, body) =>
      if IsOk(status) then patients == Some(body) && error == None
      else if status == 401 then patients == None && error == None
      else patients == before && error == Some(OrElse(ApiErrorMessage(status, statusText), FailedToSearch))
  }

  /** `await dispatch(searchPatients(query)).unwrap()` on a non-blank query:
      one request for the query, and the results of an ok response or the
      failure the caller catches. */
  method AwaitSearch(store: PatientStore, browser: Browser, query: string,
                     fetch: Request -> Fetched<seq<Patient>>)
    returns (sent: Request, outcome: Result<seq<Patient>, string>)
    requires !IsBlank(query)
    modifies store, browser
    ensures sent == BuildRequest(old(browser.storage), SearchEndpoint(query), Get)
    ensures outcome.Ok? <==> fetch(sent).Response? && IsOk(fetch(sent).status)
    ensures outcome.Ok? ==> outcome.value == fetch(sent).body
    ensures outcome.Ok? ==> unchanged(browser)
    ensures outcome.Ok? ==> store.patients == Some(outcome.value) && !store.isLoading && store.error == None
    ensures fetch(sent).Response? && fetch(sent).status == 401 ==>
      outcome == Err(UndefinedResults) && store.patients == None && !store.isLoading && store.error == None
      && browser.storage == old(browser.storage) - {TokenKey} && browser.location == "/"
    ensures fetch(sent).NetworkError? ==>
      outcome == Err(fetch(sent).reason) && unchanged(browser)
      && store.patients == old(store.patients) && !store.isLoading
      && store.error == Some(OrElse(fetch(sent).reason, FailedToSearch))
    ensures fetch(sent).Response? && !IsOk(fetch(sent).status) && fetch(sent).status != 401 ==>
      outcome == Err(ApiErrorMessage(fetch(sent).status, fetch(sent).statusText)) && unchanged(browser)
      && store.patients == old(store.patients) && !store.isLoading
      && store.error == Some(OrElse(ApiErrorMessage(fetch(sent).status, fetch(sent).statusText), FailedToSearch))
    ensures SearchStored(old(store.patients), store.patients, store.error, fetch(sent)) && !store.isLoading
    ensures browser.storage == StorageAfter(old(browser.storage), fetch(sent))
    ensures browser.location == LocationAfter(old(browser.location), fetch(sent))
    ensures store.currentPatient == old(store.currentPatient) && store.searchQuery == old(store.searchQuery)
  {
    var request, settled := SearchPatients(store, browser, query, fetch);
    sent := request.value;
    outcome := Unwrap(settled);
  }

  const UndefinedResults := ("Cannot read " + "properties of " + "undefined")
}
