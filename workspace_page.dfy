/** The load effect of the workspace page (src/pages/WorkspacePage.tsx):
    which store action the route's patient id calls for, and the sequence
    of dispatches that follows. */
module WorkspacePage {
  import opened Wrappers
  import opened Domain
  import opened Api
  import opened AppSlice

  datatype LoadDecision = GoToLogin | NoLoad | LoadEmpty | LoadById(id: string)

  /** The branch the effect takes, from the signed-in user, the route
      parameter (absent or '' is falsy) and the resident patient. */
  function Decide(signedIn: bool, patientId: Option<string>, resident: Option<Patient>): LoadDecision {
    if !signedIn then GoToLogin
    else if patientId.None? || patientId.value == "" then NoLoad
    else if patientId.value == "empty" then LoadEmpty
    else if resident.None? || resident.value.id != patientId.value then LoadById(patientId.value)
    else NoLoad
  }

  /** Without a user the page leaves for '/login' and loads nothing; without
      an id nothing happens; 'empty' only shows the greeting; a real id is
      loaded exactly when no patient, or another one, is resident, and the
      load is for that id. */
  lemma DecideCases(signedIn: bool, patientId: Option<string>, resident: Option<Patient>)
    ensures !signedIn <==> Decide(signedIn, patientId, resident) == GoToLogin
    ensures signedIn && (patientId.None? || patientId.value == "") ==> Decide(signedIn, patientId, resident) == NoLoad
    ensures Decide(signedIn, patientId, resident) == LoadEmpty <==> signedIn && patientId == Some("empty")
    ensures Decide(signedIn, patientId, resident).LoadById? <==>
      signedIn && patientId.Some? && patientId.value !in {"", "empty"}
      && (resident.None? || resident.value.id != patientId.value)
    ensures Decide(signedIn, patientId, resident).LoadById? ==>
      Decide(signedIn, patientId, resident).id == patientId.value
  {
  }

  /** The effect re-runs whenever the resident patient changes. When one
      patient is replaced by another, the pending case of the first load
      clears the resident patient, so the re-run decides to load the same
      id a second time. */
  lemma SwitchingPatientsLoadsTwice(s: AppState, resident: Patient, patientId: string, now: int)
    requires s.patient == Some(resident) && patientId !in {"", "empty", resident.id}
    ensures Decide(true, Some(patientId), s.patient) == LoadById(patientId)
    ensures var afterPending := Reduce(s, LoadByIdPending, now);
      afterPending.patient != s.patient && Decide(true, Some(patientId), afterPending.patient) == LoadById(patientId)
  {
  }

  /** One run of the effect. A load by id is followed (`.then`) by a history
      load for the same id, unless the load was answered with 401: its
      `undefined` payload makes the fulfilled case throw while it is being
      dispatched, which rejects the promise, so the `.then` callback never
      runs and the store stays as the pending case left it. A rejected load
      does not throw, so its `.then` runs. */
  method RunEffect(app: AppStore, browser: Browser, currentUser: Option<User>, patientId: Option<string>,
                   fetchPatient: Request -> Fetched<Patient>, fetchHistory: Request -> Fetched<seq<ChatMessage>>,
                   started: int, loaded: int)
    returns (decision: LoadDecision, patientRequest: Option<Request>, historyRequest: Option<Request>)
    modifies app, browser
    ensures decision == Decide(currentUser.Some?, patientId, old(app.patient))
    ensures decision == GoToLogin ==>
      browser.location == "/login" && browser.storage == old(browser.storage) && app.State() == old(app.State())
    ensures decision == NoLoad ==> unchanged(browser) && app.State() == old(app.State())
    ensures decision == LoadEmpty ==>
      unchanged(browser) && app.State() == Reduce(old(app.State()), AppAction.LoadPatient("empty"), started)
    ensures decision.LoadById? <==> patientRequest.Some?
    ensures decision.LoadById? ==>
      patientRequest.value == BuildRequest(old(browser.storage), PatientEndpoint(decision.id), Get)
    ensures historyRequest.Some? <==>
      patientRequest.Some? &&
      !(fetchPatient(patientRequest.value).Response? && fetchPatient(patientRequest.value).status == 401)
    ensures historyRequest.Some? ==>
      historyRequest.value == BuildRequest(old(browser.storage), HistoryEndpoint(decision.id), Get)
    ensures patientRequest.Some? && historyRequest.None? ==>
      app.State() == Reduce(old(app.State()), LoadByIdPending, started)
      && browser.storage == old(browser.storage) - {TokenKey} && browser.location == "/"
    ensures historyRequest.Some? ==>
      var loadedState := LoadByIdSettle(Reduce(old(app.State()), LoadByIdPending, started),
                                        ResultOf(fetchPatient(patientRequest.value)), loaded);
      app.State() == HistorySettle(loadedState, fetchHistory(historyRequest.value))
    ensures historyRequest.Some? ==>
      browser.storage == StorageAfter(old(browser.storage), fetchHistory(historyRequest.value))
      && browser.location == LocationAfter(old(browser.location), fetchHistory(historyRequest.value))
  {
    decision := Decide(currentUser.Some?, patientId, app.patient);
    patientRequest, historyRequest := None, None;
    match decision
    case GoToLogin =>
      browser.location := "/login";
    case NoLoad =>
    case LoadEmpty =>
      app.LoadPatient("empty", started);
    case LoadById(id) =>
      var p, result := LoadPatientById(app, browser, id, fetchPatient, started, loaded);
      patientRequest := Some(p);
      if !result.Undefined? {
        var h := LoadChatHistory(app, browser, id, fetchHistory);
        historyRequest := Some(h);
      }
  }
}
