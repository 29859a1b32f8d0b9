/** The documents panel (src/components/DocumentsPanel_new.tsx): the report
    filter of the resident patient, the date-range controls, and a
    debounced patient search box whose submit decides by the number of
    results. */
module DocumentsPanel {
  import opened Wrappers
  import opened Text
  import opened Seqs
  import opened Domain
  import opened Api
  import opened SearchBox
  import PatientSlice
  import AppSlice

  const BlankQueryError := ("Bitte geben Sie eine " + "Suchanfrage ein.")
  const NotFoundError := ("❌ Keine Patienten " + "gefunden. Bitte " + "überprüfen Sie Ihre " + "Suchanfrage.")
  const SearchFailedError := ("❌ Fehler bei der " + "Suche. Bitte " + "versuchen Sie es " + "erneut.")

  /** This page's error texts, shown through `AlertLine`. */
  const Texts := AlertTexts(BlankQueryError, NotFoundError, SearchFailedError)

  /** What `summary.toLowerCase()` throws on a report without summary. */
  const NullSummary := ("Cannot read " + "properties of null " + "(reading " + "'toLowerCase')")

  /** The term test of the report filter, on lower-cased text. */
  function MatchesTerm(term: string): Report -> bool {
    (r: Report) => Contains(Lower(r.title), Lower(term))
         || (r.summary.Some? && Contains(Lower(r.summary.value), Lower(term)))
         || Contains(Lower(r.kind), Lower(term))
  }

  /** The term test reaches `summary.toLowerCase()` on a null summary. */
  predicate ThrowsOn(term: string, r: Report) {
    !Contains(Lower(r.title), Lower(term)) && r.summary.None?
  }

  /** The date test, inclusive at both ends; it applies only with both bounds. */
  function WithinRange(range: DateRange): Report -> bool {
    (r: Report) => Bounded(range) ==> range.startDate.value <= r.date <= range.endDate.value
  }

  /** `filteredReports`: no patient gives no reports; a non-empty term keeps
      the reports it matches; a bounded range keeps the reports inside it. */
  function FilteredReports(patient: Option<Patient>, term: string, range: DateRange): Result<seq<Report>, string> {
    match patient
    case None => Ok([])
    case Some(p) =>
      if term != "" && exists i :: 0 <= i < |p.reports| && ThrowsOn(term, p.reports[i]) then Err(NullSummary)
      else
        var byTerm := if term != "" then Filter(p.reports, MatchesTerm(term)) else p.reports;
        Ok(if Bounded(range) then Filter(byTerm, WithinRange(range)) else byTerm)
  }

  /** The filtered reports keep their order, and a report is kept exactly
      when the term (if any) matches it and its date lies in the range (if
      both bounds are set). The filter fails only on a report the term does
      not match by title whose summary is null. */
  lemma FilteredReportsSpec(patient: Option<Patient>, term: string, range: DateRange)
    ensures patient.None? ==> FilteredReports(patient, term, range) == Ok([])
    ensures patient.Some? ==>
      (FilteredReports(patient, term, range).Err? <==>
         term != "" && exists i :: 0 <= i < |patient.value.reports| && ThrowsOn(term, patient.value.reports[i]))
    ensures patient.Some? && FilteredReports(patient, term, range).Ok? ==>
      var kept := FilteredReports(patient, term, range).value;
      var reports := patient.value.reports;
      IsSubsequence(kept, reports)
      && forall r :: r in kept <==>
           r in reports && (term == "" || MatchesTerm(term)(r))
           && (Bounded(range) ==> range.startDate.value <= r.date <= range.endDate.value)
  {
    if patient.Some? && FilteredReports(patient, term, range).Ok? {
      var reports := patient.value.reports;
      var matches := MatchesTerm(term);
      var within := WithinRange(range);
      if term != "" && Bounded(range) {
        var both := (r: Report) => matches(r) && within(r);
        FilterFilter(reports, matches, within, both);
        FilterMembers(reports, both);
        FilterIsSubsequence(reports, both);
      } else if term != "" {
        FilterMembers(reports, matches);
        FilterIsSubsequence(reports, matches);
      } else {
        if !Bounded(range) {
          FilterAll(reports, within);
        }
        FilterMembers(reports, within);
        FilterIsSubsequence(reports, within);
      }
    }
  }

  /** What the submit handler searches: nothing for a blank query (it shows
      an error instead), otherwise the trimmed query, which is not blank. */
  function SubmittedQuery(q: string): (r: Option<string>)
    ensures r.None? <==> IsBlank(q)
    ensures r.Some? ==> r.value == Trim(q) && !IsBlank(r.value)
  {
    if IsBlank(q) then None
    else
      TrimNotBlank(q);
      Some(Trim(q))
  }

  /** The part of the page the submit handler's reaction touches: the error
      line, the suggestion list, and the browser's location. */
  datatype View = View(error: Alert, suggestions: seq<Patient>, showSuggestions: bool, location: string)

  /** The reaction to a settled submit search: no result shows the not-found
      error, exactly one opens that patient's workspace, several are offered
      as at most five shown suggestions, and a throw shows the search error.
      Each case touches only its own part of the view. */
  function SubmitReaction(result: Result<seq<Patient>, string>, v: View): (w: View)
    ensures result.Ok? && |result.value| == 0 ==> w == v.(error := NotFound)
    ensures result.Ok? && |result.value| == 1 ==> w == v.(location := WorkspacePath(result.value[0].id))
    ensures result.Ok? && |result.value| > 1 ==>
      w == v.(suggestions := Take(result.value, MaxSuggestions), showSuggestions := true)
      && 1 < |w.suggestions| <= MaxSuggestions
    ensures result.Err? ==> w == v.(error := SearchFailed)
  {
    match result
    case Ok(results) =>
      if |results| == 0 then v.(error := NotFound)
      else if |results| == 1 then v.(location := WorkspacePath(results[0].id))
      else v.(suggestions := Take(results, MaxSuggestions), showSuggestions := true)
    case Err(_) => v.(error := SearchFailed)
  }

  class Panel {
    var searchTerm: string
    var patientSearchQuery: string
    var error: Alert
    var suggestions: seq<Patient>
    var showSuggestions: bool
    var timer: Timer

    function ViewOf(browser: Browser): View
      reads this, browser
    {
      View(error, suggestions, showSuggestions, browser.location)
    }

    constructor ()
      ensures searchTerm == "" && patientSearchQuery == "" && error == NoAlert
      ensures suggestions == [] && !showSuggestions && timer == Idle
    {
      searchTerm, patientSearchQuery, error := "", "", NoAlert;
      suggestions, showSuggestions, timer := [], false, Idle;
    }

    method SetSearchTerm(term: string)
      modifies this
      ensures searchTerm == term && patientSearchQuery == old(patientSearchQuery) && error == old(error)
      ensures suggestions == old(suggestions) && showSuggestions == old(showSuggestions) && timer == old(timer)
    {
      searchTerm := term;
    }

    /** `handlePatientSearchInput(value)`: the raw value is kept, the error
        cleared, and the pending timer replaced by one for this value. */
    method PatientSearchInput(value: string, now: int)
      modifies this
      ensures patientSearchQuery == value && error == NoAlert
      ensures timer == Step(old(timer), Keystroke(now, value)).0 && timer == Arm(now, value)
      ensures searchTerm == old(searchTerm) && suggestions == old(suggestions)
      ensures showSuggestions == old(showSuggestions)
    {
      patientSearchQuery := value;
      error := NoAlert;
      timer := Arm(now, value);
    }

    /** The search a fired timer starts for `query`: one request, then at
        most five results offered, or the box hidden when the search throws. */
    method Offer(query: string, store: PatientSlice.PatientStore, browser: Browser,
                 fetch: Request -> Fetched<seq<Patient>>)
      returns (sent: Request, outcome: Result<seq<Patient>, string>)
      requires !IsBlank(query)
      modifies this, store, browser
      ensures sent == BuildRequest(old(browser.storage), PatientSlice.SearchEndpoint(query), Get)
      ensures (suggestions, showSuggestions) == Suggestions(outcome)
      ensures outcome.Ok? <==> fetch(sent).Response? && IsOk(fetch(sent).status)
      ensures outcome.Ok? ==> outcome.value == fetch(sent).body
      ensures PatientSlice.SearchStored(old(store.patients), store.patients, store.error, fetch(sent)) && !store.isLoading
      ensures browser.storage == StorageAfter(old(browser.storage), fetch(sent))
      ensures browser.location == LocationAfter(old(browser.location), fetch(sent))
      ensures store.currentPatient == old(store.currentPatient) && store.searchQuery == old(store.searchQuery)
      ensures patientSearchQuery == old(patientSearchQuery) && error == old(error) && searchTerm == old(searchTerm)
      ensures timer == old(timer)
    {
      sent, outcome := PatientSlice.AwaitSearch(store, browser, query, fetch);
      suggestions, showSuggestions := Suggestions(outcome).0, Suggestions(outcome).1;
    }

    /** A clock tick: a due timer fires once. With a trimmed value of at
        least two characters it searches that text and offers at most five
        results, or hides the suggestions when the search throws; a shorter
        value hides them without a request. */
    method TimerTick(now: int, store: PatientSlice.PatientStore, browser: Browser,
                     fetch: Request -> Fetched<seq<Patient>>)
      returns (fired: Option<string>, sent: Option<Request>, outcome: Option<Result<seq<Patient>, string>>)
      modifies this, store, browser
      ensures (timer, fired) == Step(old(timer), Tick(now))
      ensures fired.None? ==>
        sent.None? && unchanged(store) && unchanged(browser)
        && suggestions == old(suggestions) && showSuggestions == old(showSuggestions)
      ensures fired.Some? && SearchText(fired.value).None? ==>
        sent.None? && unchanged(store) && unchanged(browser) && suggestions == [] && !showSuggestions
      ensures fired.Some? && SearchText(fired.value).Some? ==>
        sent == Some(BuildRequest(old(browser.storage), PatientSlice.SearchEndpoint(SearchText(fired.value).value), Get))
        && outcome.Some? && (suggestions, showSuggestions) == Suggestions(outcome.value)
        && (outcome.value.Ok? <==> fetch(sent.value).Response? && IsOk(fetch(sent.value).status))
        && (outcome.value.Ok? ==> outcome.value.value == fetch(sent.value).body)
      ensures sent.Some? ==>
        PatientSlice.SearchStored(old(store.patients), store.patients, store.error, fetch(sent.value))
        && !store.isLoading
        && browser.storage == StorageAfter(old(browser.storage), fetch(sent.value))
        && browser.location == LocationAfter(old(browser.location), fetch(sent.value))
      ensures store.currentPatient == old(store.currentPatient) && store.searchQuery == old(store.searchQuery)
      ensures patientSearchQuery == old(patientSearchQuery) && error == old(error) && searchTerm == old(searchTerm)
    {
      sent, outcome := None, None;
      if !Due(timer, now) {
        fired := None;
        return;
      }
      fired := Some(timer.value);
      timer := Idle;
      var query := SearchText(fired.value);
      if query.None? {
        suggestions, showSuggestions := [], false;
        return;
      }
      var request, result := Offer(query.value, store, browser, fetch);
      sent, outcome := Some(request), Some(result);
    }

    /** `handlePatientSelect(patient)`. */
    method PatientSelect(patient: Patient, browser: Browser)
      modifies this, browser
      ensures browser.location == WorkspacePath(patient.id) && browser.storage == old(browser.storage)
      ensures !showSuggestions && patientSearchQuery == ""
      ensures suggestions == old(suggestions) && error == old(error) && timer == old(timer)
      ensures searchTerm == old(searchTerm)
    {
      browser.location := WorkspacePath(patient.id);
      showSuggestions := false;
      patientSearchQuery := "";
    }

    /** `handlePatientSearchSubmit()`: a blank query is refused without a
        request; otherwise the trimmed query is searched, and no result
        shows an error, one result opens its workspace, several are offered
        as (at most five) suggestions, and a throw shows the search error.
        The pending timer is left as it is. */
    method PatientSearchSubmit(store: PatientSlice.PatientStore, browser: Browser,
                               fetch: Request -> Fetched<seq<Patient>>)
      returns (sent: Option<Request>, outcome: Option<Result<seq<Patient>, string>>)
      modifies this, store, browser
      ensures sent.None? <==> SubmittedQuery(old(patientSearchQuery)).None?
      ensures sent.None? <==> outcome.None?
      ensures sent.None? ==>
        ViewOf(browser) == old(ViewOf(browser)).(error := BlankQuery)
        && unchanged(store) && browser.storage == old(browser.storage)
      ensures sent.Some? ==>
        sent.value == BuildRequest(old(browser.storage), PatientSlice.SearchEndpoint(SubmittedQuery(old(patientSearchQuery)).value), Get)
        && (outcome.value.Ok? <==> fetch(sent.value).Response? && IsOk(fetch(sent.value).status))
        && (outcome.value.Ok? ==> outcome.value.value == fetch(sent.value).body)
      ensures outcome.Some? && outcome.value.Ok? ==>
        ViewOf(browser) == SubmitReaction(outcome.value, old(ViewOf(browser)))
      ensures outcome.Some? && outcome.value.Err? ==>
        error == SearchFailed && suggestions == old(suggestions) && showSuggestions == old(showSuggestions)
      ensures sent.Some? ==>
        var answer := fetch(sent.value);
        PatientSlice.SearchStored(old(store.patients), store.patients, store.error, answer) && !store.isLoading
        && browser.storage == StorageAfter(old(browser.storage), answer)
        && ViewOf(browser) ==
             SubmitReaction(outcome.value, old(ViewOf(browser)).(location := LocationAfter(old(browser.location), answer)))
      ensures store.currentPatient == old(store.currentPatient) && store.searchQuery == old(store.searchQuery)
      ensures timer == old(timer) && patientSearchQuery == old(patientSearchQuery) && searchTerm == old(searchTerm)
    {
      var query := SubmittedQuery(patientSearchQuery);
      if query.None? {
        error := BlankQuery;
        sent, outcome := None, None;
      } else {
        var request, result := SearchSubmitted(query.value, store, browser, fetch);
        sent, outcome := Some(request), Some(result);
      }
    }

    /** The submit handler past the blank check: one search for the query,
        then the reaction to its outcome. */
    method SearchSubmitted(query: string, store: PatientSlice.PatientStore, browser: Browser,
                           fetch: Request -> Fetched<seq<Patient>>)
      returns (sent: Request, outcome: Result<seq<Patient>, string>)
      requires !IsBlank(query)
      modifies this, store, browser
      ensures sent == BuildRequest(old(browser.storage), PatientSlice.SearchEndpoint(query), Get)
      ensures outcome.Ok? <==> fetch(sent).Response? && IsOk(fetch(sent).status)
      ensures outcome.Ok? ==> outcome.value == fetch(sent).body
      ensures outcome.Ok? ==> ViewOf(browser) == SubmitReaction(outcome, old(ViewOf(browser)))
      ensures outcome.Err? ==>
        error == SearchFailed && suggestions == old(suggestions) && showSuggestions == old(showSuggestions)
      ensures PatientSlice.SearchStored(old(store.patients), store.patients, store.error, fetch(sent)) && !store.isLoading
      ensures browser.storage == StorageAfter(old(browser.storage), fetch(sent))
      ensures ViewOf(browser) ==
        SubmitReaction(outcome, old(ViewOf(browser)).(location := LocationAfter(old(browser.location), fetch(sent))))
      ensures store.currentPatient == old(store.currentPatient) && store.searchQuery == old(store.searchQuery)
      ensures timer == old(timer) && patientSearchQuery == old(patientSearchQuery) && searchTerm == old(searchTerm)
    {
      var before := (timer, patientSearchQuery, searchTerm, error, suggestions, showSuggestions);
      sent, outcome := PatientSlice.AwaitSearch(store, browser, query, fetch);
      assert (timer, patientSearchQuery, searchTerm, error, suggestions, showSuggestions) == before;
      ShowOutcome(outcome, browser);
    }

    /** How the submit handler reacts to the settled search. */
    method ShowOutcome(result: Result<seq<Patient>, string>, browser: Browser)
      modifies this, browser
      ensures ViewOf(browser) == SubmitReaction(result, old(ViewOf(browser)))
      ensures browser.storage == old(browser.storage)
      ensures timer == old(timer) && patientSearchQuery == old(patientSearchQuery) && searchTerm == old(searchTerm)
    {
      match result
      case Ok(results) =>
        if |results| == 0 {
          error := NotFound;
        } else if |results| == 1 {
          browser.location := WorkspacePath(results[0].id);
        } else {
          suggestions, showSuggestions := Take(results, MaxSuggestions), true;
        }
      case Err(_) =>
        error := SearchFailed;
    }

    /** The cleanup when the panel unmounts cancels the pending timer. */
    method Unmount()
      modifies this
      ensures timer == Idle
      ensures patientSearchQuery == old(patientSearchQuery) && error == old(error) && searchTerm == old(searchTerm)
      ensures suggestions == old(suggestions) && showSuggestions == old(showSuggestions)
    {
      timer := Idle;
    }
  }

  /** The start-date input: a new start, the end kept. */
  method ChangeStartDate(app: AppSlice.AppStore, startDate: Option<int>)
    modifies app
    ensures app.dateRange == DateRange(startDate, old(app.dateRange.endDate))
    ensures app.State() == old(app.State()).(dateRange := app.dateRange)
  {
    app.SetDateRange(DateRange(startDate, app.dateRange.endDate));
  }

  /** The end-date input: a new end, the start kept. */
  method ChangeEndDate(app: AppSlice.AppStore, endDate: Option<int>)
    modifies app
    ensures app.dateRange == DateRange(old(app.dateRange.startDate), endDate)
    ensures app.State() == old(app.State()).(dateRange := app.dateRange)
  {
    app.SetDateRange(DateRange(app.dateRange.startDate, endDate));
  }

  /** `resetDateFilter()`: both bounds null. */
  method ResetDateFilter(app: AppSlice.AppStore)
    modifies app
    ensures app.dateRange == NoRange
    ensures app.State() == old(app.State()).(dateRange := NoRange)
  {
    app.SetDateRange(NoRange);
  }
}
