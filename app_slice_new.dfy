/** The earlier workspace store (src/store/slices/appSliceNew.ts), which the
    application store does not register: `askAi` appends the question itself
    and answers after a fixed delay with a text picked by keywords, without
    any request. `formatDate` stands for `toLocaleDateString('de-DE')`. */
module AppSliceNew {
  import opened Wrappers
  import opened Text
  import opened Domain

  const EmptyGreeting := ("Hallo! Ich bin hier, " + "um Ihnen bei der " + "Analyse " + "radiologischer " + "Berichte zu helfen. " + "Bitte laden Sie eine " + "Patientenakte, um zu " + "beginnen.")
  const DefaultReply := ("Ich bin mir nicht " + "sicher, wie ich " + "helfen kann. Könnten " + "Sie das bitte " + "umformulieren?")
  const NumberHint := ("Selbstverständlich. " + "Bitte geben Sie die " + "Aktennummer in das " + "Suchfeld auf der " + "vorherigen Seite ein, " + "oder direkt im " + "Dokumenten-Panel.")
  const NoCtReply := ("In dieser Akte wurde " + "kein CT-Bericht " + "gefunden.")
  const Apology := ("Entschuldigung, es " + "gab einen Fehler bei " + "der Verarbeitung " + "Ihrer Anfrage.")
  /** The simulated answer time, in milliseconds. */
  const Delay := 1500

  const SummaryKeyword := "zusammenfassung"
  const CtKeyword := "letzte ct"
  const NumberKeyword := ("bitte geben sie die " + "nummer")

  /** The placeholder `loadPatient(id)` shows for any id but 'empty'. */
  function LoadingPlaceholder(id: string): string {
    "Patient mit ID " + id + " wird geladen..."
  }

  /** The placeholder names the id it is loading. */
  lemma PlaceholderNamesId(id: string)
    ensures Contains(LoadingPlaceholder(id), id)
  {
    ContainsMiddle("Patient mit ID ", id, " wird geladen...");
  }

  function ComorbidityNames(cs: seq<Comorbidity>): (names: seq<string>)
    ensures |names| == |cs| && forall i :: 0 <= i < |cs| ==> names[i] == cs[i].name
  {
    if cs == [] then [] else [cs[0].name] + ComorbidityNames(cs[1..])
  }

  /** The diagnosis, status and comorbidity lines of the summary. */
  function SummaryDetails(p: Patient): string {
    ("**:\n\n- " + "**Hauptdiagnose:** ") + JsText(p.primaryCondition)
    + ("\n- **Aktueller " + "Status:** ") + JsText(p.currentStatus)
    + ("\n- **Wesentliche " + "Komorbiditäten:** ") + Join(ComorbidityNames(p.comorbidities), ", ") + "."
  }

  function SummaryReply(p: Patient): string {
    ("Selbstverständlich. " + "Hier ist eine " + "Zusammenfassung der " + "Akte von **") + FullName(p) + SummaryDetails(p)
  }

  function CtReply(r: Report, formatDate: int -> string): string {
    ("Das letzte CT " + "Thorax/Abdomen vom **") + formatDate(r.date) + "** zeigt: *" + JsText(r.summary) + "*"
  }

  /** `reports.find(r => r.type === kind)`, as the index found (|reports|
      when there is none). */
  function FindKind(reports: seq<Report>, kind: string): (i: nat)
    ensures i <= |reports|
    ensures i < |reports| ==> reports[i].kind == kind
    ensures forall j :: 0 <= j < i ==> reports[j].kind != kind
  {
    if reports == [] then 0
    else if reports[0].kind == kind then 0
    else 1 + FindKind(reports[1..], kind)
  }

  /** The reply text `askAi` picks, on the lower-cased question. */
  function SelectReply(patient: Option<Patient>, question: string, formatDate: int -> string): string {
    var q := Lower(question);
    match patient
    case Some(p) =>
      if Contains(q, SummaryKeyword) then SummaryReply(p)
      else if Contains(q, CtKeyword) then
        var i := FindKind(p.reports, "Radiologie");
        if i < |p.reports| then CtReply(p.reports[i], formatDate) else NoCtReply
      else DefaultReply
    case None =>
      if Contains(q, NumberKeyword) then NumberHint else DefaultReply
  }

  /** With a patient, the summary keyword wins over every other keyword and
      the answer names the patient. */
  lemma SummaryWins(p: Patient, question: string, formatDate: int -> string)
    requires Contains(Lower(question), SummaryKeyword)
    ensures SelectReply(Some(p), question, formatDate) == SummaryReply(p)
    ensures Contains(SelectReply(Some(p), question, formatDate), FullName(p))
  {
    ContainsMiddle(("Selbstverständlich. " + "Hier ist eine " + "Zusammenfassung der " + "Akte von **"), FullName(p), SummaryDetails(p));
  }

  /** Asked for the last CT, the answer is about the first radiology report
      of the record, or says that there is none. */
  lemma CtAnswer(p: Patient, question: string, formatDate: int -> string)
    requires !Contains(Lower(question), SummaryKeyword) && Contains(Lower(question), CtKeyword)
    ensures var r := SelectReply(Some(p), question, formatDate);
      (exists i :: 0 <= i < |p.reports| && p.reports[i].kind == "Radiologie"
                   && (forall j :: 0 <= j < i ==> p.reports[j].kind != "Radiologie")
                   && r == CtReply(p.reports[i], formatDate))
      || (r == NoCtReply && forall j :: 0 <= j < |p.reports| ==> p.reports[j].kind != "Radiologie")
  {
    var i := FindKind(p.reports, "Radiologie");
    if i < |p.reports| {
      assert SelectReply(Some(p), question, formatDate) == CtReply(p.reports[i], formatDate);
    }
  }

  /** Any other question about a patient gets the default answer; without a
      patient only the number keyword changes the default. */
  lemma OtherQuestions(patient: Option<Patient>, question: string, formatDate: int -> string)
    ensures patient.Some? && !Contains(Lower(question), SummaryKeyword) && !Contains(Lower(question), CtKeyword) ==>
      SelectReply(patient, question, formatDate) == DefaultReply
    ensures patient.None? ==>
      SelectReply(patient, question, formatDate) ==
        if Contains(Lower(question), NumberKeyword) then NumberHint else DefaultReply
  {
  }

  class AppStoreNew {
    var patient: Option<Patient>
    var messages: seq<ChatMessage>
    var isAiTyping: bool
    var isCalendarOpen: bool
    var dateRange: DateRange

    constructor ()
      ensures patient == None && messages == [] && !isAiTyping && !isCalendarOpen && dateRange == NoRange
    {
      patient, messages, isAiTyping, isCalendarOpen, dateRange := None, [], false, false, NoRange;
    }

    /** 'empty' leaves the generic greeting; any other id leaves no patient
        and one placeholder tagged with that id. */
    method LoadPatient(payload: string, now: int)
      modifies this
      ensures patient == None && |messages| == 1 && messages[0].sender == FromAi
      ensures payload == "empty" ==> messages[0] == ChatMessage(now, "", FromAi, EmptyGreeting, now)
      ensures payload != "empty" ==> messages[0] == ChatMessage(now, payload, FromAi, LoadingPlaceholder(payload), now)
      ensures isAiTyping == old(isAiTyping) && isCalendarOpen == old(isCalendarOpen) && dateRange == old(dateRange)
    {
      patient := None;
      if payload == "empty" {
        messages := [ChatMessage(now, "", FromAi, EmptyGreeting, now)];
      } else {
        messages := [ChatMessage(now, payload, FromAi, LoadingPlaceholder(payload), now)];
      }
    }

    method UnloadPatient()
      modifies this
      ensures patient == None && messages == []
      ensures isAiTyping == old(isAiTyping) && isCalendarOpen == old(isCalendarOpen) && dateRange == old(dateRange)
    {
      patient := None;
      messages := [];
    }

    method AddMessage(m: ChatMessage)
      modifies this
      ensures messages == old(messages) + [m] && patient == old(patient)
      ensures isAiTyping == old(isAiTyping) && isCalendarOpen == old(isCalendarOpen) && dateRange == old(dateRange)
    {
      messages := messages + [m];
    }

    method OpenCalendar()
      modifies this
      ensures isCalendarOpen && patient == old(patient) && messages == old(messages)
      ensures isAiTyping == old(isAiTyping) && dateRange == old(dateRange)
    {
      isCalendarOpen := true;
    }

    method CloseCalendar()
      modifies this
      ensures !isCalendarOpen && patient == old(patient) && messages == old(messages)
      ensures isAiTyping == old(isAiTyping) && dateRange == old(dateRange)
    {
      isCalendarOpen := false;
    }

    method SetDateRange(r: DateRange)
      modifies this
      ensures dateRange == r && patient == old(patient) && messages == old(messages)
      ensures isAiTyping == old(isAiTyping) && isCalendarOpen == old(isCalendarOpen)
    {
      dateRange := r;
    }

    /** Only the indicator changes when a question is asked. */
    method AskPending()
      modifies this
      ensures isAiTyping && patient == old(patient) && messages == old(messages)
      ensures isCalendarOpen == old(isCalendarOpen) && dateRange == old(dateRange)
    {
      isAiTyping := true;
    }

    method AskFulfilled(reply: ChatMessage)
      modifies this
      ensures !isAiTyping && messages == old(messages) + [reply] && patient == old(patient)
      ensures isCalendarOpen == old(isCalendarOpen) && dateRange == old(dateRange)
    {
      isAiTyping := false;
      messages := messages + [reply];
    }

    /** The one fixed apology, tagged with the resident patient. */
    method AskRejected(now: int)
      modifies this
      ensures !isAiTyping && patient == old(patient)
      ensures messages == old(messages) + [ChatMessage(now, if patient.Some? then patient.value.id else "", FromAi, Apology, now)]
      ensures isCalendarOpen == old(isCalendarOpen) && dateRange == old(dateRange)
    {
      isAiTyping := false;
      messages := messages + [ChatMessage(now, if patient.Some? then patient.value.id else "", FromAi, Apology, now)];
    }
  }

  /** `dispatch(askAi(question))`: pending, then the question appended through
      `addMessage` at `asked`, then after the delay the picked answer, whose
      id is the clock reading plus one, appended by the fulfilled case. The
      body cannot throw, so this thunk never takes its rejected case. */
  method AskAi(store: AppStoreNew, question: string, formatDate: int -> string, asked: int, answered: int)
    requires answered >= asked + Delay
    modifies store
    ensures var tag := if old(store.patient).Some? then old(store.patient).value.id else "";
      store.messages == old(store.messages) + [
        ChatMessage(asked, tag, FromUser, question, asked),
        ChatMessage(answered + 1, tag, FromAi, SelectReply(old(store.patient), question, formatDate), answered)]
    ensures store.messages[|old(store.messages)|].id < store.messages[|old(store.messages)| + 1].id
    ensures !store.isAiTyping && store.patient == old(store.patient)
    ensures store.isCalendarOpen == old(store.isCalendarOpen) && store.dateRange == old(store.dateRange)
  {
    store.AskPending();
    var patient := store.patient;
    var tag := if patient.Some? then patient.value.id else "";
    store.AddMessage(ChatMessage(asked, tag, FromUser, question, asked));
    var text := SelectReply(patient, question, formatDate);
    store.AskFulfilled(ChatMessage(answered + 1, tag, FromAi, text, answered));
  }
}
