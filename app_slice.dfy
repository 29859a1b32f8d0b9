/** The workspace store (src/store/slices/appSlice.ts): the resident patient,
    the transcript, the typing indicator, the calendar flag, the date range
    and the `chatReset` flag that makes the next history load stale.

    `Reduce` is the reducer as a function of the state, the action and the
    clock reading `Date.now()` at dispatch time (it is both the id and the
    timestamp of the messages a case creates); `Run` folds it over a
    sequence of dispatches, so overlapping thunks are just interleavings of
    their pending, fulfilled and rejected actions. `AppStore` is the store
    itself, with one method per case.

    The transcript is `undefined` (None) after a history load that a 401
    fulfilled with `undefined`. A case that pushes onto it then throws, and
    the reducer's draft is discarded, so the state does not change. */
module AppSlice {
  import opened Wrappers
  import opened Text
  import opened Domain
  import opened Api

  /** What reading `message_id` of `undefined` (the 401 answer) throws. */
  const UndefinedResponse := ("Cannot read " + "properties of " + "undefined (reading " + "'message_id')")

  datatype AppState = AppState(
    patient: Option<Patient>,
    messages: Option<seq<ChatMessage>>,
    isAiTyping: bool,
    isCalendarOpen: bool,
    dateRange: DateRange,
    chatReset: bool)

  const Initial: AppState := AppState(None, Some([]), false, false, NoRange, false)

  datatype AppAction =
    | LoadPatient(payload: string)
    | UnloadPatient
    | ResetChat
    | AddMessage(message: ChatMessage)
    | OpenCalendar
    | CloseCalendar
    | SetDateRange(range: DateRange)
    | LoadByIdPending
    | LoadByIdFulfilled(loaded: Patient)
    | LoadByIdRejected
    | HistoryFulfilled(history: Option<seq<ChatMessage>>)
    | AskPending(question: string)
    | AskFulfilled(reply: ChatMessage)
    | AskRejected(errorMessage: string)
    | ResetCompletelyFulfilled

  /** One dispatch: the action and the clock reading at that moment. */
  datatype Event = Event(action: AppAction, now: int)

  /** The diagnosis and status lines under the greeting of a record. */
  function GreetingDetails(p: Patient): string {
    ("** geladen. Wie kann " + "ich Ihnen helfen?\n\n" + "**Diagnose:** ") + JsText(p.primaryCondition)
    + "\n**Status:** " + JsText(p.currentStatus)
  }

  function PatientGreeting(p: Patient): string {
    ("Hallo! Ich habe die " + "Akte von **") + FullName(p) + GreetingDetails(p)
  }

  /** `errorMessage || 'Entschuldigung, …'`. */
  function ErrorDetail(errorMessage: string): string {
    OrElse(errorMessage, ("Entschuldigung, es " + "gab einen Fehler bei " + "der Verarbeitung " + "Ihrer Anfrage."))
  }

  /** The tip of the error message: load a record first, or try again. */
  function Tip(hasPatient: bool): string {
    if !hasPatient then ("Bitte laden Sie " + "zuerst eine " + "Patientenakte.") else ("Bitte versuchen Sie " + "es erneut.")
  }

  function AskErrorText(errorMessage: string, hasPatient: bool): string {
    "❌ **Fehler**\n\n" + ErrorDetail(errorMessage) + ("\n\n**Tipp:** " + Tip(hasPatient))
  }

  /** `state.patient?.id || ''`. */
  function Tag(patient: Option<Patient>): string {
    if patient.Some? then patient.value.id else ""
  }

  /** A message the store writes itself, stamped with the clock. */
  function AiMessage(tag: string, text: string, now: int): ChatMessage {
    ChatMessage(now, tag, FromAi, text, now)
  }

  /** The generic greeting, untagged. */
  function EmptyGreeting(now: int): ChatMessage {
    AiMessage("", ("Hallo! Ich bin hier, " + "um Ihnen bei der " + "Analyse " + "radiologischer " + "Berichte zu helfen. " + "Bitte laden Sie eine " + "Patientenakte, um zu " + "beginnen."), now)
  }

  /** What `loadPatient('not-found')` shows. */
  function NotFoundNotice(now: int): ChatMessage {
    AiMessage("", ("❌ **Kein Patient " + "gefunden**\n\nDer " + "gesuchte Patient " + "konnte nicht gefunden " + "werden. Bitte " + "überprüfen Sie Ihre " + "Suchanfrage und " + "versuchen Sie es " + "erneut.\n\n**Tipps:**\n- " + "Verwenden Sie die " + "vollständige " + "Patienten-ID\n- " + "Überprüfen Sie die " + "Schreibweise des " + "Namens\n- Versuchen " + "Sie nur den Nachnamen " + "oder Vornamen"), now)
  }

  /** What `loadPatientById.pending` shows. */
  function LoadingNotice(now: int): ChatMessage {
    AiMessage("", ("Patient wird " + "geladen..."), now)
  }

  /** What `loadPatientById.rejected` shows. */
  function LoadErrorNotice(now: int): ChatMessage {
    AiMessage("", ("Fehler beim Laden des " + "Patienten. Bitte " + "versuchen Sie es " + "erneut."), now)
  }

  /** The single greeting `resetChat` and `resetChatCompletely` leave. */
  function Greeting(patient: Option<Patient>, now: int): seq<ChatMessage> {
    match patient
    case Some(p) => [AiMessage(p.id, PatientGreeting(p), now)]
    case None => [EmptyGreeting(now)]
  }

  function Reduce(s: AppState, a: AppAction, now: int): AppState {
    match a
    case LoadPatient(payload) =>
      if payload == "empty" then s.(patient := None, messages := Some([EmptyGreeting(now)]))
      else if payload == "not-found" then s.(patient := None, messages := Some([NotFoundNotice(now)]))
      else s
    case UnloadPatient => s.(patient := None, messages := Some([]))
    case ResetChat => s.(chatReset := true, messages := Some(Greeting(s.patient, now)))
    case AddMessage(m) => if s.messages.None? then s else s.(messages := Some(s.messages.value + [m]))
    case OpenCalendar => s.(isCalendarOpen := true)
    case CloseCalendar => s.(isCalendarOpen := false)
    case SetDateRange(r) => s.(dateRange := r)
    case LoadByIdPending => s.(patient := None, messages := Some([LoadingNotice(now)]))
    case LoadByIdFulfilled(p) => s.(patient := Some(p), messages := Some([AiMessage(p.id, PatientGreeting(p), now)]))
    case LoadByIdRejected => s.(patient := None, messages := Some([LoadErrorNotice(now)]))
    case HistoryFulfilled(h) => s.(messages := if s.chatReset then s.messages else h, chatReset := false)
    case AskPending(q) =>
      if s.messages.None? then s
      else s.(isAiTyping := true,
              messages := Some(s.messages.value + [ChatMessage(now, Tag(s.patient), FromUser, q, now)]))
    case AskFulfilled(m) =>
      if s.messages.None? then s else s.(isAiTyping := false, messages := Some(s.messages.value + [m]))
    case AskRejected(e) =>
      if s.messages.None? then s
      else s.(isAiTyping := false,
              messages := Some(s.messages.value + [AiMessage(Tag(s.patient), AskErrorText(e, s.patient.Some?), now)]))
    case ResetCompletelyFulfilled => s.(chatReset := true, messages := Some(Greeting(s.patient, now)))
  }

  function Run(s: AppState, events: seq<Event>): AppState
    decreases |events|
  {
    if events == [] then s else Run(Reduce(s, events[0].action, events[0].now), events[1..])
  }

  /** `loadPatient`: the two sentinel ids each leave no patient and exactly
      one untagged ai message, the greeting or the not-found notice; any
      other payload changes nothing. */
  lemma LoadPatientCases(s: AppState, payload: string, now: int)
    ensures var t := Reduce(s, LoadPatient(payload), now);
      if payload == "empty" || payload == "not-found" then
        var m := if payload == "empty" then EmptyGreeting(now) else NotFoundNotice(now);
        t.patient == None && t.messages == Some([m]) && m.sender == FromAi && m.patientId == ""
        && t.(patient := s.patient, messages := s.messages) == s
      else t == s
  {
    if payload == "empty" {
      assert Reduce(s, LoadPatient(payload), now) == s.(patient := None, messages := Some([EmptyGreeting(now)]));
    } else if payload == "not-found" {
      assert Reduce(s, LoadPatient(payload), now) == s.(patient := None, messages := Some([NotFoundNotice(now)]));
    }
  }

  /** The greeting of a loaded record names its patient. */
  lemma GreetingNamesPatient(p: Patient)
    ensures Contains(PatientGreeting(p), FullName(p))
  {
    ContainsMiddle(("Hallo! Ich habe die " + "Akte von **"), FullName(p), GreetingDetails(p));
  }

  /** `loadPatientById.pending` and `.rejected` leave no patient and one
      untagged ai notice; neither touches the indicator, the range or the
      reset flag. */
  lemma LoadByIdUnsettledCases(s: AppState, now: int)
    ensures var t := Reduce(s, LoadByIdPending, now);
      t == s.(patient := None, messages := Some([LoadingNotice(now)]))
    ensures var t := Reduce(s, LoadByIdRejected, now);
      t == s.(patient := None, messages := Some([LoadErrorNotice(now)]))
    ensures LoadingNotice(now).sender == FromAi && LoadingNotice(now).patientId == ""
    ensures LoadErrorNotice(now).sender == FromAi && LoadErrorNotice(now).patientId == ""
  {
  }

  /** `loadPatientById.fulfilled` makes the loaded patient resident and
      replaces the transcript by one ai greeting tagged with its id and
      naming it; nothing else changes. */
  lemma LoadByIdFulfilledCase(s: AppState, p: Patient, now: int)
    ensures var t := Reduce(s, LoadByIdFulfilled(p), now);
      t.patient == Some(p) && t.messages.Some? && |t.messages.value| == 1
      && t.messages.value[0].patientId == p.id && t.messages.value[0].sender == FromAi
      && Contains(t.messages.value[0].message, FullName(p))
      && t.(patient := s.patient, messages := s.messages) == s
  {
    GreetingNamesPatient(p);
  }

  /** Both resets set `chatReset` and leave exactly one greeting, tagged with
      the resident patient and naming it, or the generic one. */
  lemma ResetCases(s: AppState, a: AppAction, now: int)
    requires IsReset(a)
    ensures var t := Reduce(s, a, now);
      t.chatReset && t.messages.Some? && |t.messages.value| == 1 && t.messages.value[0].sender == FromAi
      && t.messages.value[0].patientId == Tag(s.patient) && t.patient == s.patient
      && (s.patient.Some? ==>
            Contains(t.messages.value[0].message, FullName(s.patient.value)))
      && (s.patient.None? ==> t.messages == Some([EmptyGreeting(now)]))
  {
    if s.patient.Some? {
      GreetingNamesPatient(s.patient.value);
    }
  }

  /** `askAi.pending` appends exactly one user message carrying the question
      and the resident patient's tag, and raises the typing indicator; on an
      `undefined` transcript the push throws and nothing changes. */
  lemma AskPendingAppends(s: AppState, question: string, now: int)
    ensures var t := Reduce(s, AskPending(question), now);
      if s.messages.None? then t == s
      else
        var n := |s.messages.value|;
        t.isAiTyping && t.messages.Some? && |t.messages.value| == n + 1 && t.messages.value[..n] == s.messages.value
        && t.messages.value[n].sender == FromUser && t.messages.value[n].message == question
        && t.messages.value[n].patientId == (if s.patient.Some? then s.patient.value.id else "")
        && t.patient == s.patient
  {
  }

  /** The error text carries the server's message (or the apology) and the
      tip that fits whether a patient is resident. */
  lemma AskErrorTextParts(errorMessage: string, hasPatient: bool)
    ensures Contains(AskErrorText(errorMessage, hasPatient), Tip(hasPatient))
    ensures Contains(AskErrorText(errorMessage, hasPatient), ErrorDetail(errorMessage))
    ensures errorMessage != "" ==> ErrorDetail(errorMessage) == errorMessage
  {
    ContainsMiddle("❌ **Fehler**\n\n", ErrorDetail(errorMessage), "\n\n**Tipp:** " + Tip(hasPatient));
    ContainsSelf(Tip(hasPatient));
    ContainsAfter("\n\n**Tipp:** ", Tip(hasPatient), Tip(hasPatient));
    ContainsAfter("❌ **Fehler**\n\n" + ErrorDetail(errorMessage), Tip(hasPatient), "\n\n**Tipp:** " + Tip(hasPatient));
  }

  /** `askAi.fulfilled` and `askAi.rejected` lower the typing indicator and
      append exactly one ai message, keeping every earlier message; the
      rejection's message is the error text for the resident patient. On an
      `undefined` transcript both throw and nothing changes. */
  lemma AskSettleAppends(s: AppState, reply: ChatMessage, errorMessage: string, now: int)
    ensures var t := Reduce(s, AskFulfilled(reply), now);
      if s.messages.None? then t == s
      else !t.isAiTyping && t.messages == Some(s.messages.value + [reply])
    ensures var t := Reduce(s, AskRejected(errorMessage), now);
      if s.messages.None? then t == s
      else
        var n := |s.messages.value|;
        !t.isAiTyping && t.messages.Some? && |t.messages.value| == n + 1 && t.messages.value[..n] == s.messages.value
        && t.messages.value[n].sender == FromAi && t.messages.value[n].patientId == Tag(s.patient)
        && t.messages.value[n].message == AskErrorText(errorMessage, s.patient.Some?)
  {
  }

  /** The cases that assign a whole new transcript. */
  predicate Assigning(a: AppAction) {
    a.UnloadPatient? || IsReset(a) || a.LoadByIdPending? || a.LoadByIdFulfilled? || a.LoadByIdRejected?
    || (a.LoadPatient? && (a.payload == "empty" || a.payload == "not-found"))
  }

  /** A defined transcript becomes `undefined` exactly under a history load
      fulfilled with `undefined` while no reset is pending. */
  lemma TranscriptBecomesUndefined(s: AppState, a: AppAction, now: int)
    requires s.messages.Some?
    ensures Reduce(s, a, now).messages.None? <==> a == HistoryFulfilled(None) && !s.chatReset
  {
  }

  /** Once the transcript is `undefined`, `addMessage` and the three askAi
      cases throw and change nothing, and only a case that assigns a new
      list, or a history load, can define it again. */
  lemma UndefinedTranscriptStays(s: AppState, a: AppAction, now: int)
    requires s.messages.None?
    ensures a.AddMessage? || IsAsk(a) ==> Reduce(s, a, now) == s
    ensures !Assigning(a) && !a.HistoryFulfilled? ==> Reduce(s, a, now).messages.None?
  {
  }

  /** A case that assigns a new list defines the transcript, whatever it was. */
  lemma AssigningDefinesTranscript(s: AppState, a: AppAction, now: int)
    requires Assigning(a)
    ensures Reduce(s, a, now).messages.Some?
  {
  }

  /** Running two sequences one after the other. */
  lemma {:induction false} RunAppend(s: AppState, e1: seq<Event>, e2: seq<Event>)
    ensures Run(s, e1 + e2) == Run(Run(s, e1), e2)
    decreases |e1|
  {
    if e1 != [] {
      assert (e1 + e2)[0] == e1[0];
      assert (e1 + e2)[1..] == e1[1..] + e2;
      RunAppend(Reduce(s, e1[0].action, e1[0].now), e1[1..], e2);
    } else {
      assert e1 + e2 == e2;
    }
  }

  // ---- The stale history load ----

  predicate IsReset(a: AppAction) {
    a.ResetChat? || a.ResetCompletelyFulfilled?
  }

  /** An action that neither resets nor delivers a history. */
  predicate Neutral(a: AppAction) {
    !IsReset(a) && !a.HistoryFulfilled?
  }

  predicate AllNeutral(events: seq<Event>) {
    forall i :: 0 <= i < |events| ==> Neutral(events[i].action)
  }

  /** One neutral action leaves `chatReset` as it is. */
  lemma NeutralStep(s: AppState, a: AppAction, now: int)
    requires Neutral(a)
    ensures Reduce(s, a, now).chatReset == s.chatReset
  {
  }

  lemma {:induction false} NeutralKeepsFlag(s: AppState, events: seq<Event>)
    requires AllNeutral(events)
    ensures Run(s, events).chatReset == s.chatReset
    decreases |events|
  {
    if events != [] {
      NeutralStep(s, events[0].action, events[0].now);
      assert AllNeutral(events[1..]) by {
        forall i | 0 <= i < |events[1..]| ensures Neutral(events[1..][i].action) {
          assert events[1..][i] == events[i + 1];
        }
      }
      NeutralKeepsFlag(Reduce(s, events[0].action, events[0].now), events[1..]);
    }
  }

  /** A reset raises `chatReset`. */
  lemma ResetStep(s: AppState, a: AppAction, now: int)
    requires IsReset(a)
    ensures Reduce(s, a, now).chatReset
  {
  }

  /** A history load replaces the transcript unless `chatReset` is set, and
      clears the flag either way. */
  lemma HistoryStep(s: AppState, a: AppAction, now: int)
    requires a.HistoryFulfilled?
    ensures Reduce(s, a, now).messages == (if s.chatReset then s.messages else a.history)
    ensures !Reduce(s, a, now).chatReset
  {
  }

  /** Running one more event. */
  lemma RunSnoc(s: AppState, events: seq<Event>, e: Event)
    ensures Run(s, events + [e]) == Reduce(Run(s, events), e.action, e.now)
  {
    RunAppend(s, events, [e]);
  }

  /** After a reset, the first history load to arrive is dropped (the
      transcript stays as it was just before it), and the next one, with no
      reset in between, replaces the transcript. */
  lemma StaleLoadDroppedOnce(s: AppState, reset: Event, e1: seq<Event>, h1: Event, e2: seq<Event>, h2: Event)
    requires IsReset(reset.action) && AllNeutral(e1) && AllNeutral(e2)
    requires h1.action.HistoryFulfilled? && h2.action.HistoryFulfilled?
    ensures var before := Run(s, [reset] + e1);
      Run(s, [reset] + e1 + [h1]).messages == before.messages
    ensures Run(s, [reset] + e1 + [h1] + e2 + [h2]).messages == h2.action.history
    ensures !Run(s, [reset] + e1 + [h1] + e2 + [h2]).chatReset
  {
    var s0 := Reduce(s, reset.action, reset.now);
    ResetStep(s, reset.action, reset.now);
    RunAppend(s, [reset], e1);
    assert Run(s, [reset]) == s0;
    NeutralKeepsFlag(s0, e1);
    var s1 := Run(s, [reset] + e1);
    RunSnoc(s, [reset] + e1, h1);
    HistoryStep(s1, h1.action, h1.now);
    var s2 := Run(s, [reset] + e1 + [h1]);
    RunAppend(s, [reset] + e1 + [h1], e2);
    NeutralKeepsFlag(s2, e2);
    RunSnoc(s, [reset] + e1 + [h1] + e2, h2);
    HistoryStep(Run(s, [reset] + e1 + [h1] + e2), h2.action, h2.now);
  }

  function Flag(b: bool): nat {
    if b then 1 else 0
  }

  function Resets(events: seq<Event>): nat {
    if events == [] then 0 else Flag(IsReset(events[0].action)) + Resets(events[1..])
  }

  /** How many history loads in the run arrive while `chatReset` is set. */
  function Suppressed(s: AppState, events: seq<Event>): nat
    decreases |events|
  {
    if events == [] then 0
    else Flag(events[0].action.HistoryFulfilled? && s.chatReset)
         + Suppressed(Reduce(s, events[0].action, events[0].now), events[1..])
  }

  /** Each reset suppresses at most one history load: over any run, the
      suppressed loads plus a flag still pending never exceed the resets
      plus a flag already pending at the start. */
  lemma {:induction false} SuppressionBound(s: AppState, events: seq<Event>)
    ensures Suppressed(s, events) + Flag(Run(s, events).chatReset) <= Resets(events) + Flag(s.chatReset)
    decreases |events|
  {
    if events != [] {
      SuppressionStep(s, events[0].action, events[0].now);
      SuppressionBound(Reduce(s, events[0].action, events[0].now), events[1..]);
    }
  }

  /** One action: a suppressed load consumes the flag, a reset sets it,
      anything else keeps it. */
  lemma SuppressionStep(s: AppState, a: AppAction, now: int)
    ensures Flag(a.HistoryFulfilled? && s.chatReset) + Flag(Reduce(s, a, now).chatReset)
      <= Flag(IsReset(a)) + Flag(s.chatReset)
  {
    if a.HistoryFulfilled? {
    } else if IsReset(a) {
    } else {
      NeutralStep(s, a, now);
    }
  }

  // ---- The typing indicator ----

  predicate IsAsk(a: AppAction) {
    a.AskPending? || a.AskFulfilled? || a.AskRejected?
  }

  predicate NoAsk(events: seq<Event>) {
    forall i :: 0 <= i < |events| ==> !IsAsk(events[i].action)
  }

  /** An action other than the three askAi cases leaves the indicator. */
  lemma TypingStep(s: AppState, a: AppAction, now: int)
    requires !IsAsk(a)
    ensures Reduce(s, a, now).isAiTyping == s.isAiTyping
  {
  }

  lemma {:induction false} NoAskKeepsTyping(s: AppState, events: seq<Event>)
    requires NoAsk(events)
    ensures Run(s, events).isAiTyping == s.isAiTyping
    decreases |events|
  {
    if events != [] {
      TypingStep(s, events[0].action, events[0].now);
      assert NoAsk(events[1..]) by {
        forall i | 0 <= i < |events[1..]| ensures !IsAsk(events[1..][i].action) {
          assert events[1..][i] == events[i + 1];
        }
      }
      NoAskKeepsTyping(Reduce(s, events[0].action, events[0].now), events[1..]);
    }
  }

  /** `isAiTyping` is one boolean: it reflects only the last askAi event,
      so whichever request settles first clears it even while another is
      still outstanding. An askAi case that meets an `undefined` transcript
      throws and leaves the indicator as it was. */
  lemma TypingFollowsLastAsk(s: AppState, e1: seq<Event>, last: Event, e2: seq<Event>)
    requires IsAsk(last.action) && NoAsk(e2)
    ensures Run(s, e1).messages.Some? ==> Run(s, e1 + [last] + e2).isAiTyping == last.action.AskPending?
    ensures Run(s, e1).messages.None? ==> Run(s, e1 + [last] + e2).isAiTyping == Run(s, e1).isAiTyping
  {
    RunAppend(s, e1, [last]);
    RunAppend(s, e1 + [last], e2);
    NoAskKeepsTyping(Run(s, e1 + [last]), e2);
  }

  /** Two questions in flight; the first answer lowers the indicator. On an
      `undefined` transcript all three cases throw and nothing changes. */
  lemma FirstSettleClearsTyping(s: AppState, q1: string, q2: string, reply: ChatMessage, t1: int, t2: int, t3: int)
    ensures var t := Run(s, [Event(AskPending(q1), t1), Event(AskPending(q2), t2), Event(AskFulfilled(reply), t3)]);
      if s.messages.Some? then !t.isAiTyping else t == s
  {
    var all := [Event(AskPending(q1), t1), Event(AskPending(q2), t2), Event(AskFulfilled(reply), t3)];
    var s1 := Reduce(s, AskPending(q1), t1);
    var s2 := Reduce(s1, AskPending(q2), t2);
    var s3 := Reduce(s2, AskFulfilled(reply), t3);
    assert all[1..] == [Event(AskPending(q2), t2), Event(AskFulfilled(reply), t3)];
    assert all[1..][1..] == [Event(AskFulfilled(reply), t3)];
    assert Run(s2, [Event(AskFulfilled(reply), t3)]) == s3;
    assert Run(s, all) == s3;
    AskPendingAppends(s, q1, t1);
    AskPendingAppends(s1, q2, t2);
    AskSettleAppends(s2, reply, "", t3);
  }

  // ---- The transcript only grows under conversation events ----

  /** An action that cannot remove a message. */
  predicate Appending(a: AppAction) {
    IsAsk(a) || a.AddMessage? || a.OpenCalendar? || a.CloseCalendar? || a.SetDateRange?
  }

  /** `t` is `s` with possibly more messages after it; an undefined
      transcript stays undefined. */
  predicate Extends(t: Option<seq<ChatMessage>>, s: Option<seq<ChatMessage>>) {
    t.Some? == s.Some? && (s.Some? ==> |s.value| <= |t.value| && t.value[..|s.value|] == s.value)
  }

  /** Under questions, answers, appended messages and calendar actions the
      old transcript stays a prefix, so no user message is ever removed. */
  lemma {:induction false} AppendingKeepsPrefix(s: AppState, events: seq<Event>)
    requires forall i :: 0 <= i < |events| ==> Appending(events[i].action)
    ensures Run(s, events).messages.Some? == s.messages.Some?
    ensures s.messages.Some? ==>
      |s.messages.value| <= |Run(s, events).messages.value| &&
      Run(s, events).messages.value[..|s.messages.value|] == s.messages.value
    decreases |events|
  {
    if events != [] {
      var s1 := Reduce(s, events[0].action, events[0].now);
      AppendingStep(s, events[0].action, events[0].now);
      assert forall i :: 0 <= i < |events[1..]| ==> events[1..][i] == events[i + 1];
      AppendingKeepsPrefix(s1, events[1..]);
      var r := Run(s1, events[1..]);
      assert Run(s, events) == r;
      if s.messages.Some? {
        assert r.messages.value[..|s.messages.value|] == r.messages.value[..|s1.messages.value|][..|s.messages.value|];
      }
    }
  }

  /** One appending action keeps the transcript as a prefix. */
  lemma AppendingStep(s: AppState, a: AppAction, now: int)
    requires Appending(a)
    ensures Extends(Reduce(s, a, now).messages, s.messages)
  {
    var t := Reduce(s, a, now);
    if s.messages.Some? && (a.AskPending? || a.AskFulfilled? || a.AskRejected? || a.AddMessage?) {
      assert t.messages.value == s.messages.value + [t.messages.value[|s.messages.value|]];
    }
  }

  // ---- askAi request and reply ----

  /** The endpoint and body `askAi(question)` posts, read from the state. */
  function AskRequest(s: AppState, question: string): (string, RequestOptions) {
    match s.patient
    case None => ("/chat/general", Post(GeneralMessageJson(question)))
    case Some(p) =>
      ("/chat/", Post(ChatRequestJson(ChatRequest(question, p.id,
         if Bounded(s.dateRange) then Some(s.dateRange) else None))))
  }

  /** Without a patient the question goes to the general endpoint; with one
      it goes to '/chat/' under the patient's id, carrying the date filter
      exactly when both bounds are set. */
  lemma AskRouting(s: AppState, question: string)
    ensures s.patient.None? <==> AskRequest(s, question).0 == "/chat/general"
    ensures s.patient.None? ==> AskRequest(s, question).1.body == GeneralMessageJson(question)
    ensures s.patient.Some? ==>
      var body := AskRequest(s, question).1.body;
      AskRequest(s, question).0 == "/chat/" && body.ChatRequestJson?
      && body.request.message == question && body.request.patientId == s.patient.value.id
      && (body.request.dateFilter.Some? <==> Bounded(s.dateRange))
      && (body.request.dateFilter.Some? ==> body.request.dateFilter.value == s.dateRange)
    ensures AskRequest(s, question).1.verb == "POST"
  {
  }

  /** The ai message `askAi` resolves with. */
  function ReplyMessage(patient: Option<Patient>, response: ChatResponse, now: int): ChatMessage {
    ChatMessage(response.messageId, Tag(patient), FromAi, response.response, now)
  }

  /** The body of `askAi(question)` on the state it reads. */
  method AskAiThunk(browser: Browser, s: AppState, question: string,
                    fetch: Request -> Fetched<ChatResponse>, now: int)
    returns (sent: Request, settled: Settled<ChatMessage>)
    modifies browser
    ensures sent == BuildRequest(old(browser.storage), AskRequest(s, question).0, AskRequest(s, question).1)
    ensures fetch(sent).Response? && IsOk(fetch(sent).status) ==>
      settled == Fulfilled(ReplyMessage(s.patient, fetch(sent).body, now))
    ensures settled.Fulfilled? <==> fetch(sent).Response? && IsOk(fetch(sent).status)
    ensures fetch(sent).Response? && fetch(sent).status == 401 ==>
      settled == Rejected(UndefinedResponse)
      && browser.storage == old(browser.storage) - {TokenKey} && browser.location == "/"
    ensures fetch(sent).Response? && !IsOk(fetch(sent).status) && fetch(sent).status != 401 ==>
      settled == Rejected(ApiErrorMessage(fetch(sent).status, fetch(sent).statusText))
    ensures fetch(sent).NetworkError? ==> settled == Rejected(fetch(sent).reason)
    ensures !(fetch(sent).Response? && fetch(sent).status == 401) ==> unchanged(browser)
  {
    var endpoint := AskRequest(s, question).0;
    var options := AskRequest(s, question).1;
    var result;
    sent, result := ApiRequest(browser, endpoint, options, fetch);
    match result
    case Returned(response) => settled := Fulfilled(ReplyMessage(s.patient, response, now));
    case Undefined => settled := Rejected(UndefinedResponse);
    case Thrown(message) => settled := Rejected(message);
  }

  /** The body of `loadPatientById(patientId)`. */
  function PatientEndpoint(patientId: string): string {
    "/patients/" + patientId
  }

  /** The endpoint of `loadChatHistory` and of `clearChatHistory`. */
  function HistoryEndpoint(patientId: string): string {
    "/chat/" + patientId + "/history"
  }

  const Delete: RequestOptions := RequestOptions("DELETE", NoBody, map[])

  class AppStore {
    var patient: Option<Patient>
    var messages: Option<seq<ChatMessage>>
    var isAiTyping: bool
    var isCalendarOpen: bool
    var dateRange: DateRange
    var chatReset: bool

    function State(): AppState
      reads this
    {
      AppState(patient, messages, isAiTyping, isCalendarOpen, dateRange, chatReset)
    }

    constructor ()
      ensures State() == Initial
    {
      patient, messages, isAiTyping, isCalendarOpen, dateRange, chatReset := None, Some([]), false, false, NoRange, false;
    }

    method LoadPatient(payload: string, now: int)
      modifies this
      ensures State() == Reduce(old(State()), AppAction.LoadPatient(payload), now)
    {
      if payload == "empty" {
        patient := None;
        messages := Some([EmptyGreeting(now)]);
      } else if payload == "not-found" {
        patient := None;
        messages := Some([NotFoundNotice(now)]);
      }
    }

    method UnloadPatient()
      modifies this
      ensures State() == Reduce(old(State()), AppAction.UnloadPatient, 0)
    {
      patient := None;
      messages := Some([]);
    }

    method ResetChat(now: int)
      modifies this
      ensures State() == Reduce(old(State()), AppAction.ResetChat, now)
    {
      chatReset := true;
      if patient.Some? {
        messages := Some([AiMessage(patient.value.id, PatientGreeting(patient.value), now)]);
      } else {
        messages := Some([EmptyGreeting(now)]);
      }
    }

    method AddMessage(m: ChatMessage)
      modifies this
      ensures State() == Reduce(old(State()), AppAction.AddMessage(m), 0)
    {
      if messages.Some? {
        messages := Some(messages.value + [m]);
      }
    }

    method OpenCalendar()
      modifies this
      ensures State() == Reduce(old(State()), AppAction.OpenCalendar, 0)
    {
      isCalendarOpen := true;
    }

    method CloseCalendar()
      modifies this
      ensures State() == Reduce(old(State()), AppAction.CloseCalendar, 0)
    {
      isCalendarOpen := false;
    }

    method SetDateRange(r: DateRange)
      modifies this
      ensures State() == Reduce(old(State()), AppAction.SetDateRange(r), 0)
    {
      dateRange := r;
    }

    method LoadByIdPending(now: int)
      modifies this
      ensures State() == Reduce(old(State()), AppAction.LoadByIdPending, now)
    {
      patient := None;
      messages := Some([LoadingNotice(now)]);
    }

    method LoadByIdFulfilled(p: Patient, now: int)
      modifies this
      ensures State() == Reduce(old(State()), AppAction.LoadByIdFulfilled(p), now)
    {
      patient := Some(p);
      messages := Some([AiMessage(p.id, PatientGreeting(p), now)]);
    }

    method LoadByIdRejected(now: int)
      modifies this
      ensures State() == Reduce(old(State()), AppAction.LoadByIdRejected, now)
    {
      patient := None;
      messages := Some([LoadErrorNotice(now)]);
    }

    method HistoryFulfilled(history: Option<seq<ChatMessage>>)
      modifies this
      ensures State() == Reduce(old(State()), AppAction.HistoryFulfilled(history), 0)
    {
      if !chatReset {
        messages := history;
      }
      chatReset := false;
    }

    method AskPending(question: string, now: int)
      modifies this
      ensures State() == Reduce(old(State()), AppAction.AskPending(question), now)
    {
      if messages.None? {
        return;
      }
      isAiTyping := true;
      var userMessage := ChatMessage(now, if patient.Some? then patient.value.id else "", FromUser, question, now);
      messages := Some(messages.value + [userMessage]);
    }

    method AskFulfilled(reply: ChatMessage)
      modifies this
      ensures State() == Reduce(old(State()), AppAction.AskFulfilled(reply), 0)
    {
      if messages.None? {
        return;
      }
      isAiTyping := false;
      messages := Some(messages.value + [reply]);
    }

    method AskRejected(errorMessage: string, now: int)
      modifies this
      ensures State() == Reduce(old(State()), AppAction.AskRejected(errorMessage), now)
    {
      if messages.None? {
        return;
      }
      isAiTyping := false;
      var text := AskErrorText(errorMessage, patient.Some?);
      messages := Some(messages.value + [AiMessage(if patient.Some? then patient.value.id else "", text, now)]);
    }

    method ResetCompletelyFulfilled(now: int)
      modifies this
      ensures State() == Reduce(old(State()), AppAction.ResetCompletelyFulfilled, now)
    {
      chatReset := true;
      if patient.Some? {
        messages := Some([AiMessage(patient.value.id, PatientGreeting(patient.value), now)]);
      } else {
        messages := Some([EmptyGreeting(now)]);
      }
    }
  }

  /** The case a settled `askAi` dispatches. */
  function AskSettledAction(settled: Settled<ChatMessage>): AppAction {
    match settled
    case Fulfilled(reply) => AskFulfilled(reply)
    case Rejected(message) => AskRejected(message)
  }

  /** Dispatching the fulfilled or the rejected case of `askAi`. */
  method SettleAsk(store: AppStore, settled: Settled<ChatMessage>, now: int)
    modifies store
    ensures store.State() == Reduce(old(store.State()), AskSettledAction(settled), now)
  {
    match settled
    case Fulfilled(reply) => store.AskFulfilled(reply);
    case Rejected(message) => store.AskRejected(message, now);
  }

  /** A question followed by its answer or error: the indicator is down,
      the patient unchanged, and exactly two messages are appended, the
      question as a user message and then an ai message, both tagged with
      the resident patient; a fulfilled request appends its reply. */
  lemma AskRoundTrip(s: AppState, question: string, settled: Settled<ChatMessage>, asked: int, settledAt: int)
    ensures var t := Reduce(Reduce(s, AskPending(question), asked), AskSettledAction(settled), settledAt);
      if s.messages.None? then t == s
      else
        var n := |s.messages.value|;
        !t.isAiTyping && t.patient == s.patient && t.messages.Some?
        && |t.messages.value| == n + 2 && t.messages.value[..n] == s.messages.value
        && t.messages.value[n] == ChatMessage(asked, Tag(s.patient), FromUser, question, asked)
        && (settled.Fulfilled? ==> t.messages.value[n + 1] == settled.payload)
        && (settled.Rejected? ==>
              t.messages.value[n + 1] == AiMessage(Tag(s.patient), AskErrorText(settled.message, s.patient.Some?), settledAt))
  {
    var s1 := Reduce(s, AskPending(question), asked);
    AskPendingAppends(s, question, asked);
    if s.messages.Some? {
      var t := Reduce(s1, AskSettledAction(settled), settledAt);
      var n := |s.messages.value|;
      match settled
      case Fulfilled(reply) =>
        assert t.messages.value == s1.messages.value + [reply];
      case Rejected(message) =>
        assert t.messages.value == s1.messages.value + [AiMessage(Tag(s.patient), AskErrorText(message, s.patient.Some?), settledAt)];
      assert t.messages.value[..n] == s1.messages.value[..n];
    }
  }

  /** `dispatch(askAi(question))` when it is the only request in flight:
      the pending case at `asked`, the request built from the state, and
      the fulfilled or rejected case at `settledAt`. On an `undefined`
      transcript the pending case throws, so the thunk rejects before its
      body runs and nothing is sent; the rejected case then throws too, so
      the dispatch itself fails and nothing changes. */
  method AskAi(store: AppStore, browser: Browser, question: string,
               fetch: Request -> Fetched<ChatResponse>, asked: int, settledAt: int)
    returns (sent: Option<Request>, settled: Option<Settled<ChatMessage>>)
    modifies store, browser
    ensures sent.None? <==> old(store.messages).None?
    ensures settled.Some? <==> sent.Some?
    ensures sent.None? ==> store.State() == old(store.State()) && unchanged(browser)
    ensures sent.Some? ==> var (endpoint, options) := AskRequest(old(store.State()), question);
      sent.value == BuildRequest(old(browser.storage), endpoint, options)
    ensures sent.Some? ==>
      (settled.value.Fulfilled? <==> fetch(sent.value).Response? && IsOk(fetch(sent.value).status))
    ensures sent.Some? && settled.value.Fulfilled? ==>
      settled.value.payload == ReplyMessage(old(store.patient), fetch(sent.value).body, settledAt)
    ensures sent.Some? && fetch(sent.value).Response? && fetch(sent.value).status == 401 ==>
      settled.value == Rejected(UndefinedResponse)
      && browser.storage == old(browser.storage) - {TokenKey} && browser.location == "/"
    ensures sent.Some? && fetch(sent.value).Response? && !IsOk(fetch(sent.value).status)
            && fetch(sent.value).status != 401 ==>
      settled.value == Rejected(ApiErrorMessage(fetch(sent.value).status, fetch(sent.value).statusText))
    ensures sent.Some? && fetch(sent.value).NetworkError? ==> settled.value == Rejected(fetch(sent.value).reason)
    ensures sent.Some? && !(fetch(sent.value).Response? && fetch(sent.value).status == 401) ==> unchanged(browser)
    ensures sent.Some? ==>
      store.State() ==
        Reduce(Reduce(old(store.State()), AskPending(question), asked), AskSettledAction(settled.value), settledAt)
  {
    if store.messages.None? {
      sent, settled := None, None;
      return;
    }
    var s0 := store.State();
    store.AskPending(question, asked);
    var s1 := store.State();
    assert s1 == Reduce(s0, AskPending(question), asked);
    assert s1.patient == s0.patient && s1.dateRange == s0.dateRange;
    assert AskRequest(s1, question) == AskRequest(s0, question);
    var request, outcome := AskAiThunk(browser, s1, question, fetch, settledAt);
    SettleAsk(store, outcome, settledAt);
    sent, settled := Some(request), Some(outcome);
  }

  /** What the settled `loadPatientById` does to the state: the fulfilled
      or the rejected case; an `undefined` payload (after a 401) makes the
      fulfilled case throw on `action.payload.id`, so the state stays as
      the pending case left it. */
  function LoadByIdSettle(s: AppState, result: ApiResult<Patient>, now: int): AppState {
    match result
    case Returned(p) => Reduce(s, LoadByIdFulfilled(p), now)
    case Undefined => s
    case Thrown(_) => Reduce(s, LoadByIdRejected, now)
  }

  /** A load by id leaves exactly one ai message: the greeting of the loaded
      patient, tagged with its id and naming it, or an untagged notice with
      no patient; the indicator, the range and the reset flag are kept. */
  lemma LoadByIdOutcome(s: AppState, result: ApiResult<Patient>, started: int, settledAt: int)
    ensures var t := LoadByIdSettle(Reduce(s, LoadByIdPending, started), result, settledAt);
      t.messages.Some? && |t.messages.value| == 1 && t.messages.value[0].sender == FromAi
      && (result.Returned? ==>
            t.patient == Some(result.value) && t.messages.value[0].patientId == result.value.id
            && Contains(t.messages.value[0].message, FullName(result.value)))
      && (!result.Returned? ==> t.patient == None && t.messages.value[0].patientId == "")
      && t.chatReset == s.chatReset && t.isAiTyping == s.isAiTyping && t.dateRange == s.dateRange
  {
    LoadByIdUnsettledCases(s, started);
    var pending := Reduce(s, LoadByIdPending, started);
    if result.Returned? {
      LoadByIdFulfilledCase(pending, result.value, settledAt);
    } else if result.Thrown? {
      LoadByIdUnsettledCases(pending, settledAt);
    }
  }

  /** `dispatch(loadPatientById(patientId))`: the pending case at `started`,
      then the request, then the settled case at `settledAt`. */
  method LoadPatientById(store: AppStore, browser: Browser, patientId: string,
                         fetch: Request -> Fetched<Patient>, started: int, settledAt: int)
    returns (sent: Request, result: ApiResult<Patient>)
    modifies store, browser
    ensures sent == BuildRequest(old(browser.storage), PatientEndpoint(patientId), Get)
    ensures result.Returned? <==> fetch(sent).Response? && IsOk(fetch(sent).status)
    ensures result.Returned? ==> result.value == fetch(sent).body
    ensures result.Undefined? <==> fetch(sent).Response? && fetch(sent).status == 401
    ensures result.Undefined? ==> browser.location == "/" && browser.storage == old(browser.storage) - {TokenKey}
    ensures !result.Undefined? ==> unchanged(browser)
    ensures store.State() == LoadByIdSettle(Reduce(old(store.State()), LoadByIdPending, started), result, settledAt)
    ensures result == ResultOf(fetch(sent))
  {
    store.LoadByIdPending(started);
    sent, result := ApiRequest(browser, PatientEndpoint(patientId), Get, fetch);
    match result
    case Returned(p) => store.LoadByIdFulfilled(p, settledAt);
    case Undefined =>
    case Thrown(_) => store.LoadByIdRejected(settledAt);
  }

  /** What the settled `loadChatHistory` does to the state when its request
      was answered with `f`: an ok answer or a 401 fulfils, with the history
      or with `undefined`; a rejection has no case here. */
  function HistorySettle(s: AppState, f: Fetched<seq<ChatMessage>>): AppState {
    match ResultOf(f)
    case Returned(h) => Reduce(s, HistoryFulfilled(Some(h)), 0)
    case Undefined => Reduce(s, HistoryFulfilled(None), 0)
    case Thrown(_) => s
  }

  /** `dispatch(loadChatHistory(patientId))`. Only the fulfilled case has a
      reducer in this store: an ok answer delivers the history, a 401
      delivers `undefined`, and both go through the `chatReset` check; a
      rejected load (network failure, any other status) changes nothing. */
  method LoadChatHistory(store: AppStore, browser: Browser, patientId: string,
                         fetch: Request -> Fetched<seq<ChatMessage>>)
    returns (sent: Request)
    modifies store, browser
    ensures sent == BuildRequest(old(browser.storage), HistoryEndpoint(patientId), Get)
    ensures fetch(sent).Response? && IsOk(fetch(sent).status) ==>
      store.State() == Reduce(old(store.State()), HistoryFulfilled(Some(fetch(sent).body)), 0)
    ensures fetch(sent).Response? && fetch(sent).status == 401 ==>
      store.State() == Reduce(old(store.State()), HistoryFulfilled(None), 0)
      && browser.storage == old(browser.storage) - {TokenKey} && browser.location == "/"
    ensures fetch(sent).NetworkError? || (!IsOk(fetch(sent).status) && fetch(sent).status != 401) ==>
      store.State() == old(store.State())
    ensures !(fetch(sent).Response? && fetch(sent).status == 401) ==> unchanged(browser)
    ensures store.State() == HistorySettle(old(store.State()), fetch(sent))
  {
    var result;
    sent, result := ApiRequest(browser, HistoryEndpoint(patientId), Get, fetch);
    match result
    case Returned(h) => store.HistoryFulfilled(Some(h));
    case Undefined => store.HistoryFulfilled(None);
    case Thrown(_) =>
  }

  /** `dispatch(resetChatCompletely())`: with a resident patient its history
      is deleted first; the awaited `dispatch` never throws, so the thunk
      always fulfils and the store is reset either way. A DELETE answered
      with 401 removes the token and sends the page to '/'. */
  method ResetChatCompletely(store: AppStore, browser: Browser, fetch: Request -> Fetched<()>, now: int)
    returns (sent: Option<Request>)
    modifies store, browser
    ensures sent.Some? <==> old(store.patient).Some?
    ensures sent.Some? ==> sent.value == BuildRequest(old(browser.storage), HistoryEndpoint(old(store.patient).value.id), Delete)
    ensures sent.Some? && fetch(sent.value).Response? && fetch(sent.value).status == 401 ==>
      browser.storage == old(browser.storage) - {TokenKey} && browser.location == "/"
    ensures !(sent.Some? && fetch(sent.value).Response? && fetch(sent.value).status == 401) ==> unchanged(browser)
    ensures store.State() == Reduce(old(store.State()), ResetCompletelyFulfilled, now)
  {
    if store.patient.Some? {
      var request, _ := ApiRequest(browser, HistoryEndpoint(store.patient.value.id), Delete, fetch);
      sent := Some(request);
    } else {
      sent := None;
    }
    store.ResetCompletelyFulfilled(now);
  }
}
