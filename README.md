# radGPT core in Dafny

radGPT is a radiology workspace. A React single-page client lets a clinician log in, find a patient, browse the patient's reports under a text and date filter, and chat about the record. A FastAPI backend serves the patients and their reports and stores the chat. It answers questions through a generative language model.

This project models and verifies the parts of radGPT that hold state or make decisions.

**Client stores.** The Redux slices are modelled as classes with one method per reducer case:
- the workspace: resident patient, transcript, typing indicator, date range and reset flag;
- its unwired newer variant;
- patients, chat, session and theme.

Each asynchronous thunk is the event sequence it produces: pending, then its body, then fulfilled or rejected. The workspace reducer is also a pure function `Reduce` over actions, with `Run` over action sequences. The ordering rules are lemmas on `Run`:
- a history load arriving after a reset is dropped once;
- the single typing flag is lowered by whichever request settles first.

**HTTP client.** The authorization headers, the status handling of `apiRequest`, and the token lifecycle of the auth service. Browser storage is a map and the page location is a string.

**Pages and components.**
- The workspace load decision.
- The debounced patient search box. Time is an integer clock and the timer is at most one pending deadline.
- The submit branches of the documents panel and of both search pages, which disagree when a search has several results.
- The report filter.
- The calendar's range-click state machine and day highlighting.

**Backend.** The tables are in-memory sequences inside a `Db` object. The model covers:
- the patient and chat routers;
- the answer service's keyword routing, department detection and list formatting;
- the date-filtered patient context and the prompts.

The language model is a function parameter from prompt to text or error.

Dates are integers: a later day is a larger number. Clock readings (`Date.now()`, `time.time()`, `created_at`) are parameters. `toLocaleDateString` and the rendering of a stored date are a function parameter `dateText`.

Observations the proofs bring out:
- A 401 answer makes `apiRequest` return `undefined`, and the thunks fulfil with it. The chat and patient stores then hold an undefined list. The workspace store's transcript becomes undefined too, and further pushes onto it throw, so questions change nothing (`AppSlice.UndefinedTranscriptStays`, `AppSlice.AskAi`).
- `WorkspacePage.RunEffect`: after a 401 on the patient load, the fulfilled case throws on the undefined payload. The `.then` history load then never runs.
- `WorkspacePage.SwitchingPatientsLoadsTwice`: switching from one resident patient to another loads the new patient twice. The pending load clears the resident patient, and the effect runs again.
- The three submit handlers differ when a search has several results:
  - the documents panel offers up to five suggestions;
  - `PatientSearchPage` opens the first result;
  - `PatientSearchPageNew` stays on the page.
- `GeminiService.OrthopaedicsPatientsQuestionGoesToModel`: the routing keyword `patients` does not occur in the German "Patienten". A German request for the patients of a department is therefore answered from the table only when it also says "liste" or "heute", or names one of the three departments that are keywords. Orthopaedics is not one of them.
- The calendar keeps start ≤ end after any click (`CalendarModal.ClicksOrdered`). Its opening effect (`CalendarModal.Modal.Sync`) copies the store's range unchecked, and the documents panel's two date inputs can leave that range unordered.

## Model

| member | source | states |
|---|---|---|
| ThemeSlice.Flip | src/store/slices/themeSlice.ts:24 | the toggled theme always differs from the current one |
| ThemeSlice.FlipTwice | src/store/slices/themeSlice.ts:23-25 | toggling twice gives back the original theme |
| ThemeSlice.ApplyClassSpec | src/store/slices/themeSlice.ts:19-21 | after the class update the root carries the new theme's class and not the other one; every unrelated class is kept; applying the same theme again changes nothing |
| ThemeSlice.ThemeStore.constructor | src/store/slices/themeSlice.ts:9-11 | the initial theme is light |
| ThemeSlice.ThemeStore.SetTheme | src/store/slices/themeSlice.ts:17-22 | the theme becomes the argument and the root shows exactly that theme |
| ThemeSlice.ThemeStore.ToggleTheme | src/store/slices/themeSlice.ts:23-29 | the theme flips and the root shows exactly the new theme |
| Api.AuthHeaders | src/services/api.ts:75-81 | Content-Type is always application/json; Authorization is present iff a non-empty token is stored; when present it is `Bearer <token>`; no other header |
| Api.MergeHeaders | src/services/api.ts:88-91 | the caller's headers override the defaults and a default survives where the caller has none |
| Api.BuildRequest | src/services/api.ts:84-92 | the url is the base followed by the endpoint; verb and body are the caller's; headers are the merged ones |
| Api.Utf8 | src/store/slices/patientSlice.ts:28 | one character encodes as one to four bytes, each below 256; Api.Utf8RoundTrip reads the character back |
| Api.Utf8RoundTrip | src/store/slices/patientSlice.ts:28 | decoding the bytes gives back the code point; the lead byte is `0xxxxxxx`, `110xxxxx`, `1110xxxx` or `11110xxx` for one to four bytes, and every continuation byte is `10xxxxxx` |
| Api.EncodeURIComponentSpec | src/store/slices/patientSlice.ts:28 | text of unreserved characters passes through unchanged; no encoded query holds `&`, `=`, `#`, space, `?` or `+` |
| Api.Browser.constructor | src/services/api.ts:76 | the browser starts with the given storage and location |
| Api.ApiRequest | src/services/api.ts:84-105 | exactly one request is built from the storage before the call; an ok response yields its body and changes nothing; a 401 removes the token, sends the page to `/` and yields undefined; any other status throws `API Error: <status> <statusText>` and leaves storage and location alone; a network failure throws its reason and changes nothing |
| AuthService.Login | src/services/authService.ts:5-22 | the form post goes to the token endpoint with the credentials; an ok answer stores the access token and returns the token data, and then the session is authenticated iff that token is non-empty; a non-ok answer throws `Invalid credentials`; a network failure throws its reason; a failure leaves storage and location unchanged |
| AuthService.GetCurrentUser | src/services/authService.ts:24-26 | exactly one GET of `/auth/me` built from the stored token; an ok body is returned and nothing changes; a 401 removes the token, sends the page to `/` and returns undefined, so the session is no longer authenticated; another status throws `API Error: <status> <statusText>` and a network failure throws its reason, both leaving the browser unchanged |
| AuthService.Logout | src/services/authService.ts:35-38 | the token is removed, the page goes to `/`, and the session is not authenticated afterwards |
| UserSlice.UserStore.constructor | src/store/slices/userSlice.ts:11-15 | no user, not loading, no error |
| UserSlice.UserStore.Logout | src/store/slices/userSlice.ts:39-43 | user and error become null, the token is removed and the page goes to `/` |
| UserSlice.UserStore.ClearError | src/store/slices/userSlice.ts:44-46 | only the error changes, to null |
| UserSlice.UserStore.LoginPending | src/store/slices/userSlice.ts:51-54 | loading; error cleared; user kept |
| UserSlice.UserStore.LoginFulfilled | src/store/slices/userSlice.ts:55-59 | not loading; the user is the payload; error cleared |
| UserSlice.UserStore.LoginRejected | src/store/slices/userSlice.ts:60-63 | not loading; the error is the message or `Login failed`; the previous user is kept |
| UserSlice.UserStore.GetCurrentUserPending | src/store/slices/userSlice.ts:65-67 | loading; unlike the login case, the error is kept |
| UserSlice.UserStore.GetCurrentUserFulfilled | src/store/slices/userSlice.ts:68-71 | not loading; the user is the payload; the error is kept |
| UserSlice.UserStore.GetCurrentUserRejected | src/store/slices/userSlice.ts:72-75 | not loading; the error is the message or `Failed to get user`; the user is kept |
| UserSlice.LoginUserThunk | src/store/slices/userSlice.ts:18-25 | the profile is requested, with the new token, iff the login post was answered ok; otherwise the thunk rejects with the browser unchanged, with `Invalid credentials` for a non-ok answer or the network reason; an ok profile fulfils with it and the token stays stored; a 401 on the profile fulfils with undefined, removes the token and goes to `/`; another profile status rejects with `API Error: <status> <statusText>`, a network failure with its reason |
| UserSlice.LoginUser | src/store/slices/userSlice.ts:18-63 | the store ends not loading; a login not answered ok keeps the user and the browser and sets the error (`Invalid credentials`, or the network reason or `Login failed`); an ok profile becomes the current user with the error cleared; a 401 on the profile leaves no user and no error, no token and the page at `/`; another profile failure keeps the user and sets its error (`API Error: …`, or the network reason or `Login failed`); no error implies the profile was requested |
| PatientSlice.SearchPatientsThunk | src/store/slices/patientSlice.ts:22-31 | a blank or whitespace-only query sends no request and resolves to `[]` with the browser untouched; any other query sends exactly the encoded search request, an ok body is the result, and each failure maps as in `apiRequest` |
| PatientSlice.GetPatientThunk | src/store/slices/patientSlice.ts:33-39 | one GET of `/patients/<id>` built from the stored token; an ok body fulfils; a 401 fulfils with undefined after removing the token and sending the page to `/`; another status rejects with `API Error: <status> <statusText>`; a network failure rejects with its reason; only the 401 touches the browser |
| PatientSlice.CreatePatientThunk | src/store/slices/patientSlice.ts:41-50 | one POST of the new fields to `/patients/` built from the stored token; an ok body fulfils; a 401 fulfils with undefined after removing the token and sending the page to `/`; another status rejects with `API Error: <status> <statusText>`; a network failure rejects with its reason; only the 401 touches the browser |
| PatientSlice.PatientStore.constructor | src/store/slices/patientSlice.ts:13-19 | empty list, no current patient, not loading, no error, empty query |
| PatientSlice.PatientStore.SetSearchQuery | src/store/slices/patientSlice.ts:56-58 | only the search query changes |
| PatientSlice.PatientStore.ClearCurrentPatient | src/store/slices/patientSlice.ts:59-61 | only the current patient changes, to null |
| PatientSlice.PatientStore.ClearError | src/store/slices/patientSlice.ts:62-64 | only the error changes, to null |
| PatientSlice.PatientStore.Pending | src/store/slices/patientSlice.ts:69-72 | loading and no error; list, current patient and query kept (the pending case of all three thunks) |
| PatientSlice.PatientStore.SearchFulfilled | src/store/slices/patientSlice.ts:73-77 | the list is replaced by the payload, undefined included; not loading; error cleared |
| PatientSlice.PatientStore.Rejected | src/store/slices/patientSlice.ts:78-81 | not loading; the error is the message or the case's default; list and current patient kept |
| PatientSlice.PatientStore.SearchRejected | src/store/slices/patientSlice.ts:78-81 | as Rejected, with the default `Failed to search patients` |
| PatientSlice.PatientStore.GetPatientFulfilled | src/store/slices/patientSlice.ts:87-91 | the current patient is the payload, none for undefined; the list is untouched |
| PatientSlice.PatientStore.GetPatientRejected | src/store/slices/patientSlice.ts:92-95 | the error is the message or `Failed to get patient`; the list and the current patient are kept |
| PatientSlice.PatientStore.CreatePatientFulfilled | src/store/slices/patientSlice.ts:101-105 | on a defined list exactly one patient is appended at the end, loading stops and the error is cleared; on an undefined list the push throws and nothing changes |
| PatientSlice.PatientStore.CreatePatientRejected | src/store/slices/patientSlice.ts:106-109 | the error is the message or `Failed to create patient`; the list and the current patient are kept |
| PatientSlice.SearchPatients | src/store/slices/patientSlice.ts:22-81 | a blank query issues no request; a fulfilled search replaces the list and clears the error and the loading flag, and a 401 leaves the list undefined that way; a rejected one keeps the list and sets the error; the current patient and the query are never touched |
| PatientSlice.Unwrap | src/pages/PatientSearchPage.tsx:68 | `.unwrap()` succeeds iff the thunk fulfilled with a payload, and its value is that payload |
| PatientSlice.AwaitSearch | src/components/DocumentsPanel_new.tsx:36 | for a non-blank query, one request for it; the awaited results exist iff the response was ok, and they are its body, now also in the store; a 401 leaves the list undefined with no error, removes the token and goes to `/`, and the caller gets the throw of reading undefined; another status or a network failure keeps the list, sets the message (or `Failed to search patients`) as the error, is what the caller catches, and leaves the browser alone |
| ChatSlice.SendMessageThunk | src/store/slices/chatSlice.ts:18-25 | the post comes first; a network failure or a status other than ok and 401 rejects with its reason or `API Error: <status> <statusText>` and fetches nothing; otherwise the same patient's history is fetched with the storage the post left, and settles the thunk: an ok body fulfils, a 401 fulfils with undefined and goes to `/`, another status or a network failure rejects with its message |
| ChatSlice.GetChatHistoryThunk | src/store/slices/chatSlice.ts:28-34 | one GET of the patient's history built from the stored token; an ok body fulfils; a 401 fulfils with undefined after removing the token and going to `/`; another status rejects with `API Error: <status> <statusText>`; a network failure rejects with its reason; only the 401 touches the browser |
| ChatSlice.ChatStore.constructor | src/store/slices/chatSlice.ts:11-15 | no messages, not loading, no error |
| ChatSlice.ChatStore.ClearMessages | src/store/slices/chatSlice.ts:40-42 | the list becomes empty; nothing else changes |
| ChatSlice.ChatStore.ClearError | src/store/slices/chatSlice.ts:43-45 | only the error changes, to null |
| ChatSlice.ChatStore.Pending | src/store/slices/chatSlice.ts:50-53 | loading, no error, messages kept |
| ChatSlice.ChatStore.Fulfilled | src/store/slices/chatSlice.ts:54-58 | the payload replaces the messages wholesale, undefined included; not loading; error cleared |
| ChatSlice.ChatStore.Rejected | src/store/slices/chatSlice.ts:59-62 | messages kept; the error is the message or the case's default |
| ChatSlice.Settle | src/store/slices/chatSlice.ts:54-76 | any fulfilled payload, undefined included, replaces the messages, stops loading and clears the error; a rejection keeps them and sets the message or the default |
| ChatSlice.SendMessage | src/store/slices/chatSlice.ts:18-62 | the store ends not loading; a failed post keeps the messages and the browser and shows its error (`API Error: …`, or the network reason or `Failed to send message`); otherwise the same patient's history follows: ok replaces the messages, a 401 leaves them undefined with no error, any other failure keeps them and shows its error; a 401 on either request removes the token and goes to `/`, and otherwise the browser is unchanged |
| ChatSlice.GetChatHistory | src/store/slices/chatSlice.ts:28-76 | one history request for the id; the store ends not loading; ok replaces the messages and clears the error; a 401 leaves them undefined with no error, removes the token and goes to `/`; another status keeps them and shows `API Error: <status> <statusText>`; a network failure keeps them and shows its reason or `Failed to get chat history`; only a 401 touches the browser |
| AppSlice.LoadPatientCases | src/store/slices/appSlice.ts:120-140 | `empty` and `not-found` each leave no patient and exactly one untagged ai message, the greeting or the not-found notice; any other payload leaves the state unchanged |
| AppSlice.GreetingNamesPatient | src/store/slices/appSlice.ts:198 | the greeting of a record contains the patient's first and last name, diagnosis and status |
| AppSlice.LoadByIdUnsettledCases | src/store/slices/appSlice.ts:182-191 | pending and rejected each leave no patient and exactly one untagged ai notice; indicator, range and reset flag are kept |
| AppSlice.LoadByIdFulfilledCase | src/store/slices/appSlice.ts:192-201 | the loaded patient becomes resident and the transcript is one greeting tagged with its id and naming it |
| AppSlice.ResetCases | src/store/slices/appSlice.ts:145-165 | both resets set the reset flag and leave exactly one greeting, tagged with the resident patient and naming it, or the generic untagged one |
| AppSlice.AskPendingAppends | src/store/slices/appSlice.ts:221-232 | the indicator goes up and exactly one user message is appended, with the question as text and the patient's id or `''` as tag; earlier messages are unchanged; on an undefined transcript the push throws and nothing changes |
| AppSlice.AskErrorTextParts | src/store/slices/appSlice.ts:239-244 | the error text contains the server's message, or the apology when it is empty, and the tip that fits whether a patient is resident |
| AppSlice.AskSettleAppends | src/store/slices/appSlice.ts:233-247 | fulfilled and rejected both lower the indicator and append exactly one ai message, keeping every earlier one; on an undefined transcript both throw and nothing changes |
| AppSlice.TranscriptBecomesUndefined | src/store/slices/appSlice.ts:213-219 | a defined transcript becomes undefined exactly when a history load fulfilled with undefined (after a 401) arrives with the reset flag down |
| AppSlice.UndefinedTranscriptStays | src/store/slices/appSlice.ts:221-247 | on an undefined transcript addMessage and the three askAi cases throw and change nothing, and it stays undefined under every action except a history load and those that assign a new list |
| AppSlice.AssigningDefinesTranscript | src/store/slices/appSlice.ts:120-211 | loading, unloading, resetting and every loadPatientById case leave a defined transcript, whatever it was |
| AppSlice.ResetStep | src/store/slices/appSlice.ts:146 | every reset raises the reset flag |
| AppSlice.NeutralKeepsFlag | src/store/slices/appSlice.ts:213-219 | actions that neither reset nor deliver a history leave the flag as it was, over any run |
| AppSlice.StaleLoadDroppedOnce | src/store/slices/appSlice.ts:213-219 | after a reset the first history load to arrive is dropped; the next one, with no reset in between, replaces the transcript |
| AppSlice.SuppressionBound | src/store/slices/appSlice.ts:213-219 | over any run, the suppressed history loads never outnumber the resets (counting a flag pending at either end) |
| AppSlice.NoAskKeepsTyping | src/store/slices/appSlice.ts:222 | a run without an askAi event leaves the indicator as it was |
| AppSlice.TypingFollowsLastAsk | src/store/slices/appSlice.ts:222-238 | the indicator after a run is set by the last askAi event alone: up after a pending, down after a settle, even with another request still outstanding; if that event meets an undefined transcript, it throws and the indicator keeps its value |
| AppSlice.FirstSettleClearsTyping | src/store/slices/appSlice.ts:234 | with two questions in flight, the first answer lowers the indicator; on an undefined transcript all three cases throw and nothing changes |
| AppSlice.AppendingKeepsPrefix | src/store/slices/appSlice.ts:221-247 | under asks, answers, errors, added messages and calendar actions the old transcript stays a prefix, so no user message is removed; an undefined transcript stays undefined |
| AppSlice.AskRouting | src/store/slices/appSlice.ts:72-101 | without a patient the question is posted to `/chat/general`; with one it goes to `/chat/` under the patient's id, with a date filter iff both bounds are set |
| AppSlice.AskAiThunk | src/store/slices/appSlice.ts:63-114 | the request is built from the state read; the thunk fulfils iff the response is ok, with a reply tagged with the patient or `''`; a 401 rejects (reading `message_id` of undefined), removes the token and goes to `/`; another status rejects with `API Error: <status> <statusText>`, a network failure with its reason; only a 401 touches the browser |
| AppSlice.AppStore.constructor | src/store/slices/appSlice.ts:15-22 | the initial state |
| AppSlice.AppStore.LoadPatient | src/store/slices/appSlice.ts:120-140 | the new state is `Reduce` of the loadPatient action |
| AppSlice.AppStore.UnloadPatient | src/store/slices/appSlice.ts:141-144 | the new state is `Reduce` of unloadPatient |
| AppSlice.AppStore.ResetChat | src/store/slices/appSlice.ts:145-165 | the new state is `Reduce` of resetChat |
| AppSlice.AppStore.AddMessage | src/store/slices/appSlice.ts:166-168 | the new state is `Reduce` of addMessage |
| AppSlice.AppStore.OpenCalendar | src/store/slices/appSlice.ts:169-171 | the calendar flag is raised |
| AppSlice.AppStore.CloseCalendar | src/store/slices/appSlice.ts:172-174 | the calendar flag is lowered |
| AppSlice.AppStore.SetDateRange | src/store/slices/appSlice.ts:175-177 | the new state is `Reduce` of setDateRange |
| AppSlice.AppStore.LoadByIdPending | src/store/slices/appSlice.ts:182-191 | the new state is `Reduce` of the pending case |
| AppSlice.AppStore.LoadByIdFulfilled | src/store/slices/appSlice.ts:192-201 | the new state is `Reduce` of the fulfilled case |
| AppSlice.AppStore.LoadByIdRejected | src/store/slices/appSlice.ts:202-211 | the new state is `Reduce` of the rejected case |
| AppSlice.AppStore.HistoryFulfilled | src/store/slices/appSlice.ts:213-219 | the new state is `Reduce` of the history case |
| AppSlice.AppStore.AskPending | src/store/slices/appSlice.ts:221-232 | the new state is `Reduce` of askAi.pending |
| AppSlice.AppStore.AskFulfilled | src/store/slices/appSlice.ts:233-236 | the new state is `Reduce` of askAi.fulfilled |
| AppSlice.AppStore.AskRejected | src/store/slices/appSlice.ts:237-247 | the new state is `Reduce` of askAi.rejected |
| AppSlice.AppStore.ResetCompletelyFulfilled | src/store/slices/appSlice.ts:249-267 | the new state is `Reduce` of resetChatCompletely.fulfilled |
| AppSlice.SettleAsk | src/store/slices/appSlice.ts:233-247 | the store takes the fulfilled or the rejected case matching how the ask settled |
| AppSlice.AskRoundTrip | src/store/slices/appSlice.ts:221-247 | on a defined transcript a question and its settle append exactly two messages: the question as a user message, then an ai message, both tagged with the resident patient; the indicator ends down and the patient is unchanged; on an undefined one nothing changes |
| AppSlice.AskAi | src/store/slices/appSlice.ts:63-114 | on an undefined transcript the pending case throws, nothing is sent and nothing changes; otherwise pending, then the request built from the state, then the settle; the store ends in the run of those events, fulfilled iff the response was ok, with the reply for the resident patient; the rejection is the undefined read after a 401, `API Error: <status> <statusText>` for another status, or the network reason, and its error text is what the transcript shows; only a 401 touches the browser, removing the token and going to `/` |
| AppSlice.LoadByIdOutcome | src/store/slices/appSlice.ts:182-211 | a load by id leaves exactly one ai message: the greeting of the loaded patient, tagged with its id, or an untagged notice with no patient |
| AppSlice.LoadPatientById | src/store/slices/appSlice.ts:25-31 | one GET of `/patients/<id>`; the store ends in pending followed by the settled case of the result; only a 401 touches the browser, removing the token and going to `/` |
| AppSlice.LoadChatHistory | src/store/slices/appSlice.ts:34-40 | one GET of the history; an ok load delivers its body and a 401 delivers undefined, both through the reset-flag check of the history case; a rejected load changes nothing; a 401 removes the token and goes to `/`, and every other answer leaves the browser unchanged |
| AppSlice.ResetChatCompletely | src/store/slices/appSlice.ts:53-61 | the history is deleted iff a patient is resident; the store is reset either way; a DELETE answered with 401 removes the token and goes to `/`, and otherwise the browser is unchanged |
| AppSliceNew.PlaceholderNamesId | src/store/slices/appSliceNew.ts:89 | the loading placeholder contains the id |
| AppSliceNew.ComorbidityNames | src/store/slices/appSliceNew.ts:45 | the joined comorbidity names contain every name |
| AppSliceNew.FindKind | src/store/slices/appSliceNew.ts:47 | the index found is that of the first report of the kind, or the length when there is none |
| AppSliceNew.SummaryWins | src/store/slices/appSliceNew.ts:43-45 | with a patient, a question containing `zusammenfassung` gets the summary, whatever else it contains, and the summary names the patient |
| AppSliceNew.CtAnswer | src/store/slices/appSliceNew.ts:46-48 | asked for `letzte ct` (without the summary keyword), the answer is about the first radiology report, or the fixed no-CT text |
| AppSliceNew.OtherQuestions | src/store/slices/appSliceNew.ts:40-54 | any other question about a patient gets the default; without a patient only the number keyword changes the default |
| AppSliceNew.AppStoreNew.constructor | src/store/slices/appSliceNew.ts:9-18 | the initial state |
| AppSliceNew.AppStoreNew.LoadPatient | src/store/slices/appSliceNew.ts:72-93 | `empty` leaves the generic greeting; any other id leaves no patient and one placeholder tagged with that id |
| AppSliceNew.AppStoreNew.UnloadPatient | src/store/slices/appSliceNew.ts:94-97 | patient and messages cleared |
| AppSliceNew.AppStoreNew.AddMessage | src/store/slices/appSliceNew.ts:98-100 | exactly one message appended |
| AppSliceNew.AppStoreNew.OpenCalendar | src/store/slices/appSliceNew.ts:101-103 | the calendar flag is raised |
| AppSliceNew.AppStoreNew.CloseCalendar | src/store/slices/appSliceNew.ts:104-106 | the calendar flag is lowered |
| AppSliceNew.AppStoreNew.SetDateRange | src/store/slices/appSliceNew.ts:107-109 | the range is replaced |
| AppSliceNew.AppStoreNew.AskPending | src/store/slices/appSliceNew.ts:113-115 | only the indicator changes, to up |
| AppSliceNew.AppStoreNew.AskFulfilled | src/store/slices/appSliceNew.ts:116-119 | the reply is appended and the indicator goes down |
| AppSliceNew.AppStoreNew.AskRejected | src/store/slices/appSliceNew.ts:120-129 | one fixed apology is appended, tagged with the patient, and the indicator goes down |
| AppSliceNew.AskAi | src/store/slices/appSliceNew.ts:21-66 | the question is appended as a user message before the answer; then the chosen answer is appended with the clock reading plus one as its id; the indicator ends down; the patient, the calendar flag and the date range are kept |
| WorkspacePage.DecideCases | src/pages/WorkspacePage.tsx:18-33 | without a user the page goes to `/login` and loads nothing; without an id nothing happens; `empty` loads only the greeting; a real id is loaded iff no patient, or another one, is resident |
| WorkspacePage.SwitchingPatientsLoadsTwice | src/pages/WorkspacePage.tsx:26-30 | replacing one resident patient by another makes the re-run effect load the same id a second time |
| WorkspacePage.RunEffect | src/pages/WorkspacePage.tsx:18-33 | the branch taken is `Decide`'s; a load by id is of the route's id and is followed by the history load of the same id unless it was answered with 401, which leaves the state as the pending case left it, no token and the page at `/`; otherwise the state is the pending case, the settled load and the settled history load in turn, and only a 401 on the history touches the browser |
| SearchBox.Arm | src/components/DocumentsPanel_new.tsx:27-49 | a keystroke replaces any pending timer by one for its value, due 300 ms later |
| SearchBox.Latest | src/components/DocumentsPanel_new.tsx:23-49 | the value a run of keystrokes leaves armed is the last one typed |
| SearchBox.BurstFiresNothing | src/components/DocumentsPanel_new.tsx:27-49 | during a burst of keystrokes less than 300 ms apart no search starts, and the single pending timer is the last keystroke's |
| SearchBox.SettledBurstFiresOnce | src/components/DocumentsPanel_new.tsx:33-47 | the first tick 300 ms after the burst's last keystroke fires exactly once, with the last value; later ticks fire nothing |
| SearchBox.SearchText | src/components/DocumentsPanel_new.tsx:34-36 | a firing timer searches the trimmed value iff it has at least two characters |
| SearchBox.Suggestions | src/components/DocumentsPanel_new.tsx:37-45 | after the search, at most five results shown, or an empty hidden list |
| SearchBox.AlertLine | src/pages/PatientSearchPage.tsx:59-82 | the error line is empty iff there is no alert; otherwise it is the page's text for that alert |
| DocumentsPanel.FilteredReportsSpec | src/components/DocumentsPanel_new.tsx:82-107 | the filtered reports keep their order; a report is kept iff the lower-cased term (if any) occurs in its title, summary or type and its date lies inclusively in the range (if both bounds are set); the filter fails only where the summary is null and the title did not match |
| DocumentsPanel.SubmittedQuery | src/components/DocumentsPanel_new.tsx:59-65 | nothing is searched iff the query is blank; otherwise the trimmed query is searched, and it is not blank |
| DocumentsPanel.SubmitReaction | src/components/DocumentsPanel_new.tsx:67-78 | no result shows the not-found error; one result opens its workspace; several are offered as at most five shown suggestions; a throw shows the search error |
| DocumentsPanel.Panel.constructor | src/components/DocumentsPanel_new.tsx:14-20 | the initial component state |
| DocumentsPanel.Panel.SetSearchTerm | src/components/DocumentsPanel_new.tsx:230 | only the report filter term changes |
| DocumentsPanel.Panel.PatientSearchInput | src/components/DocumentsPanel_new.tsx:23-50 | the raw value is kept, the error cleared, and the pending timer replaced by exactly one for this value |
| DocumentsPanel.Panel.TimerTick | src/components/DocumentsPanel_new.tsx:33-47 | a due timer fires once: a trimmed value of two or more characters searches that text and shows at most five results, or hides them on a throw; a shorter value hides them without a request; after a search the store and the browser are as the search's answer leaves them (a 401 removes the token and goes to `/`) |
| DocumentsPanel.Panel.Offer | src/components/DocumentsPanel_new.tsx:35-42 | one search for the query; at most five results offered, or the box hidden on a throw; the store and the browser as the answer leaves them |
| DocumentsPanel.Panel.PatientSelect | src/components/DocumentsPanel_new.tsx:52-56 | navigates to the patient's workspace, hides the suggestions and clears the query |
| DocumentsPanel.Panel.PatientSearchSubmit | src/components/DocumentsPanel_new.tsx:58-79 | a blank query sets the validation error with no request; otherwise one search for the trimmed query; the store ends as the answer leaves it, the storage loses the token only on a 401, and the view is the reaction to the outcome on the page the answer left (`/` after a 401) |
| DocumentsPanel.Panel.SearchSubmitted | src/components/DocumentsPanel_new.tsx:64-78 | one search for the query; the store as the answer leaves it; the storage loses the token only on a 401; the view is the reaction to the outcome on the page the answer left (`/` after a 401) |
| DocumentsPanel.Panel.ShowOutcome | src/components/DocumentsPanel_new.tsx:67-78 | the view takes the reaction to the outcome |
| DocumentsPanel.Panel.Unmount | src/components/DocumentsPanel_new.tsx:118-124 | the pending timer is cancelled |
| DocumentsPanel.ChangeStartDate | src/components/DocumentsPanel_new.tsx:251 | a new start with the end kept |
| DocumentsPanel.ChangeEndDate | src/components/DocumentsPanel_new.tsx:260 | a new end with the start kept |
| DocumentsPanel.ResetDateFilter | src/components/DocumentsPanel_new.tsx:113-115 | both bounds null |
| PatientSearchPage.Page.constructor | src/pages/PatientSearchPage.tsx:12-17 | the initial page state |
| PatientSearchPage.Page.Mount | src/pages/PatientSearchPage.tsx:46-55 | without a token the page goes to `/`; no patients are loaded either way |
| PatientSearchPage.Page.InputChange | src/pages/PatientSearchPage.tsx:94-101 | the raw value is stored, the error cleared, and the pending timer replaced by one for the raw value |
| PatientSearchPage.Page.TimerTick | src/pages/PatientSearchPage.tsx:27-41 | a due timer fires once: a trimmed value of two or more characters is searched trimmed and at most five results shown; a failure or a shorter value hides the box; after a search the store and the browser are as the search's answer leaves them (a 401 removes the token and goes to `/`) |
| PatientSearchPage.Page.Offer | src/pages/PatientSearchPage.tsx:29-36 | one search for the query; at most five results shown, or the box hidden on a throw; the store and the browser as the answer leaves them |
| PatientSearchPage.Page.Search | src/pages/PatientSearchPage.tsx:57-84 | a blank query sets the error with no request; otherwise the error is cleared, the suggestions hidden, the raw query stored and searched untrimmed; no result shows an error, any result opens the first one's workspace, a failure shows the search error; the store ends as the answer leaves it, and a failure leaves the browser as the answer did (no token and `/` after a 401, unchanged otherwise) |
| PatientSearchPage.Page.Submit | src/pages/PatientSearchPage.tsx:63-84 | the non-blank branch of the search, with the store and, on a failure, the browser as the answer leaves them |
| PatientSearchPage.Page.ShowOutcome | src/pages/PatientSearchPage.tsx:70-83 | the page's reaction to the settled search |
| PatientSearchPage.Page.SuggestionClick | src/pages/PatientSearchPage.tsx:112-116 | the query becomes `first last`, the suggestions are hidden and the page goes to the patient's workspace |
| PatientSearchPage.Page.Unmount | src/pages/PatientSearchPage.tsx:104-110 | the pending timer is cancelled |
| PatientSearchPage.Skip | src/pages/PatientSearchPage.tsx:90-92 | navigates to the empty workspace |
| PatientSearchPageNew.Page.constructor | src/pages/PatientSearchPageNew.tsx:11-13 | the initial page state |
| PatientSearchPageNew.Page.InputChange | src/pages/PatientSearchPageNew.tsx:61-63 | only the local query changes; no search starts |
| PatientSearchPageNew.Page.Search | src/pages/PatientSearchPageNew.tsx:29-51 | a blank query sets the error with no request; otherwise one search of the raw query; no result shows an error, one opens its workspace, several stay on the page with the result list shown; the store ends as the answer leaves it, and a failure leaves the browser as the answer did (no token and `/` after a 401, unchanged otherwise) |
| PatientSearchPageNew.Page.ShowOutcome | src/pages/PatientSearchPageNew.tsx:41-50 | the page's reaction to the settled search |
| PatientSearchPageNew.Mount | src/pages/PatientSearchPageNew.tsx:18-27 | without a token the page goes to `/`; otherwise `searchPatients('')` runs, which sends no request and leaves no patients |
| PatientSearchPageNew.PatientSelect | src/pages/PatientSearchPageNew.tsx:53-55 | navigates to the chosen workspace |
| PatientSearchPageNew.Skip | src/pages/PatientSearchPageNew.tsx:57-59 | navigates to the empty workspace |
| CalendarModal.Click | src/components/CalendarModal.tsx:20-30 | after any click a start is chosen and start ≤ end holds; the click either completes the range keeping the start, or starts a range without end at the clicked date |
| CalendarModal.ClicksOrdered | src/components/CalendarModal.tsx:20-30 | any run of clicks from an ordered selection stays ordered and, if non-empty, leaves a start |
| CalendarModal.TwoClicksChooseRange | src/components/CalendarModal.tsx:22-28 | two clicks, the second not earlier, choose exactly that range; a third starts over |
| CalendarModal.StartDay | src/components/CalendarModal.tsx:52 | the column lies in 0..6, Monday is 0 and Sunday 6, and the weekday is recovered from the column |
| CalendarModal.HighlightCoversRange | src/components/CalendarModal.tsx:93-96 | for a complete ordered range the marked cells are exactly the days from start to end inclusive; the inner ones are neither end; no hover shading shows |
| CalendarModal.Modal.constructor | src/components/CalendarModal.tsx:10-13 | no bounds chosen; the month on show is the current one, held by its first day, from which today is that many days on |
| CalendarModal.Modal.Sync | src/components/CalendarModal.tsx:15-18 | the local bounds are copied from the store's range |
| CalendarModal.Modal.DateClick | src/components/CalendarModal.tsx:20-30 | the new selection is `Click` of the old one at the clicked day of the shown month |
| CalendarModal.Modal.ApplyFilter | src/components/CalendarModal.tsx:32-37 | both bounds, nulls included, become the store's range, then the calendar closes |
| CalendarModal.Modal.Reset | src/components/CalendarModal.tsx:40-44 | both local bounds and both store bounds become null |
| Text.Lower | src/components/DocumentsPanel_new.tsx:90 | same length, each character lower-cased |
| Text.LowerIdempotent | backend/app/routers/patients.py:28-30 | lower-casing twice is lower-casing once |
| Text.ContainsIffOccurs | src/components/DocumentsPanel_new.tsx:90-92 | `includes` holds iff the text occurs at some position |
| Text.TrimSpec | src/components/DocumentsPanel_new.tsx:34 | trimming gives a contiguous piece with no white space at either end, empty iff the input is all white space |
| Text.TrimNotBlank | src/components/DocumentsPanel_new.tsx:59-65 | a query that is not blank stays non-blank when trimmed |
| Text.NatToString | backend/app/services/gemini_service.py:88 | the decimal rendering is non-empty and made only of digits; Text.NatToStringValue gives its value |
| Text.NatToStringValue | backend/app/services/gemini_service.py:88 | the digits denote the number rendered, and only 0 starts with `0` |
| Seqs.Filter | src/components/DocumentsPanel_new.tsx:89 | the result is no longer than the input |
| Seqs.FilterMembers | src/components/DocumentsPanel_new.tsx:89-93 | an element is kept iff it is in the input and satisfies the predicate |
| Seqs.FilterIsSubsequence | src/components/DocumentsPanel_new.tsx:89-93 | filtering keeps the order: the result is a subsequence |
| Seqs.FilterFilter | src/components/DocumentsPanel_new.tsx:85-104 | two filters in a row are one filter by both predicates |
| Seqs.Take | src/components/DocumentsPanel_new.tsx:37 | `slice(0, n)`: at most n elements, the first ones |
| Seqs.Drop | backend/app/routers/patients.py:33 | OFFSET: everything after the first n, in order |
| Seqs.SortBy | backend/app/routers/chat.py:99-101 | the result is sorted by the key and a permutation of the input |
| Tables.FindRow | backend/app/routers/patients.py:58 | no row iff no row has the id; a found row is in the table and has the id |
| Tables.FindAfterInsert | backend/app/routers/patients.py:62-66 | after a row is added under a new id, that id finds it and every other id finds what it found before |
| Tables.InsertKeepsUnique | backend/app/routers/patients.py:58-64 | adding a row under a new id keeps the ids unique |
| Tables.ReportsOf | backend/app/routers/patients.py:78 | exactly the reports with that patient id, in table order |
| Tables.ComorbiditiesOf | backend/app/models/database.py:39 | exactly the comorbidities linked to the patient |
| Tables.Join | backend/app/routers/patients.py:42-45 | the row's fields with exactly its reports and its linked comorbidities |
| Tables.FilterKeepsIds | backend/app/routers/chat.py:117-121 | deleting rows keeps the remaining ids increasing and below the counter |
| Tables.Db.constructor | backend/app/models/database.py:26-73 | empty tables that satisfy the invariants |
| PatientsRouter.PageRowsSpec | backend/app/routers/patients.py:25-33 | at most `limit` rows from position `skip` on; each is a row of the table and, under a non-empty search, matches it; without a search the page is a window of the table |
| PatientsRouter.SearchIgnoresCase | backend/app/routers/patients.py:26-31 | a search and its lower-cased form give the same page |
| PatientsRouter.GetPatients | backend/app/routers/patients.py:12-34 | the page is the joined rows of `PageRows`, with skip 0 and limit 100 when absent |
| PatientsRouter.GetPatient | backend/app/routers/patients.py:36-49 | 404 iff no row has the id; otherwise the joined patient with that id |
| PatientsRouter.CreatePatient | backend/app/routers/patients.py:51-66 | a taken id gives 400 and no change; otherwise exactly one row is appended and returned; the other tables are untouched |
| PatientsRouter.CreatedIsFound | backend/app/routers/patients.py:62-66 | after a creation the new id finds the new row and every other lookup is unchanged |
| PatientsRouter.GetPatientReports | backend/app/routers/patients.py:68-79 | 404 iff the patient is unknown; otherwise exactly the patient's reports, in table order |
| ChatRouter.ChatGeneral | backend/app/routers/chat.py:14-31 | a missing or empty message gives 400; otherwise the general answer with the clock as its id; the method cannot write the tables |
| ChatRouter.ForwardedFilter | backend/app/routers/chat.py:62-67 | a date filter is forwarded iff the request has one, with the same bounds |
| ChatRouter.StoreMessage | backend/app/routers/chat.py:52-58 | the row is appended under the counter's value and the counter moves on; the invariants hold |
| ChatRouter.ChatWithAi | backend/app/routers/chat.py:36-85 | an unknown patient gives 404 and stores nothing; otherwise the question row is appended first; an answer from the analysis of the joined patient, the question and the forwarded filter is appended as a second row, whose id is returned; a failing analysis gives 500 `Error processing chat request: <reason>`, with the question row kept and no answer row |
| ChatRouter.HistorySpec | backend/app/routers/chat.py:99-101 | the history is sorted by creation time and holds exactly the patient's messages, each as often as stored |
| ChatRouter.GetChatHistory | backend/app/routers/chat.py:87-103 | 404 iff the patient is unknown; otherwise the history |
| ChatRouter.ClearChatHistory | backend/app/routers/chat.py:105-123 | 404 and no change for an unknown patient; otherwise every message of the patient is removed, the others stay in order, and the count and its message are returned |
| ChatRouter.Partition | backend/app/routers/chat.py:117-119 | the loop yields the other patients' messages in order and the number of the patient's |
| ChatRouter.DeleteSplits | backend/app/routers/chat.py:117-119 | removed plus kept is everything; none of the patient's is left; each other patient's messages are exactly as before |
| ChatRouter.DeletedTextNamesCount | backend/app/routers/chat.py:123 | the message names the number removed |
| GeminiService.PyOr | backend/app/services/gemini_service.py:227-228 | a None or empty column gives the fallback, anything else itself |
| GeminiService.AnyInIff | backend/app/services/gemini_service.py:52 | `any(k in text ...)` holds iff some keyword occurs |
| GeminiService.RouteCases | backend/app/services/gemini_service.py:52-57 | a list keyword sends the question to the list handler even beside a statistics keyword; statistics gets those with a statistics keyword and no list keyword; every other question goes to the model |
| GeminiService.WithoutRoutingLettersGoesToModel | backend/app/services/gemini_service.py:52-57 | a question without l, s or u, in either case, goes to the model |
| GeminiService.OrthopaedicsPatientsQuestionGoesToModel | backend/app/services/gemini_service.py:52-57 | "Zeige Patienten der Orthopädie" goes to the model and never reaches the list handler |
| GeminiService.DepartmentFirstMatch | backend/app/services/gemini_service.py:66-74 | no department iff none of the four keywords occurs; otherwise the first in the fixed order whose keyword occurs |
| GeminiService.ListedPatientsSpec | backend/app/services/gemini_service.py:77-82 | at most ten rows, in table order and a subsequence of it; with a department each has it in its primary condition |
| GeminiService.ListTextNumbered | backend/app/services/gemini_service.py:88-95 | the header contains the count; the patient at position i is entry i + 1, between the entries before and after it |
| GeminiService.ListResponse | backend/app/services/gemini_service.py:88-97 | the loop's text is the header followed by one numbered entry per patient from 1 |
| GeminiService.HandlePatientListQuery | backend/app/services/gemini_service.py:59-97 | no rows give the fixed "no patients" text; otherwise the numbered list of the listed rows |
| GeminiService.GeneralPrompt | backend/app/services/gemini_service.py:128-138 | the prompt contains the question |
| GeminiService.GeneralMedicalAnswer | backend/app/services/gemini_service.py:124-144 | the model's text, or exactly the `**Fehler bei der Verarbeitung**` heading followed by the error text in italics |
| GeminiService.TableAnswersIgnoreModel | backend/app/services/gemini_service.py:52-55 | list and statistics questions get the same answer whatever the model does |
| GeminiService.GetGeneralQuery | backend/app/services/gemini_service.py:47-57 | the answer of the routed handler |
| GeminiService.ComorbiditiesListed | backend/app/services/gemini_service.py:232-236 | one `- name` line per comorbidity, in order, or the fixed "none documented" line |
| GeminiService.ReportsUsedSpec | backend/app/services/gemini_service.py:241-249 | with both bounds set, the reports kept are in order and a report is kept iff start ≤ date ≤ end; otherwise all are kept |
| GeminiService.ContextWithoutReports | backend/app/services/gemini_service.py:239-262 | without reports the context says so, whatever the filter |
| GeminiService.ContextShowsPeriod | backend/app/services/gemini_service.py:242-250 | with reports and both bounds set the context states the period |
| GeminiService.ContextDescribesReport | backend/app/services/gemini_service.py:252-260 | every report kept has its block in the context |
| GeminiService.AppendNumbered | backend/app/services/gemini_service.py:90-95 | the enumerate loop's result is the text followed by the numbered pieces |
| GeminiService.AppendPieces | backend/app/services/gemini_service.py:233-234 | the for loop's result is the text followed by one piece per element |
| GeminiService.BuildPatientContext | backend/app/services/gemini_service.py:220-264 | the loop-built context equals `PatientContext` |
| GeminiService.NumberedAt | backend/app/services/gemini_service.py:90-91 | element i has its piece, numbered first + i, between those before and after it |
| GeminiService.PiecesAt | backend/app/services/gemini_service.py:233-234 | element i has its piece between those before and after it |
| GeminiService.Framed | backend/app/services/gemini_service.py:19-39 | both fields of the f-string occur in the result |
| GeminiService.AnalysisPrompt | backend/app/services/gemini_service.py:19-39 | the prompt contains the context and the question |
| GeminiService.GetPatientAnalysis | backend/app/services/gemini_service.py:11-45 | the model's text for the prompt of the built context and the question, or `Fehler bei der Analyse: ` with the error |

## Left out

- Rendering, animation, hover state, month navigation and `daysInMonth` of the calendar: these are markup, not state logic. Components other than those modelled are also markup.
- `fetch`, the network, `window.location`, `localStorage` and the DOM. Each is a parameter or a field: `fetch` is a function from the request to what comes back, storage is a map, the location is a string and the root class list is a set.
- Timers: `setTimeout`/`clearTimeout` are an integer clock with at most one pending deadline.
- Clocks: `Date.now()`, `new Date().toISOString()`, `time.time()` and `created_at` are parameters. Dates are integers, so ISO parsing, time zones and `toLocaleDateString` are not modelled; a date's rendering is the parameter `dateText`.
- The language model (`generate_content`) is a parameter from prompt to text or error.
- `_handle_statistics_query` (gemini_service.py 99-122) is an SQL group-by aggregate; its answer is a parameter `statistics`.
- `analyze_reports` (gemini_service.py 178-218) has no caller in the core.
- The dead code at gemini_service.py 145-176 is unreachable.
- ChatRouter.ChatWithAi: the analysis is an injected function. It keeps the method's proof small. `GeminiService.GetPatientAnalysis` and `ChatRouter.GeminiAnalysis` give the value the router passes.
- The 500 of `chat_general` (chat.py 33-34) is not modelled: database failures are not modelled, and the answer service catches the model's own errors.
- ChatRouter.GeminiAnalysis: never fails, since dates are integers. In the service, a date bound that `datetime.fromisoformat` rejects, such as one ending in `Z` (gemini_service.py 243-248), raises outside any `try`; `chat_with_ai` turns that into its 500, which `ChatRouter.ChatWithAi` models for any failing analysis.
- PatientSlice.PatientStore.CreatePatientFulfilled: a create answered with 401 fulfils with `undefined`, which the source pushes onto the list as an entry; the list holds patients only, so that entry is not modelled.
- The workspace transcript and the other stores' lists can become `undefined` after a 401 (None in the model). Reading `.length` or mapping such a list in a component throws while rendering; that is markup and not modelled.
- Authentication of the routers (`get_current_user`) and the register call of the auth service are not modelled: neither touches the token lifecycle.
- GeminiService.DepartmentFirstMatch: `Patient.primary_condition.contains` is modelled as a case-sensitive substring test. SQL `LIKE` case sensitivity depends on the database.
- PatientsRouter.PageRowsSpec: `ilike` is a case-insensitive substring test; `%` and `_` in the search text are not given their pattern meaning.
- Lower-casing covers ASCII and the German umlauts only, not full Unicode case mapping. White space for trimming is a fixed set of characters.
- PatientsRouter.GetPatients: negative `skip` and `limit` are excluded by their type (`nat`). Their meaning is engine-specific.
- Rows come back in insertion order where no `ORDER BY` is given. `order_by(created_at)` is an insertion sort; the order among rows with equal timestamps is not stated, and the database does not promise one either.
- The message id autoincrement is a counter in the `Db` object.
- Overlapping thunks are explicit interleavings of their pending, fulfilled and rejected events; no real concurrency is modelled.
- `JSON.stringify` of a request body is the `Payload` datatype, not its text.
