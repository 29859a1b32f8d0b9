/** The `/chat` endpoints (backend/app/routers/chat.py) over the in-memory
    tables: the general question, the question about one patient with its
    two stored messages, the patient's history and its deletion. The model
    is the parameter `llm` of the answer service, the clock gives `now` (milliseconds for the
    general answer's id) and `sentAt`/`answeredAt` (the rows' `created_at`),
    and `dateText` renders a stored date. */
module ChatRouter {
  import opened Wrappers
  import opened Text
  import opened Seqs
  import opened Domain
  import opened Tables
  import opened GeminiService

  const MessageRequired := HttpError(400, "Message is required")

  /** `POST /chat/general`: 400 for a missing or empty message; otherwise
      the general answer with the clock's value as its id. Nothing is
      written: the method has no write frame. */
  method ChatGeneral(db: Db, message: Option<string>, statistics: string,
                     llm: string -> Result<string, string>, now: int)
    returns (r: Result<ChatResponse, HttpError>)
    ensures message.None? || message.value == "" ==> r == Err(MessageRequired)
    ensures message.Some? && message.value != "" ==>
      r == Ok(ChatResponse(GeneralAnswer(message.value, db.patients, statistics, llm), now))
  {
    var text := message.GetOr("");
    if text == "" {
      return Err(MessageRequired);
    }
    var answer := GetGeneralQuery(text, db.patients, statistics, llm);
    r := Ok(ChatResponse(answer, now));
  }

  /** The `date_filter` handed to the analysis: the request's own range when
      it carries one, else none. */
  function ForwardedFilter(request: ChatRequest): (f: Option<DateRange>)
    ensures f.Some? <==> request.dateFilter.Some?
    ensures f.Some? ==> f.value == request.dateFilter.value
  {
    if request.dateFilter.Some? then
      Some(DateRange(request.dateFilter.value.startDate, request.dateFilter.value.endDate))
    else None
  }

  /** The two rows `chat_with_ai` stores for a known patient, with the ids
      the counter hands out: the question first, then the answer. */
  function Exchange(next: int, request: ChatRequest, answer: string, sentAt: int, answeredAt: int): seq<ChatMessage> {
    [ChatMessage(next, request.patientId, FromUser, request.message, sentAt),
     ChatMessage(next + 1, request.patientId, FromAi, answer, answeredAt)]
  }

  /** `db.add(ChatMessage(...))` and `commit()`: the row is appended with
      the counter's value as its id, and the counter moves on. */
  method StoreMessage(db: Db, patientId: string, sender: Sender, text: string, at: int) returns (id: int)
    requires db.Valid()
    modifies db
    ensures db.Valid()
    ensures id == old(db.nextMessageId) && db.nextMessageId == id + 1
    ensures db.messages == old(db.messages) + [ChatMessage(id, patientId, sender, text, at)]
    ensures db.patients == old(db.patients) && db.reports == old(db.reports) && db.links == old(db.links)
  {
    id := db.nextMessageId;
    AppendKeepsIds(db.messages, ChatMessage(id, patientId, sender, text, at), id);
    db.messages, db.nextMessageId := db.messages + [ChatMessage(id, patientId, sender, text, at)], id + 1;
  }

  /** The answer service's `get_patient_analysis`, with the model and the
      date rendering fixed: the value `chat_with_ai` receives as `analyse`.
      Dates are integers here, so the service cannot fail, and the answer
      is always `Ok`. */
  function GeminiAnalysis(dateText: int -> string, llm: string -> Result<string, string>)
    : (Patient, string, Option<DateRange>) -> Result<string, string>
  {
    (p: Patient, question: string, dateFilter: Option<DateRange>) => Ok(AnalysisAnswer(p, question, dateFilter, dateText, llm))
  }

  /** The 500 `chat_with_ai` answers when the analysis raises. */
  function ChatFailure(reason: string): HttpError {
    HttpError(500, "Error processing chat request: " + reason)
  }

  /** `POST /chat/`: 404 and nothing stored for an unknown patient;
      otherwise the question is stored and committed, then the analysis of
      the patient (with its reports and comorbidities), the question and the
      forwarded date filter is asked for. An answer is stored too and its
      row id returned; an analysis that raises gives 500 with the question
      already stored and no answer row. */
  method ChatWithAi(db: Db, request: ChatRequest, analyse: (Patient, string, Option<DateRange>) -> Result<string, string>,
                    sentAt: int, answeredAt: int)
    returns (r: Result<ChatResponse, HttpError>)
    requires db.Valid()
    modifies db
    ensures db.Valid()
    ensures old(db.Find(request.patientId)).None? ==>
      r == Err(PatientNotFound) && db.messages == old(db.messages) && db.nextMessageId == old(db.nextMessageId)
    ensures old(db.Find(request.patientId)).Some? ==>
      var answer := analyse(old(db.Joined(db.Find(request.patientId).value)), request.message, ForwardedFilter(request));
      (answer.Ok? ==>
         db.messages == old(db.messages) + Exchange(old(db.nextMessageId), request, answer.value, sentAt, answeredAt)
         && db.nextMessageId == old(db.nextMessageId) + 2
         && r == Ok(ChatResponse(answer.value, old(db.nextMessageId) + 1)))
      && (answer.Err? ==>
         db.messages == old(db.messages) + [ChatMessage(old(db.nextMessageId), request.patientId, FromUser, request.message, sentAt)]
         && db.nextMessageId == old(db.nextMessageId) + 1
         && r == Err(ChatFailure(answer.error)))
    ensures db.patients == old(db.patients) && db.reports == old(db.reports) && db.links == old(db.links)
  {
    var row := db.Find(request.patientId);
    if row.None? {
      return Err(PatientNotFound);
    }
    var patient := db.Joined(row.value);
    var before := db.messages;
    var userId := StoreMessage(db, request.patientId, FromUser, request.message, sentAt);

    var dateFilter: Option<DateRange> := None;
    if request.dateFilter.Some? {
      dateFilter := Some(DateRange(request.dateFilter.value.startDate, request.dateFilter.value.endDate));
    }
    var answer := analyse(patient, request.message, dateFilter);
    if answer.Err? {
      return Err(ChatFailure(answer.error));
    }

    var aiId := StoreMessage(db, request.patientId, FromAi, answer.value, answeredAt);
    assert db.messages == before + Exchange(userId, request, answer.value, sentAt, answeredAt);
    r := Ok(ChatResponse(answer.value, aiId));
  }

  function IsMessageOf(id: string): ChatMessage -> bool {
    (m: ChatMessage) => m.patientId == id
  }

  function IsNotMessageOf(id: string): ChatMessage -> bool {
    (m: ChatMessage) => m.patientId != id
  }

  function CreatedAt(m: ChatMessage): int {
    m.createdAt
  }

  /** `filter(patient_id == id).order_by(created_at)`. */
  function History(messages: seq<ChatMessage>, id: string): seq<ChatMessage> {
    SortBy(Filter(messages, IsMessageOf(id)), CreatedAt)
  }

  /** The history holds exactly the patient's messages, each as often as
      it is stored, ordered by creation time. */
  lemma HistorySpec(messages: seq<ChatMessage>, id: string)
    ensures SortedBy(History(messages, id), CreatedAt)
    ensures multiset(History(messages, id)) == multiset(Filter(messages, IsMessageOf(id)))
    ensures forall m :: m in History(messages, id) <==> m in messages && m.patientId == id
  {
    FilterMembers(messages, IsMessageOf(id));
    var h := History(messages, id);
    forall m ensures m in h <==> m in Filter(messages, IsMessageOf(id)) {
      assert m in h <==> m in multiset(h);
    }
  }

  /** `GET /chat/{id}/history`: 404 for an unknown patient, else its
      history. */
  method GetChatHistory(db: Db, id: string) returns (r: Result<seq<ChatMessage>, HttpError>)
    ensures r.Err? <==> db.Find(id).None?
    ensures r.Err? ==> r.error == PatientNotFound
    ensures r.Ok? ==> r.value == History(db.messages, id)
  {
    var patient := db.Find(id);
    if patient.None? {
      return Err(PatientNotFound);
    }
    r := Ok(History(db.messages, id));
  }

  /** The body of a successful delete. */
  datatype Deleted = Deleted(message: string, deletedCount: nat)

  function DeletedText(n: nat): string {
    "Deleted " + NatToString(n) + " messages"
  }

  /** `DELETE /chat/{id}/history`: 404 and no change for an unknown patient;
      otherwise every message of the patient is removed, the others stay in
      their order, and the number removed is returned. */
  method ClearChatHistory(db: Db, id: string) returns (r: Result<Deleted, HttpError>)
    requires db.Valid()
    modifies db
    ensures db.Valid()
    ensures old(db.Find(id)).None? ==> r == Err(PatientNotFound) && db.messages == old(db.messages)
    ensures old(db.Find(id)).Some? ==>
      db.messages == Filter(old(db.messages), IsNotMessageOf(id))
      && r == Ok(Deleted(DeletedText(|Filter(old(db.messages), IsMessageOf(id))|),
                         |Filter(old(db.messages), IsMessageOf(id))|))
    ensures db.patients == old(db.patients) && db.reports == old(db.reports) && db.links == old(db.links)
    ensures db.nextMessageId == old(db.nextMessageId)
  {
    var patient := db.Find(id);
    if patient.None? {
      return Err(PatientNotFound);
    }
    var all := db.messages;
    var kept, count := Partition(all, id);
    FilterKeepsIds(all, IsNotMessageOf(id), db.nextMessageId);
    db.messages := kept;
    r := Ok(Deleted(DeletedText(count), count));
  }

  /** The loop `delete()` runs: the messages of other patients, in order,
      and the number of the patient's. */
  method Partition(all: seq<ChatMessage>, id: string) returns (kept: seq<ChatMessage>, count: nat)
    ensures kept == Filter(all, IsNotMessageOf(id))
    ensures count == |Filter(all, IsMessageOf(id))|
  {
    kept, count := [], 0;
    var i := 0;
    while i < |all|
      invariant 0 <= i <= |all|
      invariant kept == Filter(all[..i], IsNotMessageOf(id))
      invariant count == |Filter(all[..i], IsMessageOf(id))|
    {
      assert all[..i + 1] == all[..i] + [all[i]];
      FilterAppend(all[..i], [all[i]], IsNotMessageOf(id));
      FilterAppend(all[..i], [all[i]], IsMessageOf(id));
      if all[i].patientId == id {
        count := count + 1;
      } else {
        kept := kept + [all[i]];
      }
      i := i + 1;
    }
    assert all[..|all|] == all;
  }

  /** A delete splits the table: the removed and the kept messages add up
      to all of them, none of the patient's is left, and every other
      patient's messages are exactly as they were. */
  lemma {:induction false} DeleteSplits(messages: seq<ChatMessage>, id: string, other: string)
    ensures |Filter(messages, IsMessageOf(id))| + |Filter(messages, IsNotMessageOf(id))| == |messages|
    ensures Filter(Filter(messages, IsNotMessageOf(id)), IsMessageOf(id)) == []
    ensures other != id ==>
      Filter(Filter(messages, IsNotMessageOf(id)), IsMessageOf(other)) == Filter(messages, IsMessageOf(other))
    decreases |messages|
  {
    if messages != [] {
      DeleteSplits(messages[1..], id, other);
    }
  }

  /** The deletion's text names the number removed. */
  lemma DeletedTextNamesCount(n: nat)
    ensures Contains(DeletedText(n), NatToString(n))
  {
    ContainsMiddle("Deleted ", NatToString(n), " messages");
  }
}
