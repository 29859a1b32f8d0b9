/** The backend's tables (backend/app/models/database.py) as in-memory
    sequences in insertion order: patients, reports, the patient–comorbidity
    association and chat messages, with the message id counter the
    database's autoincrement provides. */
module Tables {
  import opened Wrappers
  import opened Seqs
  import opened Domain

  /** `HTTPException(status_code=…, detail=…)`. */
  datatype HttpError = HttpError(status: int, detail: string)

  const PatientNotFound := HttpError(404, "Patient not found")

  /** A row of `patient_comorbidity`. */
  datatype Link = Link(patientId: string, comorbidity: Comorbidity)

  /** No two patient rows share an id (the primary key). */
  predicate UniqueIds(rows: seq<NewPatient>) {
    forall i, j :: 0 <= i < j < |rows| ==> rows[i].id != rows[j].id
  }

  /** `filter(Patient.id == id).first()`. */
  function FindRow(rows: seq<NewPatient>, id: string): (r: Option<NewPatient>)
    ensures r.None? <==> forall k :: 0 <= k < |rows| ==> rows[k].id != id
    ensures r.Some? ==> r.value in rows && r.value.id == id
    decreases |rows|
  {
    if rows == [] then None
    else if rows[0].id == id then Some(rows[0])
    else
      var r := FindRow(rows[1..], id);
      assert forall k :: 1 <= k < |rows| ==> rows[k] == rows[1..][k - 1];
      r
  }

  /** A row added under a new id is found under it, and every other id
      finds what it found before. */
  lemma {:induction false} FindAfterInsert(rows: seq<NewPatient>, p: NewPatient, id: string)
    requires FindRow(rows, p.id).None?
    ensures FindRow(rows + [p], id) == if id == p.id then Some(p) else FindRow(rows, id)
    decreases |rows|
  {
    if rows == [] {
      assert rows + [p] == [p];
    } else {
      assert (rows + [p])[0] == rows[0];
      assert (rows + [p])[1..] == rows[1..] + [p];
      FindAfterInsert(rows[1..], p, id);
    }
  }

  /** With a new id the primary key stays unique. */
  lemma InsertKeepsUnique(rows: seq<NewPatient>, p: NewPatient)
    requires UniqueIds(rows) && FindRow(rows, p.id).None?
    ensures UniqueIds(rows + [p])
  {
    var r := rows + [p];
    forall i, j | 0 <= i < j < |r| ensures r[i].id != r[j].id {
      assert r[i] == rows[i];
      if j < |rows| {
        assert r[j] == rows[j];
      }
    }
  }

  function IsReportOf(id: string): Report -> bool {
    (r: Report) => r.patientId == id
  }

  /** The `reports` relationship of patient `id`, in table order. */
  function ReportsOf(reports: seq<Report>, id: string): (r: seq<Report>)
    ensures forall x :: x in r <==> x in reports && x.patientId == id
    ensures IsSubsequence(r, reports)
  {
    FilterMembers(reports, IsReportOf(id));
    FilterIsSubsequence(reports, IsReportOf(id));
    Filter(reports, IsReportOf(id))
  }

  /** The `comorbidities` relationship of patient `id`, in association order. */
  function ComorbiditiesOf(links: seq<Link>, id: string): (r: seq<Comorbidity>)
    ensures forall c :: c in r <==> Link(id, c) in links
    decreases |links|
  {
    if links == [] then []
    else
      var rest := ComorbiditiesOf(links[1..], id);
      assert links == [links[0]] + links[1..];
      if links[0].patientId == id then [links[0].comorbidity] + rest else rest
  }

  /** The patient with its `joinedload`ed reports and comorbidities. */
  function Join(row: NewPatient, reports: seq<Report>, links: seq<Link>): (p: Patient)
    ensures p.id == row.id && p.firstName == row.firstName && p.lastName == row.lastName
    ensures p.birthDate == row.birthDate
    ensures p.primaryCondition == row.primaryCondition && p.currentStatus == row.currentStatus
    ensures forall r :: r in p.reports <==> r in reports && r.patientId == row.id
    ensures forall c :: c in p.comorbidities <==> Link(row.id, c) in links
  {
    Patient(row.id, row.lastName, row.firstName, row.birthDate, row.primaryCondition, row.currentStatus,
            ReportsOf(reports, row.id), ComorbiditiesOf(links, row.id))
  }

  /** Message ids grow along the table (every insert takes the next value
      of the autoincrement counter) and stay below the counter. */
  predicate IdsBelow(messages: seq<ChatMessage>, next: int) {
    (forall i, j :: 0 <= i < j < |messages| ==> messages[i].id < messages[j].id)
    && forall i :: 0 <= i < |messages| ==> messages[i].id < next
  }

  /** A row with a smaller id than all of a valid table, and below the
      counter, can go in front of it. */
  lemma ConsKeepsIds(m: ChatMessage, rest: seq<ChatMessage>, next: int)
    requires IdsBelow(rest, next) && m.id < next
    requires forall k :: 0 <= k < |rest| ==> m.id < rest[k].id
    ensures IdsBelow([m] + rest, next)
  {
    var r := [m] + rest;
    forall i, j | 0 <= i < j < |r| ensures r[i].id < r[j].id {
      assert r[j] == rest[j - 1];
      if i > 0 {
        assert r[i] == rest[i - 1];
      }
    }
  }

  /** Deleting rows keeps the ids of the rest increasing and below the
      counter, so ids are never reused. */
  lemma {:induction false} FilterKeepsIds(messages: seq<ChatMessage>, keep: ChatMessage -> bool, next: int)
    requires IdsBelow(messages, next)
    ensures IdsBelow(Filter(messages, keep), next)
    decreases |messages|
  {
    if messages != [] {
      var tail := messages[1..];
      assert forall i :: 0 <= i < |tail| ==> tail[i] == messages[i + 1];
      FilterKeepsIds(tail, keep, next);
      if keep(messages[0]) {
        var rest := Filter(tail, keep);
        FilterMembers(tail, keep);
        forall k | 0 <= k < |rest| ensures messages[0].id < rest[k].id {
          assert rest[k] in tail;
          var m :| 0 <= m < |tail| && tail[m] == rest[k];
        }
        ConsKeepsIds(messages[0], rest, next);
      }
    }
  }

  /** An insertion under the counter's value, with the counter moved on. */
  lemma AppendKeepsIds(messages: seq<ChatMessage>, m: ChatMessage, next: int)
    requires IdsBelow(messages, next) && m.id == next
    ensures IdsBelow(messages + [m], next + 1)
  {
  }

  class Db {
    var patients: seq<NewPatient>
    var reports: seq<Report>
    var links: seq<Link>
    var messages: seq<ChatMessage>
    /** The id the next chat message receives. */
    var nextMessageId: int

    ghost predicate Valid()
      reads this
    {
      UniqueIds(patients) && IdsBelow(messages, nextMessageId)
    }

    /** An empty database. */
    constructor ()
      ensures Valid()
      ensures patients == [] && reports == [] && links == [] && messages == []
    {
      patients, reports, links, messages := [], [], [], [];
      nextMessageId := 1;
    }

    function Find(id: string): Option<NewPatient>
      reads this
    {
      FindRow(patients, id)
    }

    function Joined(row: NewPatient): Patient
      reads this
    {
      Join(row, reports, links)
    }
  }
}
