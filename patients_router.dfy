/** The `/patients` endpoints (backend/app/routers/patients.py) over the
    in-memory tables: the searchable, paged list, one patient, creation and
    a patient's reports. Authentication (`get_current_user`) is not part of
    this model. */
module PatientsRouter {
  import opened Wrappers
  import opened Text
  import opened Seqs
  import opened Domain
  import opened Tables

  const DefaultSkip: nat := 0
  const DefaultLimit: nat := 100

  /** `ilike('%search%')` on the first name, the last name or the id. */
  predicate MatchesSearch(search: string, p: NewPatient) {
    Contains(Lower(p.firstName), Lower(search))
    || Contains(Lower(p.lastName), Lower(search))
    || Contains(Lower(p.id), Lower(search))
  }

  function Matching(search: string): NewPatient -> bool {
    (p: NewPatient) => MatchesSearch(search, p)
  }

  /** The rows `get_patients` returns: filtered when `search` is neither
      absent nor empty, then `offset(skip)`, then `limit(limit)`. */
  function PageRows(rows: seq<NewPatient>, skip: nat, limit: nat, search: Option<string>): seq<NewPatient> {
    var found := if search.Some? && search.value != "" then Filter(rows, Matching(search.value)) else rows;
    Take(Drop(found, skip), limit)
  }

  /** At most `limit` rows come back, each of them a row of the table and,
      under a search, one that matches it; they are the matching rows from
      position `skip` on, in table order. Without a search the page is a
      window of the table itself. */
  lemma PageRowsSpec(rows: seq<NewPatient>, skip: nat, limit: nat, search: Option<string>)
    ensures |PageRows(rows, skip, limit, search)| <= limit
    ensures forall p :: p in PageRows(rows, skip, limit, search) ==>
      p in rows && (search.Some? && search.value != "" ==> MatchesSearch(search.value, p))
    ensures search.None? || search.value == "" ==>
      forall i :: 0 <= i < |PageRows(rows, skip, limit, search)| ==> PageRows(rows, skip, limit, search)[i] == rows[skip + i]
    ensures search.Some? && search.value != "" ==>
      forall i :: 0 <= i < |PageRows(rows, skip, limit, search)| ==>
        PageRows(rows, skip, limit, search)[i] == Filter(rows, Matching(search.value))[skip + i]
  {
    var found := if search.Some? && search.value != "" then Filter(rows, Matching(search.value)) else rows;
    if search.Some? && search.value != "" {
      FilterMembers(rows, Matching(search.value));
    }
    var page := PageRows(rows, skip, limit, search);
    forall p | p in page
      ensures p in found
    {
      var i :| 0 <= i < |page| && page[i] == p;
      assert page[i] == Drop(found, skip)[i] == found[skip + i];
    }
  }

  /** A search matches without regard to case: the same rows come back for
      a search and for its lower-cased form. */
  lemma SearchIgnoresCase(rows: seq<NewPatient>, skip: nat, limit: nat, search: string)
    ensures PageRows(rows, skip, limit, Some(search)) == PageRows(rows, skip, limit, Some(Lower(search)))
  {
    LowerIdempotent(search);
    FilterSamePredicate(rows, Matching(search), Matching(Lower(search)));
  }

  /** `GET /patients/`: the page of patients, each with its reports and
      comorbidities; absent `skip` and `limit` are 0 and 100. */
  method GetPatients(db: Db, skip: Option<nat>, limit: Option<nat>, search: Option<string>)
    returns (page: seq<Patient>)
    ensures |page| == |PageRows(db.patients, skip.GetOr(DefaultSkip), limit.GetOr(DefaultLimit), search)|
    ensures forall i :: 0 <= i < |page| ==>
      page[i] == db.Joined(PageRows(db.patients, skip.GetOr(DefaultSkip), limit.GetOr(DefaultLimit), search)[i])
  {
    var query := db.patients;
    if search.Some? && search.value != "" {
      query := Filter(query, Matching(search.value));
    }
    var rows := Take(Drop(query, skip.GetOr(DefaultSkip)), limit.GetOr(DefaultLimit));
    page := seq(|rows|, i requires 0 <= i < |rows| reads db => db.Joined(rows[i]));
  }

  /** `GET /patients/{id}`: the patient with its relationships, or 404. */
  method GetPatient(db: Db, id: string) returns (r: Result<Patient, HttpError>)
    ensures r.Err? <==> forall k :: 0 <= k < |db.patients| ==> db.patients[k].id != id
    ensures r.Err? ==> r.error == PatientNotFound
    ensures r.Ok? ==> db.Find(id).Some? && r.value == db.Joined(db.Find(id).value) && r.value.id == id
  {
    var patient := db.Find(id);
    if patient.None? {
      return Err(PatientNotFound);
    }
    r := Ok(db.Joined(patient.value));
  }

  const DuplicateId := HttpError(400, "Patient with this ID already exists")

  /** `POST /patients/`: 400 and no change when the id is taken; otherwise
      exactly one row is added at the end and the created patient is
      returned. */
  method CreatePatient(db: Db, patient: NewPatient) returns (r: Result<Patient, HttpError>)
    requires db.Valid()
    modifies db
    ensures db.Valid()
    ensures old(db.Find(patient.id)).Some? ==> r == Err(DuplicateId) && db.patients == old(db.patients)
    ensures old(db.Find(patient.id)).None? ==>
      db.patients == old(db.patients) + [patient] && r == Ok(db.Joined(patient))
    ensures db.reports == old(db.reports) && db.links == old(db.links)
    ensures db.messages == old(db.messages) && db.nextMessageId == old(db.nextMessageId)
  {
    var existing := db.Find(patient.id);
    if existing.Some? {
      return Err(DuplicateId);
    }
    InsertKeepsUnique(db.patients, patient);
    db.patients := db.patients + [patient];
    r := Ok(db.Joined(patient));
  }

  /** After a successful creation the new patient is found under its id,
      and every other id finds what it found before. */
  lemma CreatedIsFound(rows: seq<NewPatient>, patient: NewPatient, id: string)
    requires FindRow(rows, patient.id).None?
    ensures FindRow(rows + [patient], patient.id) == Some(patient)
    ensures id != patient.id ==> FindRow(rows + [patient], id) == FindRow(rows, id)
  {
    FindAfterInsert(rows, patient, patient.id);
    FindAfterInsert(rows, patient, id);
  }

  /** `GET /patients/{id}/reports`: 404 for an unknown patient, else exactly
      the reports with that `patient_id`, in table order. */
  method GetPatientReports(db: Db, id: string) returns (r: Result<seq<Report>, HttpError>)
    ensures r.Err? <==> db.Find(id).None?
    ensures r.Err? ==> r.error == PatientNotFound
    ensures r.Ok? ==> IsSubsequence(r.value, db.reports)
    ensures r.Ok? ==> forall x :: x in r.value <==> x in db.reports && x.patientId == id
  {
    var patient := db.Find(id);
    if patient.None? {
      return Err(PatientNotFound);
    }
    r := Ok(ReportsOf(db.reports, id));
  }
}
