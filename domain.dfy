/** The entities the client and the backend exchange (the interfaces of
    src/services/api.ts, the tables of backend/app/models/database.py).
    Dates are integers (a day or an instant, ordered as the source compares
    them); a date that is null, absent or the empty string is None. */
module Domain {
  import opened Wrappers

  /** A report; `type` is a Dafny keyword, so the field is called `kind`
      ('Radiologie', 'Pathologie' or 'Arztbrief'). */
  datatype Report = Report(
    id: string,
    patientId: string,
    kind: string,
    title: string,
    date: int,
    doctor: string,
    summary: Option<string>,
    fullText: Option<string>)

  datatype Comorbidity = Comorbidity(id: int, name: string)

  /** A patient with the reports and comorbidities the backend joins in;
      `primary_condition` and `current_status` may be null (None). */
  datatype Patient = Patient(
    id: string,
    lastName: string,
    firstName: string,
    birthDate: string,
    primaryCondition: Option<string>,
    currentStatus: Option<string>,
    reports: seq<Report>,
    comorbidities: seq<Comorbidity>)

  /** `${firstName} ${lastName}`, as the pages and replies show a patient. */
  function FullName(p: Patient): string {
    p.firstName + " " + p.lastName
  }

  /** The fields a client sends to create a patient (PatientCreate). */
  datatype NewPatient = NewPatient(
    id: string,
    lastName: string,
    firstName: string,
    birthDate: string,
    primaryCondition: Option<string>,
    currentStatus: Option<string>)

  datatype Sender = FromUser | FromAi

  /** A transcript entry; `patientId` is '' for the general conversation. */
  datatype ChatMessage = ChatMessage(
    id: int,
    patientId: string,
    sender: Sender,
    message: string,
    createdAt: int)

  datatype User = User(id: int, name: string, email: string, isActive: bool)

  /** The `{ startDate, endDate }` pair of the workspace store, also the
      `date_filter` of a chat request. */
  datatype DateRange = DateRange(startDate: Option<int>, endDate: Option<int>)

  const NoRange: DateRange := DateRange(None, None)

  /** Both bounds are set: the condition under which every date filter of
      the system applies. */
  predicate Bounded(r: DateRange) {
    r.startDate.Some? && r.endDate.Some?
  }

  datatype ChatRequest = ChatRequest(message: string, patientId: string, dateFilter: Option<DateRange>)

  datatype ChatResponse = ChatResponse(response: string, messageId: int)

  datatype LoginRequest = LoginRequest(username: string, password: string)

  datatype TokenResponse = TokenResponse(accessToken: string, tokenType: string)

  /** How an async thunk settles: `fulfilled` with its payload, or `rejected`
      with `action.error.message` ('' when the error has no message). */
  datatype Settled<T> = Fulfilled(payload: T) | Rejected(message: string)
}
