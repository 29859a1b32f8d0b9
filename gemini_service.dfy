/** The answer service of the backend (backend/app/services/gemini_service.py):
    the keyword routing of general questions, the patient list it answers
    from the patients table, and the patient context it sends to the model
    with a question about one patient. The model is the parameter `llm`,
    which either returns a text or raises (`Err` with the exception's text);
    `dateText` renders a date as the database stores it. */
module GeminiService {
  import opened Wrappers
  import opened Text
  import opened Seqs
  import opened Domain

  /** `x or 'default'` for a nullable text column: None and '' are falsy. */
  function PyOr(o: Option<string>, fallback: string): (r: string)
    ensures o.Some? && o.value != "" ==> r == o.value
    ensures o.None? || o.value == "" ==> r == fallback
  {
    if o.None? then fallback else OrElse(o.value, fallback)
  }

  /** `f"{x}"` of a nullable text column: None prints as 'None'. */
  function PyText(o: Option<string>): string {
    if o.None? then "None" else o.value
  }

  // ---------------------------------------------------------------------
  // Routing of `get_general_query`

  const ListKeywords: seq<string> := ["liste", "patients", "heute", "chirurgie", "onkologie", "kardiologie"]
  const StatisticsKeywords: seq<string> := ["statistik", "anzahl", "zusammenfassung"]

  /** `any(keyword in text for keyword in keywords)`, tried in order. */
  function AnyIn(text: string, keywords: seq<string>): bool
    decreases |keywords|
  {
    if keywords == [] then false
    else Contains(text, keywords[0]) || AnyIn(text, keywords[1..])
  }

  lemma {:induction false} AnyInIff(text: string, keywords: seq<string>)
    ensures AnyIn(text, keywords) <==> exists k :: 0 <= k < |keywords| && Contains(text, keywords[k])
    decreases |keywords|
  {
    if keywords != [] {
      AnyInIff(text, keywords[1..]);
      if AnyIn(text, keywords[1..]) {
        var k :| 0 <= k < |keywords[1..]| && Contains(text, keywords[1..][k]);
        assert keywords[k + 1] == keywords[1..][k];
      }
      forall k | 1 <= k < |keywords| && Contains(text, keywords[k])
        ensures AnyIn(text, keywords[1..])
      {
        assert keywords[1..][k - 1] == keywords[k];
      }
    }
  }

  datatype Handler = PatientList | Statistics | GeneralMedical

  /** The handler `get_general_query` calls for a question. */
  function Route(question: string): Handler {
    if AnyIn(Lower(question), ListKeywords) then PatientList
    else if AnyIn(Lower(question), StatisticsKeywords) then Statistics
    else GeneralMedical
  }

  /** A list keyword anywhere in the lower-cased question sends it to the
      list handler, even with a statistics keyword beside it; the
      statistics handler gets the questions with a statistics keyword and no
      list keyword; every other question goes to the model. */
  lemma RouteCases(question: string)
    ensures Route(question) == PatientList <==>
      exists k :: 0 <= k < |ListKeywords| && Contains(Lower(question), ListKeywords[k])
    ensures Route(question) == Statistics <==>
      (forall k :: 0 <= k < |ListKeywords| ==> !Contains(Lower(question), ListKeywords[k]))
      && exists k :: 0 <= k < |StatisticsKeywords| && Contains(Lower(question), StatisticsKeywords[k])
    ensures Route(question) == GeneralMedical <==>
      (forall k :: 0 <= k < |ListKeywords| ==> !Contains(Lower(question), ListKeywords[k]))
      && (forall k :: 0 <= k < |StatisticsKeywords| ==> !Contains(Lower(question), StatisticsKeywords[k]))
  {
    AnyInIff(Lower(question), ListKeywords);
    AnyInIff(Lower(question), StatisticsKeywords);
  }

  /** A string lacking one of the characters of `sub` does not contain it. */
  lemma {:induction false} MissingCharNotContained(s: string, sub: string, c: char)
    requires c in sub && c !in s
    ensures !Contains(s, sub)
    decreases |s|
  {
    if |s| > 0 {
      MissingCharNotContained(s[1..], sub, c);
    }
  }

  /** Every list keyword has an "l", an "s" or a "u". */
  lemma NoListKeyword(text: string)
    requires 'l' !in text && 's' !in text && 'u' !in text
    ensures !AnyIn(text, ListKeywords)
  {
    MissingCharNotContained(text, "liste", 'l');
    MissingCharNotContained(text, "patients", 's');
    MissingCharNotContained(text, "heute", 'u');
    MissingCharNotContained(text, "chirurgie", 'u');
    MissingCharNotContained(text, "onkologie", 'l');
    MissingCharNotContained(text, "kardiologie", 'l');
    AnyInIff(text, ListKeywords);
  }

  /** Every statistics keyword has an "l" or an "s". */
  lemma NoStatisticsKeyword(text: string)
    requires 'l' !in text && 's' !in text
    ensures !AnyIn(text, StatisticsKeywords)
  {
    MissingCharNotContained(text, "statistik", 's');
    MissingCharNotContained(text, "anzahl", 'l');
    MissingCharNotContained(text, "zusammenfassung", 's');
    AnyInIff(text, StatisticsKeywords);
  }

  /** So a question without any of these letters, in either case, goes to
      the model. */
  lemma WithoutRoutingLettersGoesToModel(question: string)
    requires forall i :: 0 <= i < |question| ==>
      LowerChar(question[i]) != 'l' && LowerChar(question[i]) != 's' && LowerChar(question[i]) != 'u'
    ensures Route(question) == GeneralMedical
  {
    var lq := Lower(question);
    assert 'l' !in lq && 's' !in lq && 'u' !in lq;
    NoListKeyword(lq);
    NoStatisticsKeyword(lq);
  }

  /** The German "Patienten" does not contain the keyword "patients", so a
      request for the patients of orthopaedics, worded in the interface's
      language and without "liste" or "heute", is sent to the model and not
      answered from the table. */
  lemma OrthopaedicsPatientsQuestionGoesToModel()
    ensures Route("Zeige Patienten der " + "Orthopädie") == GeneralMedical
  {
    WithoutRoutingLettersGoesToModel("Zeige Patienten der " + "Orthopädie");
  }

  // ---------------------------------------------------------------------
  // Texts made of one piece per element

  /** `f(first, xs[0]) + f(first + 1, xs[1]) + …`: the pieces of an
      `enumerate(xs, first)` loop. */
  function Numbered<T>(xs: seq<T>, first: nat, f: (nat, T) -> string): string
    decreases |xs|
  {
    if xs == [] then "" else Numbered(xs[..|xs| - 1], first, f) + f(first + |xs| - 1, xs[|xs| - 1])
  }

  /** The pieces of two runs are those of the first followed by those of
      the second, numbered on from where the first stopped. */
  lemma {:induction false} NumberedAppend<T>(a: seq<T>, b: seq<T>, first: nat, f: (nat, T) -> string)
    ensures Numbered(a + b, first, f) == Numbered(a, first, f) + Numbered(b, first + |a|, f)
    decreases |b|
  {
    if b == [] {
      assert a + b == a;
    } else {
      NumberedAppend(a, b[..|b| - 1], first, f);
      assert (a + b)[..|a + b| - 1] == a + b[..|b| - 1];
      assert (a + b)[|a + b| - 1] == b[|b| - 1];
    }
  }

  /** Element i has its piece, numbered first + i, between those of the
      elements before and after it. */
  lemma {:induction false} NumberedAt<T>(xs: seq<T>, first: nat, f: (nat, T) -> string, i: nat)
    requires i < |xs|
    ensures Numbered(xs, first, f) ==
      Numbered(xs[..i], first, f) + f(first + i, xs[i]) + Numbered(xs[i + 1..], first + i + 1, f)
    ensures Contains(Numbered(xs, first, f), f(first + i, xs[i]))
  {
    var a, x, b := xs[..i], xs[i], xs[i + 1..];
    assert xs == a + [x] + b;
    NumberedAppend(a + [x], b, first, f);
    assert Numbered(a + [x], first, f) == Numbered(a, first, f) + f(first + i, x) by {
      assert (a + [x])[..|a + [x]| - 1] == a;
    }
    ContainsMiddle(Numbered(a, first, f), f(first + i, x), Numbered(b, first + i + 1, f));
  }

  /** Appends one numbered piece per element, as an `enumerate` loop does. */
  method AppendNumbered<T>(text: string, xs: seq<T>, first: nat, f: (nat, T) -> string) returns (r: string)
    ensures r == text + Numbered(xs, first, f)
  {
    r := text;
    var i := 0;
    while i < |xs|
      invariant 0 <= i <= |xs|
      invariant r == text + Numbered(xs[..i], first, f)
    {
      assert xs[..i + 1][..i] == xs[..i];
      r := r + f(first + i, xs[i]);
      i := i + 1;
    }
    assert xs[..|xs|] == xs;
  }

  /** `f(xs[0]) + f(xs[1]) + …`: the pieces of a plain `for` loop. */
  function Pieces<T>(xs: seq<T>, f: T -> string): string
    decreases |xs|
  {
    if xs == [] then "" else Pieces(xs[..|xs| - 1], f) + f(xs[|xs| - 1])
  }

  lemma {:induction false} PiecesAppend<T>(a: seq<T>, b: seq<T>, f: T -> string)
    ensures Pieces(a + b, f) == Pieces(a, f) + Pieces(b, f)
    decreases |b|
  {
    if b == [] {
      assert a + b == a;
    } else {
      PiecesAppend(a, b[..|b| - 1], f);
      assert (a + b)[..|a + b| - 1] == a + b[..|b| - 1];
      assert (a + b)[|a + b| - 1] == b[|b| - 1];
    }
  }

  /** Each element has its piece, after those of the elements before it. */
  lemma {:induction false} PiecesAt<T>(xs: seq<T>, f: T -> string, i: nat)
    requires i < |xs|
    ensures Pieces(xs, f) == Pieces(xs[..i], f) + f(xs[i]) + Pieces(xs[i + 1..], f)
    ensures Contains(Pieces(xs, f), f(xs[i]))
  {
    var a, x, b := xs[..i], xs[i], xs[i + 1..];
    assert xs == a + [x] + b;
    PiecesAppend(a + [x], b, f);
    assert Pieces(a + [x], f) == Pieces(a, f) + f(x) by {
      assert (a + [x])[..|a + [x]| - 1] == a;
    }
    ContainsMiddle(Pieces(a, f), f(x), Pieces(b, f));
  }


  // ---------------------------------------------------------------------
  // `_handle_patient_list_query`

  const DepartmentKeywords: seq<string> := ["chirurgie", "onkologie", "kardiologie", "orthopädie"]
  const Departments: seq<string> := ["Chirurgie", "Onkologie", "Kardiologie", "Orthopädie"]
  const ListLimit := 10

  /** The department the question names: the first of surgery, oncology,
      cardiology and orthopaedics whose lower-case name occurs in the
      lower-cased question. */
  function Department(question: string): Option<string> {
    var lq := Lower(question);
    if Contains(lq, "chirurgie") then Some("Chirurgie")
    else if Contains(lq, "onkologie") then Some("Onkologie")
    else if Contains(lq, "kardiologie") then Some("Kardiologie")
    else if Contains(lq, "orthopädie") then Some("Orthopädie")
    else None
  }

  /** No department is named exactly when none of the four keywords occurs;
      a named department is the first one in the fixed order whose keyword
      occurs, earlier keywords being absent. */
  lemma DepartmentFirstMatch(question: string)
    ensures Department(question).None? <==>
      forall k :: 0 <= k < |DepartmentKeywords| ==> !Contains(Lower(question), DepartmentKeywords[k])
    ensures Department(question).Some? ==>
      exists k :: 0 <= k < |DepartmentKeywords| && Department(question).value == Departments[k]
        && Contains(Lower(question), DepartmentKeywords[k])
        && forall j :: 0 <= j < k ==> !Contains(Lower(question), DepartmentKeywords[j])
  {
    var lq := Lower(question);
    if Contains(lq, "chirurgie") {
      assert Departments[0] == "Chirurgie" && DepartmentKeywords[0] == "chirurgie";
    } else if Contains(lq, "onkologie") {
      assert Departments[1] == "Onkologie" && DepartmentKeywords[1] == "onkologie";
    } else if Contains(lq, "kardiologie") {
      assert Departments[2] == "Kardiologie" && DepartmentKeywords[2] == "kardiologie";
    } else if Contains(lq, "orthopädie") {
      assert Departments[3] == "Orthopädie" && DepartmentKeywords[3] == "orthopädie";
    }
  }

  /** `Patient.primary_condition.contains(department)`; a null condition
      never matches. */
  function ConditionMentions(department: string): NewPatient -> bool {
    (p: NewPatient) => p.primaryCondition.Some? && Contains(p.primaryCondition.value, department)
  }

  /** The rows the list query reads: those of the named department (all
      rows when none is named), at most ten, in table order. */
  function ListedPatients(question: string, rows: seq<NewPatient>): seq<NewPatient> {
    var d := Department(question);
    Take(if d.Some? then Filter(rows, ConditionMentions(d.value)) else rows, ListLimit)
  }

  lemma {:induction false} TakeIsSubsequence<T>(s: seq<T>, n: nat)
    ensures IsSubsequence(Take(s, n), s)
    decreases |s|
  {
    if n < |s| && s != [] {
      if n == 0 {
        assert Take(s, n) == [];
      } else {
        TakeIsSubsequence(s[1..], n - 1);
        assert Take(s, n)[1..] == Take(s[1..], n - 1);
      }
    } else {
      assert Take(s, n) == s;
      SubsequenceRefl(s);
    }
  }

  lemma {:induction false} SubsequenceRefl<T>(s: seq<T>)
    ensures IsSubsequence(s, s)
    decreases |s|
  {
    if s != [] {
      SubsequenceRefl(s[1..]);
    }
  }

  lemma {:induction false} SubsequenceTrans<T>(a: seq<T>, b: seq<T>, c: seq<T>)
    requires IsSubsequence(a, b) && IsSubsequence(b, c)
    ensures IsSubsequence(a, c)
    decreases |c|
  {
    if a != [] && c != [] {
      if b[0] == c[0] {
        if a[0] == b[0] {
          SubsequenceTrans(a[1..], b[1..], c[1..]);
        } else {
          SubsequenceTrans(a, b[1..], c[1..]);
          SubsequenceSkip(a, c);
        }
      } else {
        SubsequenceTrans(a, b, c[1..]);
        SubsequenceSkip(a, c);
      }
    }
  }

  /** At most ten rows are listed, in table order, and with a named
      department each listed row has it in its primary condition. */
  lemma ListedPatientsSpec(question: string, rows: seq<NewPatient>)
    ensures |ListedPatients(question, rows)| <= ListLimit
    ensures IsSubsequence(ListedPatients(question, rows), rows)
    ensures Department(question).Some? ==>
      forall p :: p in ListedPatients(question, rows) ==>
        p.primaryCondition.Some? && Contains(p.primaryCondition.value, Department(question).value)
    ensures Department(question).None? ==> ListedPatients(question, rows) == Take(rows, ListLimit)
  {
    var d := Department(question);
    if d.Some? {
      var kept := Filter(rows, ConditionMentions(d.value));
      FilterMembers(rows, ConditionMentions(d.value));
      FilterIsSubsequence(rows, ConditionMentions(d.value));
      TakeIsSubsequence(kept, ListLimit);
      SubsequenceTrans(Take(kept, ListLimit), kept, rows);
      forall p | p in Take(kept, ListLimit) ensures p in kept {
        var i :| 0 <= i < |Take(kept, ListLimit)| && Take(kept, ListLimit)[i] == p;
        assert kept[i] == p;
      }
    } else {
      TakeIsSubsequence(rows, ListLimit);
    }
  }

  const NoPatientsAnswer := ("**Keine Patienten " + "gefunden**\n\n*Aktuell " + "sind keine Patienten " + "in der Datenbank " + "registriert.*")

  /** The header line: the number of patients listed. */
  function ListHeader(n: nat): string {
    "**Patientenliste** *(" + NatToString(n) + " Patienten)*\n\n"
  }

  /** The five lines of the patient numbered `number`. */
  function Entry(number: nat, p: NewPatient): string {
    "**" + NatToString(number) + ". " + p.firstName + " " + p.lastName + "**\n"
    + "• *ID:* " + p.id + "\n"
    + "• *Diagnose:* " + PyText(p.primaryCondition) + "\n"
    + "• *Status:* " + PyText(p.currentStatus) + "\n"
    + "• *Geboren:* " + p.birthDate + "\n\n"
  }

  /** The entries of `ps` numbered from `first` on, one after the other. */
  function Entries(ps: seq<NewPatient>, first: nat): string {
    Numbered(ps, first, Entry)
  }

  /** `response` of the list query for a non-empty list. */
  function ListText(ps: seq<NewPatient>): string {
    ListHeader(|ps|) + Entries(ps, 1)
  }

  /** The list names how many patients it holds, and the patient at
      position i (from 0) appears in it as entry number i + 1, after the
      entries of the patients before it and before those after it. */
  lemma ListTextNumbered(ps: seq<NewPatient>, i: nat)
    requires i < |ps|
    ensures Contains(ListText(ps), NatToString(|ps|))
    ensures Entries(ps, 1) == Entries(ps[..i], 1) + Entry(i + 1, ps[i]) + Entries(ps[i + 1..], i + 2)
    ensures Contains(ListText(ps), Entry(i + 1, ps[i]))
  {
    ContainsMiddle("**Patientenliste** *(", NatToString(|ps|), " Patienten)*\n\n");
    ContainsBefore(ListHeader(|ps|), NatToString(|ps|), Entries(ps, 1));
    NumberedAt(ps, 1, Entry, i);
    ContainsAfter(ListHeader(|ps|), Entry(i + 1, ps[i]), Entries(ps, 1));
  }

  /** The loop of the list query: the header, then one entry per patient,
      numbered from 1. */
  method ListResponse(ps: seq<NewPatient>) returns (response: string)
    ensures response == ListText(ps)
  {
    response := AppendNumbered(ListHeader(|ps|), ps, 1, Entry);
  }

  /** The list handler's answer: the fixed text without patients, else the
      numbered list. */
  function PatientListAnswer(question: string, rows: seq<NewPatient>): string {
    var ps := ListedPatients(question, rows);
    if ps == [] then NoPatientsAnswer else ListText(ps)
  }

  method HandlePatientListQuery(question: string, rows: seq<NewPatient>) returns (response: string)
    ensures response == PatientListAnswer(question, rows)
  {
    var patients := ListedPatients(question, rows);
    if patients == [] {
      return NoPatientsAnswer;
    }
    response := ListResponse(patients);
  }

  // ---------------------------------------------------------------------
  // The model calls

  const GeneralPromptHead := ("\n        Du bist ein " + "medizinischer " + "Assistent. Beantworte " + "die folgende " + "allgemeine " + "medizinische Frage " + "präzise und " + "professionell.\n\n" + "        FRAGE: ")
  const GeneralPromptTail := ("\n\n        " + "ANTWORTSTIL:\n        " + "- Verwende Markdown " + "für Formatierung: " + "**Fett**, *Kursiv*\n" + "        - Kurze, " + "präzise Antworten\n" + "        - Verwende " + "Stichpunkte für " + "strukturierte " + "Informationen\n" + ("        - " + "Medizinische ") + "Fachbegriffe korrekt " + "verwenden\n        ")

  function GeneralPrompt(question: string): (prompt: string)
    ensures Contains(prompt, question)
  {
    ContainsMiddle(GeneralPromptHead, question, GeneralPromptTail);
    GeneralPromptHead + question + GeneralPromptTail
  }

  /** `_handle_general_medical_query`: the model's text, or the error
      heading with the exception's text. */
  function GeneralMedicalAnswer(question: string, llm: string -> Result<string, string>): (answer: string)
    ensures llm(GeneralPrompt(question)).Ok? ==> answer == llm(GeneralPrompt(question)).value
    ensures llm(GeneralPrompt(question)).Err? ==>
      answer == ProcessingError + llm(GeneralPrompt(question)).error + "*"
    ensures llm(GeneralPrompt(question)).Err? ==>
      StartsWith(answer, ProcessingError) && Contains(answer, llm(GeneralPrompt(question)).error)
  {
    match llm(GeneralPrompt(question))
    case Ok(text) => text
    case Err(e) =>
      ContainsMiddle(ProcessingError, e, "*");
      ProcessingError + e + "*"
  }

  /** The heading of the general answer when the model fails, up to the
      opening `*` of the italic error text. */
  const ProcessingError := "**Fehler bei der " + "Verarbeitung**\n\n*"

  /** `get_general_query`; `statistics` is the answer of the aggregate query
      over the same table. */
  function GeneralAnswer(question: string, rows: seq<NewPatient>, statistics: string,
                         llm: string -> Result<string, string>): string {
    match Route(question)
    case PatientList => PatientListAnswer(question, rows)
    case Statistics => statistics
    case GeneralMedical => GeneralMedicalAnswer(question, llm)
  }

  /** List and statistics questions are answered from the database alone:
      the model's behaviour does not change their answer. */
  lemma TableAnswersIgnoreModel(question: string, rows: seq<NewPatient>, statistics: string,
                                llm1: string -> Result<string, string>, llm2: string -> Result<string, string>)
    requires Route(question) != GeneralMedical
    ensures GeneralAnswer(question, rows, statistics, llm1) == GeneralAnswer(question, rows, statistics, llm2)
    ensures Route(question) == PatientList ==> GeneralAnswer(question, rows, statistics, llm1) == PatientListAnswer(question, rows)
  {
  }

  method GetGeneralQuery(question: string, rows: seq<NewPatient>, statistics: string,
                         llm: string -> Result<string, string>) returns (answer: string)
    ensures answer == GeneralAnswer(question, rows, statistics, llm)
  {
    match Route(question)
    case PatientList =>
      answer := HandlePatientListQuery(question, rows);
    case Statistics =>
      answer := statistics;
    case GeneralMedical =>
      answer := GeneralMedicalAnswer(question, llm);
  }

  // ---------------------------------------------------------------------
  // `_build_patient_context`

  const Indent := "\n        "

  /** The patient's lines, up to the comorbidity heading. */
  function ContextHead(p: Patient): string {
    Indent + "Patient: " + p.firstName + " " + p.lastName
    + Indent + "Geburtsdatum: " + p.birthDate
    + Indent + "Hauptdiagnose: " + PyOr(p.primaryCondition, "Nicht angegeben")
    + Indent + "Aktueller Status: " + PyOr(p.currentStatus, "Nicht angegeben")
    + Indent + Indent + "Komorbiditäten:" + Indent
  }

  const NoComorbidities := ("Keine Komorbiditäten " + "dokumentiert\n")
  const ReportsHeading := ("\nMedizinische " + "Berichte:\n")
  const NoReports := ("Keine medizinischen " + "Berichte verfügbar\n")

  function ComorbidityLine(c: Comorbidity): string {
    "- " + c.name + "\n"
  }

  /** The comorbidity part: one `- name` line per comorbidity, in order, or
      the fixed text when there is none. */
  function ComorbiditySection(cs: seq<Comorbidity>): string {
    if cs == [] then NoComorbidities else Pieces(cs, ComorbidityLine)
  }

  /** Every comorbidity is listed, in the order of the association. */
  lemma ComorbiditiesListed(cs: seq<Comorbidity>, i: nat)
    requires i < |cs|
    ensures ComorbiditySection(cs) == Pieces(cs[..i], ComorbidityLine) + ComorbidityLine(cs[i]) + Pieces(cs[i + 1..], ComorbidityLine)
    ensures Contains(ComorbiditySection(cs), ComorbidityLine(cs[i]))
  {
    PiecesAt(cs, ComorbidityLine, i);
  }

  /** `date_filter and date_filter.get('startDate') and date_filter.get('endDate')`. */
  predicate Filtering(dateFilter: Option<DateRange>) {
    dateFilter.Some? && Bounded(dateFilter.value)
  }

  /** The comprehension's test, inclusive at both ends. */
  function InPeriod(range: DateRange): Report -> bool {
    (r: Report) => Bounded(range) && range.startDate.value <= r.date <= range.endDate.value
  }

  /** The reports the context describes. */
  function ReportsUsed(reports: seq<Report>, dateFilter: Option<DateRange>): seq<Report> {
    if Filtering(dateFilter) then Filter(reports, InPeriod(dateFilter.value)) else reports
  }

  /** The date filter keeps the reports in their order, and a report is
      described exactly when it lies in the period, if there is one. */
  lemma ReportsUsedSpec(reports: seq<Report>, dateFilter: Option<DateRange>)
    ensures IsSubsequence(ReportsUsed(reports, dateFilter), reports)
    ensures forall r :: r in ReportsUsed(reports, dateFilter) <==>
      r in reports
      && (Filtering(dateFilter) ==> dateFilter.value.startDate.value <= r.date <= dateFilter.value.endDate.value)
  {
    if Filtering(dateFilter) {
      FilterMembers(reports, InPeriod(dateFilter.value));
      FilterIsSubsequence(reports, InPeriod(dateFilter.value));
    } else {
      SubsequenceRefl(reports);
    }
  }

  /** The `(Zeitraum: … bis …)` line when filtering, else nothing. */
  function PeriodLine(dateFilter: Option<DateRange>, dateText: int -> string): string {
    if Filtering(dateFilter) then
      "(Zeitraum: " + dateText(dateFilter.value.startDate.value) + " bis " + dateText(dateFilter.value.endDate.value) + ")\n"
    else ""
  }

  function ReportBlock(dateText: int -> string): Report -> string {
    (r: Report) =>
      "\n[" + r.kind + "] " + r.title
      + "\nDatum: " + dateText(r.date)
      + "\nArzt: " + r.doctor
      + "\nZusammenfassung: " + PyOr(r.summary, "Keine Zusammenfassung")
      + "\nVolltext: " + PyOr(r.fullText, ("Kein Volltext " + "verfügbar"))
      + "\n---\n"
  }

  /** The part after the reports heading: the fixed text without reports,
      else the period line and one block per report kept. */
  function ReportsBody(reports: seq<Report>, dateFilter: Option<DateRange>, dateText: int -> string): string {
    if reports == [] then NoReports
    else PeriodLine(dateFilter, dateText) + Pieces(ReportsUsed(reports, dateFilter), ReportBlock(dateText))
  }

  function PatientContext(p: Patient, dateFilter: Option<DateRange>, dateText: int -> string): string {
    ContextHead(p) + ComorbiditySection(p.comorbidities) + ReportsHeading + ReportsBody(p.reports, dateFilter, dateText)
  }

  /** Without reports the context says so, whatever the date filter. */
  lemma ContextWithoutReports(p: Patient, f1: Option<DateRange>, f2: Option<DateRange>, dateText: int -> string)
    requires p.reports == []
    ensures PatientContext(p, f1, dateText) == PatientContext(p, f2, dateText)
    ensures Contains(PatientContext(p, f1, dateText), NoReports)
  {
    ContainsSelf(NoReports);
    ContainsAfter(ContextHead(p) + ComorbiditySection(p.comorbidities) + ReportsHeading, NoReports, NoReports);
  }

  /** With reports and a period, the context states the period. */
  lemma ContextShowsPeriod(p: Patient, dateFilter: Option<DateRange>, dateText: int -> string)
    requires p.reports != [] && Filtering(dateFilter)
    ensures Contains(PatientContext(p, dateFilter, dateText), PeriodLine(dateFilter, dateText))
  {
    var line := PeriodLine(dateFilter, dateText);
    var blocks := Pieces(ReportsUsed(p.reports, dateFilter), ReportBlock(dateText));
    ContainsMiddle("", line, blocks);
    assert "" + line + blocks == ReportsBody(p.reports, dateFilter, dateText);
    ContainsAfter(ContextHead(p) + ComorbiditySection(p.comorbidities) + ReportsHeading, line, ReportsBody(p.reports, dateFilter, dateText));
  }

  /** Every report kept has its block in the context. */
  lemma ContextDescribesReport(p: Patient, dateFilter: Option<DateRange>, dateText: int -> string, i: nat)
    requires i < |ReportsUsed(p.reports, dateFilter)|
    ensures Contains(PatientContext(p, dateFilter, dateText), ReportBlock(dateText)(ReportsUsed(p.reports, dateFilter)[i]))
  {
    var used := ReportsUsed(p.reports, dateFilter);
    assert p.reports != [];
    PiecesAt(used, ReportBlock(dateText), i);
    ContainsAfter(PeriodLine(dateFilter, dateText), ReportBlock(dateText)(used[i]), Pieces(used, ReportBlock(dateText)));
    ContainsAfter(ContextHead(p) + ComorbiditySection(p.comorbidities) + ReportsHeading,
      ReportBlock(dateText)(used[i]), ReportsBody(p.reports, dateFilter, dateText));
  }

  /** Appends one piece per element, as the loops over comorbidities and
      reports do. */
  method AppendPieces<T>(text: string, xs: seq<T>, f: T -> string) returns (r: string)
    ensures r == text + Pieces(xs, f)
  {
    r := text;
    var i := 0;
    while i < |xs|
      invariant 0 <= i <= |xs|
      invariant r == text + Pieces(xs[..i], f)
    {
      assert xs[..i + 1][..i] == xs[..i];
      r := r + f(xs[i]);
      i := i + 1;
    }
    assert xs[..|xs|] == xs;
  }

  /** `_build_patient_context(patient, date_filter)`. */
  method BuildPatientContext(patient: Patient, dateFilter: Option<DateRange>, dateText: int -> string)
    returns (context: string)
    ensures context == PatientContext(patient, dateFilter, dateText)
  {
    context := ContextHead(patient);
    if patient.comorbidities != [] {
      context := AppendPieces(context, patient.comorbidities, ComorbidityLine);
    } else {
      context := context + NoComorbidities;
    }
    context := context + ReportsHeading;
    if patient.reports != [] {
      var filtered := patient.reports;
      if Filtering(dateFilter) {
        filtered := Filter(patient.reports, InPeriod(dateFilter.value));
      }
      var body := AppendPieces(PeriodLine(dateFilter, dateText), filtered, ReportBlock(dateText));
      context := context + body;
    } else {
      context := context + NoReports;
    }
  }

  const AnalysisPromptHead := ("\n        Du bist ein " + "medizinischer " + "Assistent. Analysiere " + "die Patientendaten " + "und beantworte die " + "Frage direkt.\n\n" + "        " + "PATIENTENDATEN:\n" + "        ")
  const AnalysisPromptTail := ("\n\n        " + "ANTWORT-REGELN:\n" + "        - Direkte, " + "präzise Antworten " + "ohne Einleitung\n" + "        - Verwende " + "nummerierte Listen " + "(1., 2., 3.) oder " + "einfache Absätze\n" + "        - Jede " + "Information auf einer " + "neuen Zeile\n" + ("        - " + "Formatierung: ") + "**Fett** für wichtige " + "Begriffe, *kursiv* " + "für Details\n" + ("        - Bei " + "fehlenden ") + "Daten: \"Keine Angaben " + "verfügbar\"\n" + "        - Antwort in " + "deutscher Sprache\n\n" + "        " + "BEISPIEL-FORMAT:\n" + ("        1. " + "**Befund:** ") + "Details der " + "Untersuchung\n" + "        2. " + "**Diagnose:** " + "Medizinische " + "Bewertung  \n" + "        3. " + "**Empfehlung:** " + "Weitere Schritte\n" + "        ")

  lemma FramedContains(head: string, x: string, between: string, y: string, tail: string)
    ensures Contains(head + x + between + y + tail, x)
    ensures Contains(head + x + between + y + tail, y)
  {
    ContainsMiddle(head, x, between);
    ContainsBefore(head + x + between, x, y);
    ContainsBefore(head + x + between + y, x, tail);
    ContainsMiddle(head + x + between, y, tail);
  }

  /** An f-string with two fields between fixed texts: both fields occur in
      the result. */
  function Framed(head: string, x: string, between: string, y: string, tail: string): (r: string)
    ensures Contains(r, x) && Contains(r, y)
  {
    FramedContains(head, x, between, y, tail);
    head + x + between + y + tail
  }

  /** The prompt of `get_patient_analysis`: the context, then the question. */
  function AnalysisPrompt(context: string, question: string): (prompt: string)
    ensures Contains(prompt, context) && Contains(prompt, question)
  {
    Framed(AnalysisPromptHead, context, "\n\n        FRAGE: ", question, AnalysisPromptTail)
  }

  /** What `get_patient_analysis` returns: the model's text, or the analysis
      error with the exception's text. */
  function AnalysisAnswer(patient: Patient, question: string, dateFilter: Option<DateRange>,
                          dateText: int -> string, llm: string -> Result<string, string>): string {
    var prompt := AnalysisPrompt(PatientContext(patient, dateFilter, dateText), question);
    match llm(prompt)
    case Ok(text) => text
    case Err(e) => ("Fehler bei der " + "Analyse: ") + e
  }

  method GetPatientAnalysis(patient: Patient, question: string, dateFilter: Option<DateRange>,
                            dateText: int -> string, llm: string -> Result<string, string>)
    returns (answer: string)
    ensures answer == AnalysisAnswer(patient, question, dateFilter, dateText, llm)
  {
    var context := BuildPatientContext(patient, dateFilter, dateText);
    var prompt := AnalysisPrompt(context, question);
    match llm(prompt)
    case Ok(text) =>
      answer := text;
    case Err(e) =>
      answer := ("Fehler bei der " + "Analyse: ") + e;
  }
}
