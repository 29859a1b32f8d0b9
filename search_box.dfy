/** The debounced patient search box that src/pages/PatientSearchPage.tsx
    and src/components/DocumentsPanel_new.tsx both implement: every
    keystroke cancels the pending timer and arms a new one 300 ms ahead;
    when a timer fires, a trimmed text of at least two characters is
    searched and at most five results are offered. Time is an integer
    clock; the timer is at most one pending deadline with the value it
    will search. */
module SearchBox {
  import opened Wrappers
  import opened Text
  import opened Seqs
  import opened Domain

  const Delay := 300
  const MinQueryLength := 2
  const MaxSuggestions := 5

  /** The error line under a search box: none ('') or one of three texts. */
  datatype Alert = NoAlert | BlankQuery | NotFound | SearchFailed

  /** The three texts of one page; each page words them its own way. */
  datatype AlertTexts = AlertTexts(blankQuery: string, notFound: string, searchFailed: string)

  /** The line shown for an alert: empty exactly when there is none, else
      the page's text for that alert. */
  function AlertLine(a: Alert, texts: AlertTexts): (text: string)
    requires texts.blankQuery != "" && texts.notFound != "" && texts.searchFailed != ""
    ensures text == "" <==> a == NoAlert
    ensures a == BlankQuery ==> text == texts.blankQuery
    ensures a == NotFound ==> text == texts.notFound
    ensures a == SearchFailed ==> text == texts.searchFailed
  {
    match a
    case NoAlert => ""
    case BlankQuery => texts.blankQuery
    case NotFound => texts.notFound
    case SearchFailed => texts.searchFailed
  }

  datatype Timer = Idle | Armed(deadline: int, value: string)

  /** `clearTimeout(previous); setTimeout(callback(value), 300)`. */
  function Arm(now: int, value: string): (t: Timer)
    ensures t.Armed? && t.deadline == now + Delay && t.value == value
  {
    Armed(now + Delay, value)
  }

  predicate Due(t: Timer, now: int) {
    t.Armed? && t.deadline <= now
  }

  /** What the box does to its timer: a keystroke re-arms it; a clock tick
      fires a due timer, once. */
  datatype TimerEvent = Keystroke(at: int, value: string) | Tick(at: int)

  function Step(t: Timer, e: TimerEvent): (Timer, Option<string>) {
    match e
    case Keystroke(at, v) => (Arm(at, v), None)
    case Tick(at) => if Due(t, at) then (Idle, Some(t.value)) else (t, None)
  }

  /** The timer after a run of events. */
  function After(t: Timer, events: seq<TimerEvent>): Timer
    decreases |events|
  {
    if events == [] then t else Step(After(t, events[..|events| - 1]), events[|events| - 1]).0
  }

  /** The values whose callbacks ran during a run of events, in order. */
  function Fired(t: Timer, events: seq<TimerEvent>): seq<string>
    decreases |events|
  {
    if events == [] then []
    else
      var out := Step(After(t, events[..|events| - 1]), events[|events| - 1]).1;
      Fired(t, events[..|events| - 1]) + (if out.Some? then [out.value] else [])
  }

  /** The latest keystroke of a run. */
  function Latest(events: seq<TimerEvent>): (k: Option<TimerEvent>)
    ensures k.Some? ==> k.value.Keystroke? && k.value in events
    decreases |events|
  {
    if events == [] then None
    else if events[|events| - 1].Keystroke? then Some(events[|events| - 1])
    else Latest(events[..|events| - 1])
  }

  /** A burst: every tick comes less than 300 ms after the latest keystroke
      before it. */
  predicate Burst(events: seq<TimerEvent>) {
    forall j :: 0 <= j < |events| && events[j].Tick? ==>
      Latest(events[..j]).Some? && events[j].at < Latest(events[..j]).value.at + Delay
  }

  lemma BurstPrefix(events: seq<TimerEvent>)
    requires events != [] && Burst(events)
    ensures Burst(events[..|events| - 1])
  {
    var p := events[..|events| - 1];
    forall j | 0 <= j < |p| && p[j].Tick?
      ensures Latest(p[..j]).Some? && p[j].at < Latest(p[..j]).value.at + Delay
    {
      assert p[..j] == events[..j];
    }
  }

  /** During a burst no search is started, and the one timer left pending
      is the one armed by the latest keystroke. */
  lemma {:induction false} BurstFiresNothing(t: Timer, events: seq<TimerEvent>)
    requires Burst(events)
    ensures Fired(t, events) == []
    ensures events != [] ==>
      Latest(events).Some? && After(t, events) == Arm(Latest(events).value.at, Latest(events).value.value)
    decreases |events|
  {
    if events != [] {
      var p := events[..|events| - 1];
      var last := events[|events| - 1];
      BurstPrefix(events);
      BurstFiresNothing(t, p);
      if last.Tick? {
        assert events[..|events| - 1] == p;
        assert p != [];
      }
    }
  }

  /** The first tick at least 300 ms after the last keystroke of a burst
      fires exactly once, with the last value typed, and a later tick
      fires nothing more. */
  lemma SettledBurstFiresOnce(t: Timer, events: seq<TimerEvent>, at: int, later: int)
    requires events != [] && Burst(events)
    requires Latest(events).Some? && at >= Latest(events).value.at + Delay
    ensures Fired(t, events + [Tick(at)]) == [Latest(events).value.value]
    ensures After(t, events + [Tick(at)]) == Idle
    ensures Fired(t, events + [Tick(at), Tick(later)]) == [Latest(events).value.value]
  {
    BurstFiresNothing(t, events);
    var e1 := events + [Tick(at)];
    assert e1[..|e1| - 1] == events;
    var e2 := events + [Tick(at), Tick(later)];
    assert e2[..|e2| - 1] == e1;
  }

  /** The text a firing timer searches: the trimmed value, if long enough. */
  function SearchText(value: string): (q: Option<string>)
    ensures q.Some? <==> |Trim(value)| >= MinQueryLength
    ensures q.Some? ==> q.value == Trim(value) && !IsBlank(q.value)
  {
    TrimSpec(value);
    if |Trim(value)| >= MinQueryLength then Some(Trim(value)) else None
  }

  /** What the box shows once the search it started settles: at most five
      results, shown, or nothing, hidden. */
  function Suggestions(outcome: Result<seq<Patient>, string>): (shown: (seq<Patient>, bool))
    ensures shown.1 <==> outcome.Ok?
    ensures outcome.Ok? ==> shown.0 == Take(outcome.value, MaxSuggestions)
    ensures outcome.Err? ==> shown.0 == []
  {
    match outcome
    case Ok(results) => (Take(results, MaxSuggestions), true)
    case Err(_) => ([], false)
  }

  /** The route of a patient's workspace. */
  function WorkspacePath(id: string): string {
    "/workspace/" + id
  }
}
