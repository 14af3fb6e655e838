/**
 The monitor for sign-ins inside one document: armed with an origin, it reports the page once
 the login has stayed away for the whole settling time.
 */
module SpaMonitor {
  import opened Wrappers
  import opened CredentialPage

  /** The variables of the monitor; no origin is the empty string, `timer` says if one is running. */
  datatype State = State(armedOrigin: string, emitted: bool, timer: bool, observer: bool)

  const INITIAL := State("", false, false, false)

  /** What can happen, with the page as it is at that moment. */
  datatype Event =
    | Arm(origin: string, page: Page)
    | Evaluate(page: Page)
    | Fire(page: Page)
    | Stop

  predicate Accepts(canObserve: bool, origin: string, page: Page) {
    page.https && origin == page.origin && canObserve
  }

  function Evaluated(s: State, page: Page): State {
    if s.armedOrigin == "" || s.emitted then s
    else s.(timer := Clean(page, s.armedOrigin))
  }

  function Armed(s: State, canObserve: bool, origin: string, page: Page): State {
    var reset := State("", false, false, s.observer);
    if !page.https || origin != page.origin || !(s.observer || canObserve) then reset
    else Evaluated(State(origin, false, false, true), page)
  }

  /** What a firing timer reports. */
  function Report(s: State, page: Page): Option<PageState> {
    if Clean(page, s.armedOrigin) && !s.emitted then CredentialState(page) else None
  }

  function Fired(s: State, page: Page): State {
    if Report(s, page).Some? then State("", true, false, s.observer) else s.(timer := false)
  }

  function Step(canObserve: bool, s: State, e: Event): State {
    match e
    case Arm(origin, page) => Armed(s, canObserve, origin, page)
    case Evaluate(page) => Evaluated(s, page)
    case Fire(page) => Fired(s, page)
    case Stop => State("", false, false, false)
  }

  class Monitor {
    const canObserve: bool
    var armedOrigin: string
    var emitted: bool
    var timer: bool
    var observer: bool

    function Now(): State
      reads this
    {
      State(armedOrigin, emitted, timer, observer)
    }

    constructor (canObserve: bool)
      ensures Now() == INITIAL && this.canObserve == canObserve
    {
      this.canObserve := canObserve;
      armedOrigin, emitted, timer, observer := "", false, false, false;
    }

    method CancelTimer()
      modifies this`timer
      ensures !timer
    {
      if timer { timer := false; }
    }

    /** Starts the timer on a clean page and stops it on any other. */
    method EvaluatePage(page: Page) returns (settling: bool)
      modifies this`timer
      ensures Now() == Step(canObserve, old(Now()), Evaluate(page))
      ensures settling <==> timer && armedOrigin != "" && !emitted
    {
      if armedOrigin == "" || emitted { return false; }
      if !Clean(page, armedOrigin) {
        CancelTimer();
        return false;
      }
      if timer { return true; }
      timer := true;
      settling := true;
    }

    method EnsureObserver() returns (ok: bool)
      modifies this`observer
      ensures ok == observer == (old(observer) || canObserve)
    {
      if observer || !canObserve { return observer; }
      observer := true;
      ok := true;
    }

    method ArmFor(origin: string, page: Page) returns (ok: bool)
      modifies this
      ensures Now() == Step(canObserve, old(Now()), Arm(origin, page))
      ensures ok == (page.https && origin == page.origin && (old(observer) || canObserve))
    {
      CancelTimer();
      emitted := false;
      armedOrigin := "";
      if !page.https || origin != page.origin { return false; }
      var observing := EnsureObserver();
      if !observing { return false; }
      armedOrigin := origin;
      var _ := EvaluatePage(page);
      ok := true;
    }

    /** The settling time is over. */
    method TimerFired(page: Page) returns (report: Option<PageState>)
      requires timer
      modifies this
      ensures Now() == Step(canObserve, old(Now()), Fire(page))
      ensures report == Report(old(Now()), page)
    {
      timer := false;
      var settled := CredentialState(page);
      if settled.None? || settled.value.origin != armedOrigin { return None; }
      if settled.value.hasLoginForm || settled.value.hasChallengeForm || emitted { return None; }
      emitted := true;
      armedOrigin := "";
      report := settled;
    }

    method StopMonitor()
      modifies this
      ensures Now() == Step(canObserve, old(Now()), Stop)
    {
      CancelTimer();
      armedOrigin := "";
      emitted := false;
      observer := false;
    }
  }

  // ---- Runs -------------------------------------------------------------------------------------

  function StateAt(canObserve: bool, events: seq<Event>, n: nat): State
    requires n <= |events|
  {
    if n == 0 then INITIAL else Step(canObserve, StateAt(canObserve, events, n - 1), events[n - 1])
  }

  /** A timer fires only while it is running. */
  ghost predicate IsRun(canObserve: bool, events: seq<Event>) {
    forall n: nat :: n < |events| && events[n].Fire? ==> StateAt(canObserve, events, n).timer
  }

  /** What the monitor reports at event `n`. */
  function ReportAt(canObserve: bool, events: seq<Event>, n: nat): Option<PageState>
    requires n < |events|
  {
    if events[n].Fire? then Report(StateAt(canObserve, events, n), events[n].page) else None
  }

  predicate SuccessfulArm(canObserve: bool, e: Event) {
    e.Arm? && Accepts(canObserve, e.origin, e.page)
  }

  /** The monitor was armed for the origin at `a`, and nothing since has ended that. */
  ghost predicate ArmedSince(canObserve: bool, events: seq<Event>, a: nat, n: nat, origin: string)
    requires n <= |events|
  {
    && a < n && SuccessfulArm(canObserve, events[a]) && events[a].origin == origin
    && forall i: nat :: a < i < n ==> !events[i].Arm? && !events[i].Stop? && ReportAt(canObserve, events, i).None?
  }

  /** The timer was started at `t` on a clean page, and every evaluation since has seen a clean page. */
  ghost predicate SettlingSince(events: seq<Event>, t: nat, n: nat, origin: string)
    requires n <= |events|
  {
    && t < n && (events[t].Arm? || events[t].Evaluate?) && Clean(events[t].page, origin)
    && forall i: nat :: t < i < n ==> events[i].Evaluate? && Clean(events[i].page, origin)
  }

  /** What is known of the state from the events that led to it. */
  ghost predicate Explained(canObserve: bool, events: seq<Event>, n: nat, s: State)
    requires n <= |events|
  {
    && (s.observer ==> canObserve)
    && (s.timer ==> s.armedOrigin != "" && !s.emitted)
    && (s.armedOrigin != "" ==> !s.emitted && exists a: nat :: ArmedSince(canObserve, events, a, n, s.armedOrigin))
    && (s.timer ==> exists t: nat :: SettlingSince(events, t, n, s.armedOrigin))
  }

  lemma {:induction false} StatesAreExplained(canObserve: bool, events: seq<Event>, n: nat)
    requires IsRun(canObserve, events) && n <= |events|
    ensures Explained(canObserve, events, n, StateAt(canObserve, events, n))
    decreases n
  {
    if n > 0 {
      StatesAreExplained(canObserve, events, n - 1);
      StepIsExplained(canObserve, events, n - 1);
    }
  }

  lemma StepIsExplained(canObserve: bool, events: seq<Event>, n: nat)
    requires IsRun(canObserve, events) && n < |events|
    requires Explained(canObserve, events, n, StateAt(canObserve, events, n))
    ensures Explained(canObserve, events, n + 1, StateAt(canObserve, events, n + 1))
  {
    hide Clean, CredentialState;
    var s, s' := StateAt(canObserve, events, n), StateAt(canObserve, events, n + 1);
    if s'.armedOrigin != "" {
      if events[n].Arm? {
        assert ArmedSince(canObserve, events, n, n + 1, s'.armedOrigin);
      } else {
        var a: nat :| ArmedSince(canObserve, events, a, n, s.armedOrigin);
        assert ArmedSince(canObserve, events, a, n + 1, s.armedOrigin);
      }
    }
    if s'.timer {
      if events[n].Arm? || !s.timer {
        assert SettlingSince(events, n, n + 1, s'.armedOrigin);
      } else {
        var t: nat :| SettlingSince(events, t, n, s.armedOrigin);
        assert SettlingSince(events, t, n + 1, s.armedOrigin);
      }
    }
  }

  /** Every report stems from a successful arming for its origin that nothing has ended, and the page
      was clean when the timer started, at every evaluation since, and when it fired. */
  lemma ReportIsJustified(canObserve: bool, events: seq<Event>, n: nat)
    requires IsRun(canObserve, events) && n < |events| && ReportAt(canObserve, events, n).Some?
    ensures var origin := ReportAt(canObserve, events, n).value.origin;
      && Clean(events[n].page, origin)
      && exists a: nat, t: nat ::
           a <= t && ArmedSince(canObserve, events, a, n, origin) && SettlingSince(events, t, n, origin)
  {
    StatesAreExplained(canObserve, events, n);
    var s := StateAt(canObserve, events, n);
    var a: nat :| ArmedSince(canObserve, events, a, n, s.armedOrigin);
    var t: nat :| SettlingSince(events, t, n, s.armedOrigin);
    assert events[a].Arm?;
  }

  /** A running timer reports exactly if the page is clean for the armed origin when it fires. */
  lemma TimerReportsCleanPages(canObserve: bool, events: seq<Event>, n: nat)
    requires IsRun(canObserve, events) && n < |events| && events[n].Fire?
    ensures ReportAt(canObserve, events, n).Some? <==> Clean(events[n].page, StateAt(canObserve, events, n).armedOrigin)
  {
    StatesAreExplained(canObserve, events, n);
  }

  /** Between two reports the monitor was armed again; and after a stop nothing is reported without a new arming. */
  lemma ReportsNeedArming(canObserve: bool, events: seq<Event>, m: nat, n: nat)
    requires IsRun(canObserve, events) && m < n < |events| && ReportAt(canObserve, events, n).Some?
    requires events[m].Stop? || ReportAt(canObserve, events, m).Some?
    ensures exists a: nat :: m < a < n && SuccessfulArm(canObserve, events[a])
  {
    ReportIsJustified(canObserve, events, n);
    var origin := ReportAt(canObserve, events, n).value.origin;
    var a: nat, t: nat :| a <= t && ArmedSince(canObserve, events, a, n, origin) && SettlingSince(events, t, n, origin);
    assert m < a;
  }

  function Reports(canObserve: bool, events: seq<Event>, n: nat): nat
    requires n <= |events|
  {
    if n == 0 then 0
    else Reports(canObserve, events, n - 1) + if ReportAt(canObserve, events, n - 1).Some? then 1 else 0
  }

  function Armings(canObserve: bool, events: seq<Event>, n: nat): nat
    requires n <= |events|
  {
    if n == 0 then 0 else Armings(canObserve, events, n - 1) + if SuccessfulArm(canObserve, events[n - 1]) then 1 else 0
  }

  /** There are never more reports than successful armings, and one fewer while the monitor is armed. */
  lemma {:induction false} OneReportPerArming(canObserve: bool, events: seq<Event>, n: nat)
    requires IsRun(canObserve, events) && n <= |events|
    ensures Reports(canObserve, events, n) + (if StateAt(canObserve, events, n).armedOrigin != "" then 1 else 0)
      <= Armings(canObserve, events, n)
    decreases n
  {
    if n > 0 {
      hide Clean, CredentialState;
      OneReportPerArming(canObserve, events, n - 1);
      StatesAreExplained(canObserve, events, n - 1);
    }
  }

  // ---- When the timer runs ----------------------------------------------------------------------------

  /** The monitor was armed for the origin on its secure page at `a`; since then it was neither armed again nor
      stopped, and no timer has fired on a clean page. */
  ghost predicate HeldSince(canObserve: bool, events: seq<Event>, a: nat, n: nat, origin: string)
    requires n <= |events|
  {
    && a < n && events[a].Arm? && events[a].origin == origin && events[a].page.https
    && events[a].page.origin == origin && canObserve
    && forall i: nat :: a < i < n ==>
         !events[i].Arm? && !events[i].Stop? && (events[i].Fire? ==> !Clean(events[i].page, origin))
  }

  ghost predicate Held(canObserve: bool, events: seq<Event>, n: nat, origin: string)
    requires n <= |events|
  {
    exists a: nat :: HeldSince(canObserve, events, a, n, origin)
  }

  lemma HeldNext(canObserve: bool, events: seq<Event>, n: nat, origin: string)
    requires n < |events|
    ensures Held(canObserve, events, n + 1, origin) <==>
      match events[n]
      case Arm(o, page) => o == origin && page.https && page.origin == origin && canObserve
      case Evaluate(_) => Held(canObserve, events, n, origin)
      case Fire(page) => Held(canObserve, events, n, origin) && !Clean(page, origin)
      case Stop => false
  {
    hide Clean;
    var next := n + 1;
    if a: nat :| HeldSince(canObserve, events, a, next, origin) {
      if a < n { assert HeldSince(canObserve, events, a, n, origin); }
    }
    if events[n].Arm? {
      if events[n].origin == origin && events[n].page.https && events[n].page.origin == origin && canObserve {
        assert HeldSince(canObserve, events, n, n + 1, origin);
      }
    } else if a: nat :| HeldSince(canObserve, events, a, n, origin) {
      if !events[n].Stop? && (events[n].Fire? ==> !Clean(events[n].page, origin)) {
        assert HeldSince(canObserve, events, a, n + 1, origin);
      }
    }
  }

  /** Which origin is armed, told from the events. */
  lemma {:induction false} ArmedIsHeld(canObserve: bool, events: seq<Event>, n: nat, origin: string)
    requires IsRun(canObserve, events) && n <= |events| && origin != ""
    ensures StateAt(canObserve, events, n).armedOrigin == origin <==> Held(canObserve, events, n, origin)
    decreases n
  {
    if n > 0 {
      hide Clean, CredentialState, Held;
      ArmedIsHeld(canObserve, events, n - 1, origin);
      HeldNext(canObserve, events, n - 1, origin);
      StatesAreExplained(canObserve, events, n - 1);
      if events[n - 1].Fire? { TimerReportsCleanPages(canObserve, events, n - 1); }
    }
  }

  /** The timer runs exactly if an origin is armed and the last event was an arming or evaluation that saw a clean
      page; so it starts on every clean page, keeps running on clean pages, and stops on any other. */
  lemma TimerRuns(canObserve: bool, events: seq<Event>, n: nat)
    requires IsRun(canObserve, events) && n <= |events|
    ensures StateAt(canObserve, events, n).timer <==>
      n > 0 && (events[n - 1].Arm? || events[n - 1].Evaluate?) &&
      exists origin: string ::
        origin != "" && Held(canObserve, events, n, origin) && Clean(events[n - 1].page, origin)
  {
    hide Clean, CredentialState, Held;
    StatesAreExplained(canObserve, events, n);
    if n > 0 {
      StatesAreExplained(canObserve, events, n - 1);
      var s, e, s' := StateAt(canObserve, events, n - 1), events[n - 1], StateAt(canObserve, events, n);
      forall origin: string | origin != "" ensures s'.armedOrigin == origin <==> Held(canObserve, events, n, origin) {
        ArmedIsHeld(canObserve, events, n, origin);
      }
      assert s'.timer ==> Held(canObserve, events, n, s'.armedOrigin);
      if e.Fire? { TimerReportsCleanPages(canObserve, events, n - 1); }
    }
  }
}
