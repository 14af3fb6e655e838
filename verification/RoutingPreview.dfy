/** The preview of a routing target: requests that answer late, and the revision that tells them apart. */
module RoutingPreview {
  import opened Wrappers
  import opened Trimming

  /** What the preview shows: an answer, and the request it answers. */
  datatype Shown = Shown(revision: nat, host: string, answer: string)

  /** `waiting` holds the requests without an answer yet, with the host each asks about. */
  datatype State = State(host: string, revision: nat, timer: bool, waiting: map<nat, string>, shown: Option<Shown>)

  const INITIAL := State("", 0, false, map[], None)

  /** The host field is typed into or set by the form; the typing delay ends; the field loses focus or a
      rule is deleted; a rule is edited; an answer arrives. */
  datatype Event =
    | Typed(value: string)
    | FieldSet(value: string)
    | DelayEnds
    | Asked
    | Cleared
    | Answered(revision: nat, answer: string)

  function Clear(s: State): State {
    s.(revision := s.revision + 1, timer := false, shown := None)
  }

  function Ask(s: State): State {
    if Trim(s.host) == "" then Clear(s)
    else s.(revision := s.revision + 1, waiting := s.waiting[s.revision + 1 := Trim(s.host)])
  }

  predicate Renders(s: State, e: Event) {
    e.Answered? && e.revision in s.waiting && e.revision == s.revision
  }

  function Step(s: State, e: Event): State {
    match e
    case Typed(value) => s.(host := value, timer := true)
    case FieldSet(value) => s.(host := value)
    case DelayEnds => Ask(s.(timer := false))
    case Asked => Ask(s)
    case Cleared => Clear(s)
    case Answered(r, answer) =>
      var answered := s.(waiting := s.waiting - {r});
      if Renders(s, e) then answered.(shown := Some(Shown(r, s.waiting[r], answer))) else answered
  }

  predicate Enabled(s: State, e: Event) {
    match e
    case DelayEnds => s.timer
    case Answered(r, _) => r in s.waiting
    case _ => true
  }

  class Preview {
    var host: string
    var revision: nat
    var timer: bool
    var waiting: map<nat, string>
    var shown: Option<Shown>

    function Now(): State
      reads this
    {
      State(host, revision, timer, waiting, shown)
    }

    constructor ()
      ensures Now() == INITIAL
    {
      host, revision, timer, waiting, shown := "", 0, false, map[], None;
    }

    method ClearPreview()
      modifies this
      ensures Now() == Step(old(Now()), Cleared)
    {
      revision := revision + 1;
      timer := false;
      shown := None;
    }

    /** Starts a request, whose answer may come at any later time. */
    method PreviewTarget()
      modifies this
      ensures Now() == Step(old(Now()), Asked)
    {
      var value := Trim(host);
      if value == "" {
        ClearPreview();
        return;
      }
      revision := revision + 1;
      waiting := waiting[revision := value];
    }

    method FieldInput(value: string)
      modifies this
      ensures Now() == Step(old(Now()), Typed(value))
    {
      host := value;
      timer := true;
    }

    method DelayOver()
      requires timer
      modifies this
      ensures Now() == Step(old(Now()), DelayEnds)
    {
      timer := false;
      PreviewTarget();
    }

    /** The rest of a request, when its answer is there. */
    method AnswerArrived(asked: nat, answer: string)
      requires asked in waiting
      modifies this
      ensures Now() == Step(old(Now()), Answered(asked, answer))
    {
      var value := waiting[asked];
      waiting := waiting - {asked};
      if asked != revision { return; }
      shown := Some(Shown(asked, value, answer));
    }
  }

  // ---- Runs -----------------------------------------------------------------------------------------

  function StateAt(events: seq<Event>, n: nat): State
    requires n <= |events|
  {
    if n == 0 then INITIAL else Step(StateAt(events, n - 1), events[n - 1])
  }

  ghost predicate IsRun(events: seq<Event>) {
    forall n: nat :: n < |events| ==> Enabled(StateAt(events, n), events[n])
  }

  /** The event starts a request or clears the preview. */
  predicate Issues(e: Event) {
    e.DelayEnds? || e.Asked? || e.Cleared?
  }

  predicate RendersAt(events: seq<Event>, n: nat)
    requires n < |events|
  {
    Renders(StateAt(events, n), events[n])
  }

  /** The event at `k` started the request for this host. */
  predicate StartedAt(events: seq<Event>, k: nat, revision: nat, host: string)
    requires k < |events|
  {
    (events[k].DelayEnds? || events[k].Asked?) &&
    var s := StateAt(events, k);
    s.revision + 1 == revision && Trim(s.host) == host && host != ""
  }

  predicate Starts(s: State, e: Event) {
    (e.DelayEnds? || e.Asked?) && Trim(s.host) != ""
  }

  /** One event of a run, seen from its parts. */
  lemma NextState(events: seq<Event>, n: nat)
    requires n < |events|
    ensures var s, e, s' := StateAt(events, n), events[n], StateAt(events, n + 1);
      && s'.revision == s.revision + (if Issues(e) then 1 else 0)
      && (Starts(s, e) ==>
            s'.waiting == s.waiting[s'.revision := Trim(s.host)] && s'.shown == s.shown &&
            StartedAt(events, n, s'.revision, Trim(s.host)))
      && (e.Answered? ==> s'.waiting == s.waiting - {e.revision})
      && (!Starts(s, e) && !e.Answered? ==> s'.waiting == s.waiting)
      && (Issues(e) && !Starts(s, e) ==> s'.shown == None)
      && (Renders(s, e) ==> s'.shown == Some(Shown(e.revision, s.waiting[e.revision], e.answer)))
      && (!Renders(s, e) && !Issues(e) ==> s'.shown == s.shown)
  {
    hide Trim;
  }

  /** Every waiting request was started by an event of the run. */
  ghost predicate Explained(events: seq<Event>, n: nat)
    requires n <= |events|
  {
    var s := StateAt(events, n);
    forall r :: r in s.waiting ==> r <= s.revision && exists k: nat :: k < n && StartedAt(events, k, r, s.waiting[r])
  }

  lemma {:induction false} RunIsExplained(events: seq<Event>, n: nat)
    requires n <= |events|
    ensures Explained(events, n)
    decreases n
  {
    if n > 0 {
      RunIsExplained(events, n - 1);
      hide Trim, StateAt, Step, StartedAt;
      NextState(events, n - 1);
    } else {
      assert StateAt(events, 0).waiting == map[];
    }
  }

  /** The revision counts the requests and clears. */
  lemma {:induction false} RevisionsGrow(events: seq<Event>, m: nat, n: nat)
    requires m <= n <= |events|
    ensures StateAt(events, m).revision <= StateAt(events, n).revision
    ensures StateAt(events, m).revision == StateAt(events, n).revision <==> forall i: nat :: m <= i < n ==>
      !Issues(events[i])
    decreases n
  {
    hide Trim, StateAt, Step, Starts, Renders;
    if m < n {
      RevisionsGrow(events, m, n - 1);
      NextState(events, n - 1);
    }
  }

  /** The event at `k` started the request that event `n` answers. */
  predicate Answers(events: seq<Event>, k: nat, n: nat)
    requires k < n < |events|
  {
    var s, e := StateAt(events, n), events[n];
    e.Answered? && e.revision in s.waiting && StartedAt(events, k, e.revision, s.waiting[e.revision])
  }

  ghost predicate NoneIssued(events: seq<Event>, k: nat, n: nat)
    requires k < n <= |events|
  {
    forall i: nat :: k < i < n ==> !Issues(events[i])
  }

  /** An answer belongs to an earlier request, and is rendered exactly if no request and no clear came
      after that one; what is rendered then is this answer, for the host that was asked about. */
  lemma RenderedIsLatest(events: seq<Event>, n: nat)
    requires IsRun(events) && n < |events| && events[n].Answered?
    ensures exists k: nat :: k < n && Answers(events, k, n) && (RendersAt(events, n) <==> NoneIssued(events, k, n))
    ensures var r := events[n].revision;
      r in StateAt(events, n).waiting &&
      (RendersAt(events, n) ==>
         StateAt(events, n + 1).shown == Some(Shown(r, StateAt(events, n).waiting[r], events[n].answer)))
  {
    hide Trim, StateAt, Step;
    RunIsExplained(events, n);
    NextState(events, n);
    var s := StateAt(events, n);
    var r := events[n].revision;
    assert Enabled(s, events[n]);
    var k: nat :| k < n && StartedAt(events, k, r, s.waiting[r]);
    assert Answers(events, k, n);
    AfterStart(events, k, n, r, s.waiting[r]);
  }

  lemma AfterStart(events: seq<Event>, k: nat, n: nat, r: nat, host: string)
    requires k < n <= |events| && StartedAt(events, k, r, host)
    ensures r <= StateAt(events, n).revision
    ensures StateAt(events, n).revision == r <==> NoneIssued(events, k, n)
  {
    hide Trim, StateAt, Step, Starts, Renders;
    NextState(events, k);
    RevisionsGrow(events, k + 1, n);
  }

  lemma {:induction false} AnsweredOnce(events: seq<Event>, m: nat, n: nat, r: nat)
    requires m <= n <= |events|
    requires r <= StateAt(events, m).revision && r !in StateAt(events, m).waiting
    ensures r !in StateAt(events, n).waiting
    decreases n
  {
    hide Trim, StateAt, Step, Starts, Renders;
    if m < n {
      AnsweredOnce(events, m, n - 1, r);
      RevisionsGrow(events, m, n - 1);
      NextState(events, n - 1);
    }
  }

  /** Rendered revisions strictly increase, whatever order the answers arrive in. */
  lemma RenderedIncrease(events: seq<Event>, m: nat, n: nat)
    requires IsRun(events) && m < n < |events| && RendersAt(events, m) && RendersAt(events, n)
    ensures events[m].revision < events[n].revision
  {
    hide Trim, StateAt, Step, Starts;
    NextState(events, m);
    RevisionsGrow(events, m + 1, n);
    AnsweredOnce(events, m + 1, n, events[m].revision);
  }

  /** The event clears the preview, or asks about nothing, which does the same. */
  predicate Clears(s: State, e: Event) {
    Issues(e) && !Starts(s, e)
  }

  /** A clear empties the preview, and what is rendered later was asked for after the clear. */
  lemma NothingReappears(events: seq<Event>, m: nat, n: nat)
    requires IsRun(events) && m < n < |events| && Clears(StateAt(events, m), events[m])
    ensures StateAt(events, m + 1).shown == None
    ensures RendersAt(events, n) ==> exists k: nat :: m < k < n && Answers(events, k, n)
  {
    NextState(events, m);
    if RendersAt(events, n) {
      RenderedIsLatest(events, n);
      hide Trim, StateAt, Step;
      var k: nat :| k < n && Answers(events, k, n) && (RendersAt(events, n) <==> NoneIssued(events, k, n));
      assert k != m;
    }
  }

  // ---- The typing delay and the field -----------------------------------------------------------------

  /** The event puts a value into the host field. */
  predicate Writes(e: Event, value: string) {
    e == Typed(value) || e == FieldSet(value)
  }

  ghost predicate LastWritten(events: seq<Event>, k: nat, n: nat, value: string)
    requires n <= |events|
  {
    k < n && Writes(events[k], value) && forall i: nat :: k < i < n ==> !events[i].Typed? && !events[i].FieldSet?
  }

  /** The field holds what was put into it last. */
  ghost predicate FieldHolds(events: seq<Event>, n: nat, value: string)
    requires n <= |events|
  {
    || (exists k: nat :: LastWritten(events, k, n, value))
    || (value == "" && forall i: nat :: i < n ==> !events[i].Typed? && !events[i].FieldSet?)
  }

  lemma {:induction false} FieldIsLastWritten(events: seq<Event>, n: nat, value: string)
    requires n <= |events|
    ensures StateAt(events, n).host == value <==> FieldHolds(events, n, value)
    decreases n
  {
    hide Trim;
    if n > 0 {
      var m := n - 1;
      FieldIsLastWritten(events, m, value);
      var e := events[m];
      if e.Typed? || e.FieldSet? {
        if e.value == value { assert LastWritten(events, m, n, value); }
      } else {
        if k: nat :| LastWritten(events, k, n, value) { assert LastWritten(events, k, m, value); }
        if k: nat :| LastWritten(events, k, m, value) { assert LastWritten(events, k, n, value); }
      }
    }
  }

  /** The event ends the delay, or stops it: a clear, or a request while the field is blank. */
  ghost predicate EndsDelay(events: seq<Event>, i: nat)
    requires i < |events|
  {
    || events[i].DelayEnds? || events[i].Cleared?
    || (events[i].Asked? && exists value: string :: FieldHolds(events, i, value) && Blank(value))
  }

  ghost predicate DelayedSince(events: seq<Event>, k: nat, n: nat)
    requires n <= |events|
  {
    k < n && events[k].Typed? && forall i: nat :: k < i < n ==> !EndsDelay(events, i)
  }

  lemma AskOfBlank(events: seq<Event>, n: nat)
    requires n < |events| && events[n].Asked?
    ensures EndsDelay(events, n) <==> Trim(StateAt(events, n).host) == ""
  {
    hide Trim, Blank, FieldHolds, StateAt, Step;
    var host := StateAt(events, n).host;
    forall value: string ensures FieldHolds(events, n, value) <==> value == host {
      FieldIsLastWritten(events, n, value);
    }
    TrimIsEmpty(host);
  }

  /** The delay runs from what was typed until it ends or is stopped; so after a clear it cannot end before
      something is typed again. */
  lemma {:induction false} DelayRuns(events: seq<Event>, n: nat)
    requires n <= |events|
    ensures Enabled(StateAt(events, n), DelayEnds) <==> exists k: nat :: DelayedSince(events, k, n)
    decreases n
  {
    hide Trim, EndsDelay;
    if n > 0 {
      var m := n - 1;
      DelayRuns(events, m);
      if events[m].Typed? {
        assert DelayedSince(events, m, n);
      } else {
        DelayStep(events, m);
        if k: nat :| DelayedSince(events, k, n) { assert DelayedSince(events, k, m); }
        if k: nat :| DelayedSince(events, k, m) {
          if !EndsDelay(events, m) { assert DelayedSince(events, k, n); }
        }
      }
    }
  }

  lemma DelayStep(events: seq<Event>, n: nat)
    requires n < |events| && !events[n].Typed?
    ensures StateAt(events, n + 1).timer <==> StateAt(events, n).timer && !EndsDelay(events, n)
  {
    hide Trim, FieldHolds, Blank;
    if events[n].Asked? { AskOfBlank(events, n); }
  }

  /** After a clear the delay does not end before something is typed. */
  lemma ClearStopsDelay(events: seq<Event>, m: nat, n: nat)
    requires IsRun(events) && m < n < |events| && events[m].Cleared? && events[n].DelayEnds?
    ensures exists k: nat :: m < k < n && events[k].Typed?
  {
    hide Trim, StateAt, Step;
    assert Enabled(StateAt(events, n), events[n]);
    DelayRuns(events, n);
    var k: nat :| DelayedSince(events, k, n);
    assert k < m ==> EndsDelay(events, m);
  }
}
