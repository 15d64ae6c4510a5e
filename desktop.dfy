/** The desktop the three servers drive, seen as a trace of requests issued to
    it. Each external call of a server (an `osascript` run, opening a URL, the
    pointer query) appends the actions it asks for, whether or not the outside
    world then carries them out; sleeping and writing the HTTP response are
    recorded the same way. The outside world's reply to each call is an oracle. */
module Desktop {
  import opened Text

  datatype Action =
    | KeyPress(command: bool, option: bool, control: bool, keyCode: nat)
    | Activate(app: string)
    | OpenUrl(url: string)
    | Sleep(seconds: nat)
    | QueryPointer
    | MovePointer(x: string, y: string)
    | Respond(status: nat, contentType: string, body: string)

  /** How an external call ends: it ran and reported success, it ran and
      reported failure (non-zero exit status, browser error), or the process
      could not be started at all. */
  datatype Outcome = Done | Failed | SpawnFailed

  /** One step of a handler. An external call issues `actions` and makes the
      handler stop (panic, uncaught exception) when the outcome is in
      `abortsOn`; an internal step always proceeds; `Crash` is a fault raised
      by the handler itself, which ends it without issuing anything. */
  datatype Step =
    | External(actions: seq<Action>, abortsOn: set<Outcome>)
    | Internal(action: Action)
    | Crash

  /** The key press that pins the currently focused window (all three
      modifiers, key code 1); identical in the three programs. */
  const RecordWindow: Action := KeyPress(true, true, true, 1)
  /** The key press sent to EasyDict on the slow path (control released). */
  const ForceLookup: Action := KeyPress(true, true, false, 1)
  /** The key press that returns focus to the pinned window (key code 15). */
  const SwitchBack: Action := KeyPress(true, true, true, 15)
  /** The slow-path script: activate EasyDict, then `ForceLookup`. */
  const SlowPathScript: seq<Action> := [Activate("EasyDict"), ForceLookup]
  const LookupPrefix: string := "easydict://query?text="
  const Converted: string := "URL has been converted and opened."
  const MissingText: string := "Missing query text."

  function Actions(s: Step): seq<Action> {
    match s
    case External(acts, _) => acts
    case Internal(a) => [a]
    case Crash => []
  }

  predicate Aborts(s: Step, answer: seq<Action> -> Outcome) {
    s.Crash? || (s.External? && answer(s.actions) in s.abortsOn)
  }

  /** Everything a plan would issue if no step stopped it. */
  function Flatten(plan: seq<Step>): seq<Action> {
    if plan == [] then [] else Actions(plan[0]) + Flatten(plan[1..])
  }

  /** No step of `plan` stops the handler. */
  predicate Completes(plan: seq<Step>, answer: seq<Action> -> Outcome) {
    plan == [] || (!Aborts(plan[0], answer) && Completes(plan[1..], answer))
  }

  /** What a handler following `plan` issues when the world answers as `answer`
      says: the steps in order, up to and including the first one that stops it. */
  function Run(plan: seq<Step>, answer: seq<Action> -> Outcome): seq<Action> {
    if plan == [] then []
    else Actions(plan[0]) + (if Aborts(plan[0], answer) then [] else Run(plan[1..], answer))
  }

  /** A run issues a prefix of what the plan would issue, and all of it when no
      step stops it. */
  lemma {:induction false} RunIsPrefix(plan: seq<Step>, answer: seq<Action> -> Outcome)
    ensures Run(plan, answer) <= Flatten(plan)
    ensures Completes(plan, answer) ==> Run(plan, answer) == Flatten(plan)
    decreases |plan|
  {
    if plan != [] {
      RunIsPrefix(plan[1..], answer);
    }
  }

  /** Running a plan whose first step is `s`. */
  lemma RunCons(s: Step, rest: seq<Step>, answer: seq<Action> -> Outcome)
    ensures Run([s] + rest, answer) == Actions(s) + (if Aborts(s, answer) then [] else Run(rest, answer))
  {
    assert ([s] + rest)[0] == s && ([s] + rest)[1..] == rest;
  }

  /** Issuing a first step that does not stop the handler, seen from a trace
      that already holds `done`. */
  lemma RunPastStep(done: seq<Action>, s: Step, rest: seq<Step>, answer: seq<Action> -> Outcome)
    requires !Aborts(s, answer)
    ensures done + Run([s] + rest, answer) == (done + Actions(s)) + Run(rest, answer)
    ensures Completes([s] + rest, answer) <==> Completes(rest, answer)
  {
    RunCons(s, rest, answer);
  }

  /** Issuing a first step that stops the handler. */
  lemma RunStopStep(done: seq<Action>, s: Step, rest: seq<Step>, answer: seq<Action> -> Outcome)
    requires Aborts(s, answer)
    ensures done + Run([s] + rest, answer) == done + Actions(s)
    ensures !Completes([s] + rest, answer)
  {
    RunCons(s, rest, answer);
  }

  /** Running two plans one after the other. */
  lemma {:induction false} RunAppend(p: seq<Step>, q: seq<Step>, answer: seq<Action> -> Outcome)
    ensures Run(p + q, answer) == Run(p, answer) + (if Completes(p, answer) then Run(q, answer) else [])
    decreases |p|
  {
    if p == [] {
      assert p + q == q;
    } else {
      assert (p + q)[0] == p[0];
      assert (p + q)[1..] == p[1..] + q;
      RunAppend(p[1..], q, answer);
    }
  }

  /** Running a plan that completes, then `rest`, seen from a trace that already holds `done`. */
  lemma RunPastPlan(done: seq<Action>, p: seq<Step>, rest: seq<Step>, answer: seq<Action> -> Outcome)
    requires Completes(p, answer)
    ensures done + Run(p + rest, answer) == (done + Run(p, answer)) + Run(rest, answer)
  {
    RunAppend(p, rest, answer);
    var x, y := Run(p, answer), Run(rest, answer);
    assert Run(p + rest, answer) == x + y;
    assert done + (x + y) == (done + x) + y;
  }

  /** Running a plan that stops the handler: nothing after it is issued. */
  lemma RunStopPlan(done: seq<Action>, p: seq<Step>, rest: seq<Step>, answer: seq<Action> -> Outcome)
    requires !Completes(p, answer)
    ensures done + Run(p + rest, answer) == done + Run(p, answer)
  {
    RunAppend(p, rest, answer);
    var x := Run(p, answer);
    assert Run(p + rest, answer) == x + [];
  }

  /** A run stops exactly after the first step that aborts. */
  lemma {:induction false} RunStopsAt(plan: seq<Step>, answer: seq<Action> -> Outcome, k: nat)
    requires k < |plan| && Aborts(plan[k], answer) && Completes(plan[..k], answer)
    ensures Run(plan, answer) == Flatten(plan[..k + 1])
    decreases k
  {
    if k == 0 {
      assert plan[..1] == [plan[0]];
      assert Flatten([plan[0]]) == Actions(plan[0]) + Flatten([plan[0]][1..]);
      assert [plan[0]][1..] == [];
    } else {
      assert plan[..k][0] == plan[0];
      assert plan[1..][..k - 1] == plan[..k][1..];
      RunStopsAt(plan[1..], answer, k - 1);
      assert plan[1..][..k] == plan[..k + 1][1..];
    }
  }

  /** Only which steps abort matters, not how the other calls end. */
  lemma {:induction false} RunSameAborts(plan: seq<Step>, a1: seq<Action> -> Outcome, a2: seq<Action> -> Outcome)
    requires forall i :: 0 <= i < |plan| ==> (Aborts(plan[i], a1) <==> Aborts(plan[i], a2))
    ensures Run(plan, a1) == Run(plan, a2)
    decreases |plan|
  {
    if plan != [] {
      forall i | 0 <= i < |plan| - 1 ensures Aborts(plan[1..][i], a1) <==> Aborts(plan[1..][i], a2) {
        assert plan[1..][i] == plan[i + 1];
      }
      RunSameAborts(plan[1..], a1, a2);
    }
  }

  /** When no step before the last one stops the handler, the run issues
      everything the plan holds (a last step issues its actions even when it
      stops the handler). */
  lemma {:induction false} RunNoAborts(plan: seq<Step>, answer: seq<Action> -> Outcome)
    requires forall i :: 0 <= i < |plan| - 1 ==> !Aborts(plan[i], answer)
    ensures Run(plan, answer) == Flatten(plan)
    decreases |plan|
  {
    if |plan| > 1 {
      forall i | 0 <= i < |plan| - 2 ensures !Aborts(plan[1..][i], answer) {
        assert plan[1..][i] == plan[i + 1];
      }
      RunNoAborts(plan[1..], answer);
    } else if |plan| == 1 {
      assert plan[1..] == [];
    }
  }

  /** A plan none of whose steps stops the handler completes. */
  lemma {:induction false} NoAbortsCompletes(plan: seq<Step>, answer: seq<Action> -> Outcome)
    requires forall i :: 0 <= i < |plan| ==> !Aborts(plan[i], answer)
    ensures Completes(plan, answer)
    decreases |plan|
  {
    if plan != [] {
      forall i | 0 <= i < |plan| - 1 ensures !Aborts(plan[1..][i], answer) {
        assert plan[1..][i] == plan[i + 1];
      }
      NoAbortsCompletes(plan[1..], answer);
    }
  }

  lemma FlattenCons(s: Step, rest: seq<Step>)
    ensures Flatten([s] + rest) == Actions(s) + Flatten(rest)
  {
    assert ([s] + rest)[0] == s && ([s] + rest)[1..] == rest;
  }

  lemma {:induction false} FlattenAppend(p: seq<Step>, q: seq<Step>)
    ensures Flatten(p + q) == Flatten(p) + Flatten(q)
    decreases |p|
  {
    if p == [] {
      assert p + q == q;
    } else {
      assert (p + q)[0] == p[0];
      assert (p + q)[1..] == p[1..] + q;
      FlattenAppend(p[1..], q);
    }
  }

  /** The focus invariant: every request to pin the focused window is followed
      by a request to switch back to it. */
  ghost predicate RestoresFocus(t: seq<Action>) {
    forall i :: 0 <= i < |t| && t[i] == RecordWindow ==> exists j :: i < j < |t| && t[j] == SwitchBack
  }

  /** The pointer invariant: every pointer query is followed by a move back to `x`, `y`. */
  ghost predicate RestoresPointer(t: seq<Action>, x: string, y: string) {
    forall i :: 0 <= i < |t| && t[i] == QueryPointer ==> exists j :: i < j < |t| && t[j] == MovePointer(x, y)
  }

  /** The trace neither queries nor moves the pointer. */
  predicate LeavesPointer(t: seq<Action>) {
    forall i :: 0 <= i < |t| ==> !t[i].QueryPointer? && !t[i].MovePointer?
  }

  /** The opening of every lookup: pin the focused window, open `url`, wait a
      second. `recordAborts` and `openAborts` are the outcomes that end the
      handler at the first two steps. */
  function OpenSteps(url: string, recordAborts: set<Outcome>, openAborts: set<Outcome>): seq<Step> {
    [External([RecordWindow], recordAborts), External([OpenUrl(url)], openAborts), Internal(Sleep(1))]
  }

  /** The slow path: for a word of two or more tokens (under `sp`), the
      activate-and-press script, ended by `aborts`, then a seven-second wait. */
  function SlowSteps(sp: Spaces, word: string, aborts: set<Outcome>): seq<Step> {
    if WordCount(sp, word) >= 2 then [External(SlowPathScript, aborts), Internal(Sleep(7))] else []
  }

  /** What the slow path issues when nothing stops it. */
  function SlowActions(sp: Spaces, word: string): seq<Action> {
    if WordCount(sp, word) >= 2 then SlowPathScript + [Sleep(7)] else []
  }

  lemma FlattenOpenSteps(url: string, recordAborts: set<Outcome>, openAborts: set<Outcome>)
    ensures Flatten(OpenSteps(url, recordAborts, openAborts)) == [RecordWindow, OpenUrl(url), Sleep(1)]
  {
    var open := External([OpenUrl(url)], openAborts);
    FlattenCons(External([RecordWindow], recordAborts), [open, Internal(Sleep(1))]);
    FlattenCons(open, [Internal(Sleep(1))]);
    FlattenCons(Internal(Sleep(1)), []);
  }

  lemma FlattenSlowSteps(sp: Spaces, word: string, aborts: set<Outcome>)
    ensures Flatten(SlowSteps(sp, word, aborts)) == SlowActions(sp, word)
  {
    if WordCount(sp, word) >= 2 {
      FlattenCons(External(SlowPathScript, aborts), [Internal(Sleep(7))]);
      FlattenCons(Internal(Sleep(7)), []);
    }
  }

  /** The trace of a lookup that no step stops and that leaves the pointer
      alone: pin, open, wait, the slow path when `word` has two or more tokens
      under `sp`, switch back, answer 200. */
  function Completed(sp: Spaces, word: string, url: string): seq<Action> {
    [RecordWindow, OpenUrl(url), Sleep(1)]
    + (SlowActions(sp, word) + [SwitchBack, Respond(200, "text/html", Converted)])
  }

  /** A completed lookup gives focus back after pinning it. */
  lemma CompletedRestoresFocus(sp: Spaces, word: string, url: string)
    ensures RestoresFocus(Completed(sp, word, url))
  {
    var t := Completed(sp, word, url);
    assert t[|t| - 2] == SwitchBack;
    forall i | 0 <= i < |t| && t[i] == RecordWindow ensures exists j :: i < j < |t| && t[j] == SwitchBack {
      assert i < |t| - 2;
    }
  }

  /** A completed lookup never queries or moves the pointer. */
  lemma CompletedLeavesPointer(sp: Spaces, word: string, url: string)
    ensures LeavesPointer(Completed(sp, word, url))
  {
  }

  /** The desktop and the HTTP connection of one request, as the handlers see them. */
  class Env {
    /** Everything issued so far, in order. */
    var trace: seq<Action>
    /** How the outside world ends each external call. */
    const answer: seq<Action> -> Outcome
    /** What the pointer query prints when it succeeds. */
    const pointerReport: string

    constructor (answer: seq<Action> -> Outcome, pointerReport: string)
      ensures trace == [] && this.answer == answer && this.pointerReport == pointerReport
    {
      trace := [];
      this.answer := answer;
      this.pointerReport := pointerReport;
    }

    /** Issues one external call that asks for `actions`. */
    method Call(actions: seq<Action>) returns (o: Outcome)
      modifies this
      ensures trace == old(trace) + actions && o == answer(actions)
    {
      trace := trace + actions;
      o := answer(actions);
    }

    /** Runs the pointer query; what it printed is read only when it succeeded. */
    method AskPointer() returns (o: Outcome, report: string)
      modifies this
      ensures trace == old(trace) + [QueryPointer] && o == answer([QueryPointer])
      ensures o == Done ==> report == pointerReport
    {
      trace := trace + [QueryPointer];
      o := answer([QueryPointer]);
      report := pointerReport;
    }

    method Pause(seconds: nat)
      modifies this
      ensures trace == old(trace) + [Sleep(seconds)]
    {
      trace := trace + [Sleep(seconds)];
    }

    /** Writes the HTTP response (status, content type, body). */
    method Reply(status: nat, contentType: string, body: string)
      modifies this
      ensures trace == old(trace) + [Respond(status, contentType, body)]
    {
      trace := trace + [Respond(status, contentType, body)];
    }
  }
}
