/** The Python server (url_converter.py): `RequestHandler.do_GET` and its
    helpers. An exception raised by a call ends `do_GET` at once; the server
    then closes the connection without a response. */
module PythonServer {
  import opened Options
  import opened Text
  import opened Query
  import opened Desktop

  /** `subprocess.check_output` raises when osascript cannot be started and
      when it exits with a non-zero status. */
  const CheckRaisesOn: set<Outcome> := {Failed, SpawnFailed}
  /** `subprocess.run` without `check=True` raises only when osascript cannot
      be started. */
  const RunRaisesOn: set<Outcome> := {SpawnFailed}
  /** `webbrowser.open` reports failure by returning False, which is discarded. */
  const OpenRaisesOn: set<Outcome> := {}

  const CaptureStep: Step := External([QueryPointer], CheckRaisesOn)
  const RecordStep: Step := External([RecordWindow], RunRaisesOn)
  const SlowPathStep: Step := External(SlowPathScript, RunRaisesOn)
  const SwitchBackStep: Step := External([SwitchBack], RunRaisesOn)
  const BadRequest: Action := Respond(400, "text/html", MissingText)
  const Accepted: Action := Respond(200, "text/html", Converted)

  function OpenStep(url: string): Step {
    External([OpenUrl(url)], OpenRaisesOn)
  }

  /** `parse_qs(query).get('text', [''])[0]`: `parse_qs` drops blank values, so
      this is the first non-empty `text` value, or "" when there is none. */
  function QueryText(pairs: seq<Pair>): (word: string)
    ensures word == "" <==> forall i :: 0 <= i < |pairs| && pairs[i].0 == "text" ==> pairs[i].1 == ""
    ensures word != "" ==> exists i :: FirstFilledAt(pairs, "text", i) && pairs[i].1 == word
  {
    DropBlankThenFirst(pairs, "text");
    match FirstValue(DropBlank(pairs), "text")
    case None => ""
    case Some(v) => v
  }

  /** Line 52 of `get_mouse_position` as written: the osascript output,
      stripped, split on single spaces. */
  function CaptureFields(report: string): (position: seq<string>)
    ensures |position| >= 1 && forall i :: 0 <= i < |position| ==> ' ' !in position[i]
  {
    SplitOn(Strip(PythonWhitespace, report), ' ')
  }

  /** The pointer position the capture evidently means to hand back: the
      stripped output split at the comma osascript puts between the two
      coordinates of the returned list, each coordinate stripped. */
  function CapturePoint(report: string): seq<string> {
    StripEach(PythonWhitespace, SplitOn(Strip(PythonWhitespace, report), ','))
  }

  /** The step `restore_mouse_position(position)` takes: `position[0]` and
      `position[1]` raise IndexError when the position has fewer than two parts. */
  function RestoreStep(position: seq<string>): (s: Step)
    ensures Actions(s) == if |position| >= 2 then [MovePointer(position[0], position[1])] else []
    ensures |position| < 2 ==> forall answer :: Aborts(s, answer)
    ensures |position| >= 2 ==> forall answer :: Aborts(s, answer) <==> answer(Actions(s)) == SpawnFailed
  {
    if |position| >= 2 then External([MovePointer(position[0], position[1])], RunRaisesOn) else Crash
  }

  /** `do_GET`, as the steps it would take when the pointer query prints
      `report`: every plan ends by writing a response, the 400 exactly for a
      blank word, and a lookup queries the pointer before anything else and
      hands line 52's split of the report to the restore. */
  function Plan(word: string, quote: string -> string, report: string): (r: seq<Step>)
    ensures |r| >= 1 && r[|r| - 1] == (if word == "" then Internal(BadRequest) else Internal(Accepted))
    ensures word != "" ==> r[0] == CaptureStep && RestoreStep(CaptureFields(report)) in r
  {
    if word == "" then [Internal(BadRequest)]
    else
      var position := CaptureFields(report);
      var r := LookupPlan(word, LookupPrefix + quote(word), position);
      assert r[|r| - 2] == RestoreStep(position);
      r
  }

  /** The steps for a non-empty `word` whose EasyDict URL is `url`, the pointer
      having been captured as `position`. */
  function LookupPlan(word: string, url: string, position: seq<string>): seq<Step> {
    [CaptureStep] + AfterCapture(word, url, position)
  }

  function AfterCapture(word: string, url: string, position: seq<string>): seq<Step> {
    OpenPlan(url) + SlowPath(word) + FinishPlan(position)
  }

  /** Lines 22-25: pin the window, open the URL, wait a second. */
  function OpenPlan(url: string): seq<Step> {
    OpenSteps(url, RunRaisesOn, OpenRaisesOn)
  }

  /** Lines 27-29: the slow path for two or more words (`str.split()` tokens). */
  function SlowPath(word: string): seq<Step> {
    SlowSteps(PythonWhitespace, word, RunRaisesOn)
  }

  /** Lines 31-37: switch back, put the pointer back, answer 200. */
  function FinishPlan(position: seq<string>): seq<Step> {
    [SwitchBackStep, RestoreStep(position), Internal(Accepted)]
  }

  /** `get_mouse_position`: the position, line 52's split of what the query
      printed, is only there when the query succeeded. */
  method GetMousePosition(env: Env) returns (raised: bool, position: seq<string>)
    modifies env
    ensures env.trace == old(env.trace) + [QueryPointer]
    ensures raised == Aborts(CaptureStep, env.answer)
    ensures !raised ==> position == CaptureFields(env.pointerReport)
  {
    var o, report := env.AskPointer();
    raised := o in CheckRaisesOn;
    position := if raised then [] else CaptureFields(report);
  }

  /** `record_current_window`. */
  method RecordCurrentWindow(env: Env) returns (raised: bool)
    modifies env
    ensures env.trace == old(env.trace) + [RecordWindow]
    ensures raised == Aborts(RecordStep, env.answer)
  {
    var o := env.Call([RecordWindow]);
    raised := o in RunRaisesOn;
  }

  /** `handle_special_cases`. */
  method HandleSpecialCases(env: Env) returns (raised: bool)
    modifies env
    ensures env.trace == old(env.trace) + SlowPathScript
    ensures raised == Aborts(SlowPathStep, env.answer)
  {
    var o := env.Call(SlowPathScript);
    raised := o in RunRaisesOn;
  }

  /** `switch_back_to_previous_window`. */
  method SwitchBackToPreviousWindow(env: Env) returns (raised: bool)
    modifies env
    ensures env.trace == old(env.trace) + [SwitchBack]
    ensures raised == Aborts(SwitchBackStep, env.answer)
  {
    var o := env.Call([SwitchBack]);
    raised := o in RunRaisesOn;
  }

  /** `restore_mouse_position(position)`. */
  method RestoreMousePosition(env: Env, position: seq<string>) returns (raised: bool)
    modifies env
    ensures env.trace == old(env.trace) + Actions(RestoreStep(position))
    ensures raised == Aborts(RestoreStep(position), env.answer)
  {
    if |position| < 2 {
      raised := true;
      return;
    }
    var o := env.Call([MovePointer(position[0], position[1])]);
    raised := o in RunRaisesOn;
  }

  /** Lines 22-25 of `do_GET`. */
  method OpenLookup(env: Env, url: string) returns (raised: bool)
    modifies env
    ensures env.trace == old(env.trace) + Run(OpenPlan(url), env.answer)
    ensures raised <==> !Completes(OpenPlan(url), env.answer)
  {
    ghost var a := env.answer;
    ghost var before := env.trace;
    raised := RecordCurrentWindow(env);
    if raised { RunStopStep(before, RecordStep, [OpenStep(url), Internal(Sleep(1))], a); return; }
    RunPastStep(before, RecordStep, [OpenStep(url), Internal(Sleep(1))], a);
    before := env.trace;
    var ignored := env.Call([OpenUrl(url)]);
    RunPastStep(before, OpenStep(url), [Internal(Sleep(1))], a);
    before := env.trace;
    env.Pause(1);
    RunPastStep(before, Internal(Sleep(1)), [], a);
  }

  /** The `if len(word.split()) >= 2` block of `do_GET`. */
  method SlowPathIfNeeded(env: Env, word: string) returns (raised: bool)
    modifies env
    ensures env.trace == old(env.trace) + Run(SlowPath(word), env.answer)
    ensures raised <==> !Completes(SlowPath(word), env.answer)
  {
    raised := false;
    if WordCount(PythonWhitespace, word) >= 2 {
      ghost var a := env.answer;
      RunCons(SlowPathStep, [Internal(Sleep(7))], a);
      RunCons(Internal(Sleep(7)), [], a);
      raised := HandleSpecialCases(env);
      if raised { return; }
      env.Pause(7);
    }
  }

  /** Lines 31-37 of `do_GET`. */
  method FinishLookup(env: Env, position: seq<string>)
    modifies env
    ensures env.trace == old(env.trace) + Run(FinishPlan(position), env.answer)
  {
    ghost var a := env.answer;
    ghost var rest := [RestoreStep(position), Internal(Accepted)];
    ghost var before := env.trace;
    var raised := SwitchBackToPreviousWindow(env);
    if raised { RunStopStep(before, SwitchBackStep, rest, a); return; }
    RunPastStep(before, SwitchBackStep, rest, a);
    before := env.trace;
    raised := RestoreMousePosition(env, position);
    if raised { RunStopStep(before, RestoreStep(position), [Internal(Accepted)], a); return; }
    RunPastStep(before, RestoreStep(position), [Internal(Accepted)], a);
    before := env.trace;
    env.Reply(200, "text/html", Converted);
    RunPastStep(before, Internal(Accepted), [], a);
  }

  /** Lines 22-37 of `do_GET`: everything after the pointer was captured as `position`. */
  method ContinueLookup(env: Env, word: string, url: string, position: seq<string>)
    modifies env
    ensures env.trace == old(env.trace) + Run(AfterCapture(word, url, position), env.answer)
  {
    ghost var a := env.answer;
    ghost var rest := SlowPath(word) + FinishPlan(position);
    assert AfterCapture(word, url, position) == OpenPlan(url) + rest;
    ghost var before := env.trace;
    var raised := OpenLookup(env, url);
    if raised { RunStopPlan(before, OpenPlan(url), rest, a); return; }
    RunPastPlan(before, OpenPlan(url), rest, a);
    before := env.trace;
    raised := SlowPathIfNeeded(env, word);
    if raised { RunStopPlan(before, SlowPath(word), FinishPlan(position), a); return; }
    RunPastPlan(before, SlowPath(word), FinishPlan(position), a);
    FinishLookup(env, position);
  }

  /** Lines 20-37 of `do_GET`, for a non-empty word. */
  method Lookup(env: Env, word: string, url: string)
    modifies env
    ensures env.trace == old(env.trace) + Run(LookupPlan(word, url, CaptureFields(env.pointerReport)), env.answer)
  {
    ghost var a := env.answer;
    ghost var after := AfterCapture(word, url, CaptureFields(env.pointerReport));
    ghost var before := env.trace;
    var raised, position := GetMousePosition(env);
    if raised { RunStopStep(before, CaptureStep, after, a); return; }
    RunPastStep(before, CaptureStep, after, a);
    ContinueLookup(env, word, url, position);
  }

  /** `do_GET` on a request whose query holds `pairs` (percent-decoded, blank
      values included); `quote` is `urllib.parse.quote`. */
  method DoGet(env: Env, pairs: seq<Pair>, quote: string -> string)
    modifies env
    ensures env.trace == old(env.trace) + Run(Plan(QueryText(pairs), quote, env.pointerReport), env.answer)
  {
    var word := QueryText(pairs);
    if word == "" {
      env.Reply(400, "text/html", MissingText);
      return;
    }
    var encoded := quote(word);
    Lookup(env, word, LookupPrefix + encoded);
  }

  /** A request without a non-empty `text` value is answered 400 and nothing
      else happens. */
  lemma BlankTextOnlyResponds(quote: string -> string, report: string, answer: seq<Action> -> Outcome)
    ensures Run(Plan("", quote, report), answer) == [Respond(400, "text/html", MissingText)]
  {
  }

  /** The pointer is queried before anything else, and a failed query ends the
      handler before any window is touched. */
  lemma CaptureComesFirst(word: string, url: string, position: seq<string>, answer: seq<Action> -> Outcome)
    ensures |Run(LookupPlan(word, url, position), answer)| >= 1
    ensures Run(LookupPlan(word, url, position), answer)[0] == QueryPointer
    ensures answer([QueryPointer]) != Done ==> Run(LookupPlan(word, url, position), answer) == [QueryPointer]
  {
    RunCons(CaptureStep, AfterCapture(word, url, position), answer);
  }

  /** The steps up to the switch back, in order. */
  function SwitchedBack(word: string, url: string): seq<Action> {
    [QueryPointer]
    + ([RecordWindow, OpenUrl(url), Sleep(1)]
       + (SlowActions(PythonWhitespace, word) + [SwitchBack]))
  }

  /** Everything before the pointer restore, as steps. */
  function BeforeRestore(word: string, url: string): seq<Step> {
    [CaptureStep] + (OpenPlan(url) + (SlowPath(word) + [SwitchBackStep]))
  }

  lemma FlattenBeforeRestore(word: string, url: string)
    ensures Flatten(BeforeRestore(word, url)) == SwitchedBack(word, url)
  {
    FlattenCons(CaptureStep, OpenPlan(url) + (SlowPath(word) + [SwitchBackStep]));
    FlattenAppend(OpenPlan(url), SlowPath(word) + [SwitchBackStep]);
    FlattenAppend(SlowPath(word), [SwitchBackStep]);
    FlattenCons(SwitchBackStep, []);
    FlattenOpenSteps(url, RunRaisesOn, OpenRaisesOn);
    FlattenSlowSteps(PythonWhitespace, word, RunRaisesOn);
  }

  /** With the pointer captured and every osascript process started, the steps
      up to the switch back all run, whatever the scripts and the browser report. */
  lemma RunBeforeRestore(word: string, url: string, answer: seq<Action> -> Outcome)
    requires answer([QueryPointer]) == Done && answer([RecordWindow]) != SpawnFailed
    requires WordCount(PythonWhitespace, word) >= 2 ==> answer(SlowPathScript) != SpawnFailed
    requires answer([SwitchBack]) != SpawnFailed
    ensures Completes(BeforeRestore(word, url), answer)
    ensures Run(BeforeRestore(word, url), answer) == SwitchedBack(word, url)
  {
    var plan := BeforeRestore(word, url);
    assert plan == [CaptureStep, RecordStep, OpenStep(url), Internal(Sleep(1))] + SlowPath(word) + [SwitchBackStep];
    forall i | 0 <= i < |plan| ensures !Aborts(plan[i], answer) {
      if 4 <= i < 4 + |SlowPath(word)| {
        assert plan[i] == SlowPath(word)[i - 4];
      }
    }
    NoAbortsCompletes(plan, answer);
    RunNoAborts(plan, answer);
    FlattenBeforeRestore(word, url);
  }

  /** A non-empty word whose pointer query succeeds: when no osascript process
      fails to start, the window is pinned, the URL opened, focus switched back
      and the pointer moved back to the captured position, in that order; the
      200 response follows. A position with fewer than two parts raises
      IndexError after the switch back, and no response is written. */
  lemma LookupWithoutRaise(word: string, url: string, position: seq<string>, answer: seq<Action> -> Outcome)
    requires answer([QueryPointer]) == Done && answer([RecordWindow]) != SpawnFailed
    requires WordCount(PythonWhitespace, word) >= 2 ==> answer(SlowPathScript) != SpawnFailed
    requires answer([SwitchBack]) != SpawnFailed
    requires |position| >= 2 ==> answer([MovePointer(position[0], position[1])]) != SpawnFailed
    ensures Run(LookupPlan(word, url, position), answer)
         == SwitchedBack(word, url)
            + (if |position| >= 2 then [MovePointer(position[0], position[1]), Respond(200, "text/html", Converted)] else [])
  {
    var pre := BeforeRestore(word, url);
    var post := [RestoreStep(position), Internal(Accepted)];
    assert LookupPlan(word, url, position) == [CaptureStep] + OpenPlan(url) + SlowPath(word) + FinishPlan(position);
    assert LookupPlan(word, url, position) == pre + post;
    RunBeforeRestore(word, url, answer);
    RunAppend(pre, post, answer);
    RunCons(RestoreStep(position), [Internal(Accepted)], answer);
    RunCons(Internal(Accepted), [], answer);
  }

  /** The two invariants of the lookup: the pinned window is switched back to,
      and the pointer is moved back to the captured position. */
  lemma LookupRestores(word: string, url: string, x: string, y: string)
    ensures RestoresFocus(SwitchedBack(word, url) + [MovePointer(x, y), Respond(200, "text/html", Converted)])
    ensures RestoresPointer(SwitchedBack(word, url) + [MovePointer(x, y), Respond(200, "text/html", Converted)], x, y)
  {
    var t := SwitchedBack(word, url) + [MovePointer(x, y), Respond(200, "text/html", Converted)];
    var n := |t|;
    assert t[n - 3] == SwitchBack && t[n - 2] == MovePointer(x, y);
    forall i | 0 <= i < n && t[i] == RecordWindow ensures exists j :: i < j < n && t[j] == SwitchBack {
      assert i < n - 3;
    }
    forall i | 0 <= i < n && t[i] == QueryPointer ensures exists j :: i < j < n && t[j] == MovePointer(x, y) {
      assert i < n - 2;
    }
  }

  /** Once the pointer is captured, only a process that cannot be started
      changes what happens: a script or browser reporting failure is ignored. */
  lemma OnlySpawnFailuresMatter(word: string, url: string, position: seq<string>, a1: seq<Action> -> Outcome, a2: seq<Action> -> Outcome)
    requires a1([QueryPointer]) == a2([QueryPointer])
    requires forall acts :: a1(acts) == SpawnFailed <==> a2(acts) == SpawnFailed
    ensures Run(LookupPlan(word, url, position), a1) == Run(LookupPlan(word, url, position), a2)
  {
    var plan := LookupPlan(word, url, position);
    forall i | 0 <= i < |plan| ensures Aborts(plan[i], a1) <==> Aborts(plan[i], a2) {
      if 4 <= i < 4 + |SlowPath(word)| {
        assert plan[i] == SlowPath(word)[i - 4];
      }
    }
    RunSameAborts(plan, a1, a2);
  }

  /** Stripping the osascript output "x, y" and its line feed. */
  lemma StripReport(x: string, y: string)
    requires x != [] && !IsSpace(PythonWhitespace, x[0])
    requires y != [] && !IsSpace(PythonWhitespace, y[|y| - 1])
    ensures Strip(PythonWhitespace, x + ", " + y + "\n") == x + ", " + y
  {
    var body := x + ", " + y;
    assert x + ", " + y + "\n" == [] + body + "\n";
    assert body[0] == x[0] && body[|body| - 1] == y[|y| - 1];
    StripPadded(PythonWhitespace, [], body, "\n");
  }

  /** As written, the capture keeps the comma osascript prints after the first
      coordinate: for the output "x, y" the restore is handed "x," and "y". */
  lemma CaptureFieldsKeepsComma(x: string, y: string)
    requires x != [] && NoSpace(PythonWhitespace, x)
    requires y != [] && NoSpace(PythonWhitespace, y)
    ensures CaptureFields(x + ", " + y + "\n") == [x + ",", y]
    ensures CaptureFields(x + ", " + y + "\n")[0] != x
  {
    StripReport(x, y);
    NoSpaceNoBlank(PythonWhitespace, x);
    NoSpaceNoBlank(PythonWhitespace, y);
    var x' := x + ",";
    assert ' ' !in x' by {
      forall i | 0 <= i < |x'| ensures x'[i] != ' ' {
        if i < |x| { assert x'[i] == x[i]; }
      }
    }
    assert x + ", " + y == x' + [' '] + y;
    SplitTwo(x', y, ' ');
    assert |x'| != |x|;
  }

  /** Stripping leaves a coordinate alone. */
  lemma StripCoordinate(x: string)
    requires x != [] && !IsSpace(PythonWhitespace, x[0]) && !IsSpace(PythonWhitespace, x[|x| - 1])
    ensures Strip(PythonWhitespace, x) == x
  {
    assert x == [] + x + [];
    StripPadded(PythonWhitespace, [], x, []);
  }

  /** Stripping drops the blank osascript puts before the second coordinate. */
  lemma StripLeadingBlank(y: string)
    requires y != [] && !IsSpace(PythonWhitespace, y[0]) && !IsSpace(PythonWhitespace, y[|y| - 1])
    ensures Strip(PythonWhitespace, " " + y) == y
  {
    assert " " + y == " " + y + [];
    assert AllSpace(PythonWhitespace, " ");
    StripPadded(PythonWhitespace, " ", y, []);
  }

  /** The corrected capture hands back both coordinates exactly. */
  lemma CapturePointRoundTrip(x: string, y: string)
    requires x != [] && !IsSpace(PythonWhitespace, x[0]) && !IsSpace(PythonWhitespace, x[|x| - 1]) && ',' !in x
    requires y != [] && !IsSpace(PythonWhitespace, y[0]) && !IsSpace(PythonWhitespace, y[|y| - 1]) && ',' !in y
    ensures CapturePoint(x + ", " + y + "\n") == [x, y]
  {
    StripReport(x, y);
    var y' := " " + y;
    assert ',' !in y';
    assert x + ", " + y == x + [','] + y';
    SplitTwo(x, y', ',');
    StripEachTwo(PythonWhitespace, x, y');
    StripCoordinate(x);
    StripLeadingBlank(y);
  }

  /** As written, a lookup whose pointer query prints "x, y" moves the pointer
      to "x," and "y": the restore never puts the pointer back at `x`, `y`. */
  lemma AsWrittenMovesToComma(word: string, url: string, x: string, y: string, answer: seq<Action> -> Outcome)
    requires x != [] && NoSpace(PythonWhitespace, x)
    requires y != [] && NoSpace(PythonWhitespace, y)
    requires answer([QueryPointer]) == Done && answer([RecordWindow]) != SpawnFailed
    requires WordCount(PythonWhitespace, word) >= 2 ==> answer(SlowPathScript) != SpawnFailed
    requires answer([SwitchBack]) != SpawnFailed && answer([MovePointer(x + ",", y)]) != SpawnFailed
    ensures Run(LookupPlan(word, url, CaptureFields(x + ", " + y + "\n")), answer)
         == SwitchedBack(word, url) + [MovePointer(x + ",", y), Respond(200, "text/html", Converted)]
    ensures MovePointer(x, y) !in Run(LookupPlan(word, url, CaptureFields(x + ", " + y + "\n")), answer)
  {
    CaptureFieldsKeepsComma(x, y);
    LookupWithoutRaise(word, url, [x + ",", y], answer);
    NeverMovedBack(word, url, x, y);
  }

  /** The pointer move to "x," is not a move to `x`, and nothing before it moves the pointer. */
  lemma NeverMovedBack(word: string, url: string, x: string, y: string)
    ensures MovePointer(x, y) !in SwitchedBack(word, url) + [MovePointer(x + ",", y), Respond(200, "text/html", Converted)]
  {
    assert |x + ","| != |x|;
    assert MovePointer(x, y) !in SlowActions(PythonWhitespace, word);
  }

  /** With the corrected capture, the same lookup moves the pointer back to
      exactly `x`, `y`, and so restores it. */
  lemma CorrectedCaptureRestores(word: string, url: string, x: string, y: string, answer: seq<Action> -> Outcome)
    requires x != [] && !IsSpace(PythonWhitespace, x[0]) && !IsSpace(PythonWhitespace, x[|x| - 1]) && ',' !in x
    requires y != [] && !IsSpace(PythonWhitespace, y[0]) && !IsSpace(PythonWhitespace, y[|y| - 1]) && ',' !in y
    requires answer([QueryPointer]) == Done && answer([RecordWindow]) != SpawnFailed
    requires WordCount(PythonWhitespace, word) >= 2 ==> answer(SlowPathScript) != SpawnFailed
    requires answer([SwitchBack]) != SpawnFailed && answer([MovePointer(x, y)]) != SpawnFailed
    ensures Run(LookupPlan(word, url, CapturePoint(x + ", " + y + "\n")), answer)
         == SwitchedBack(word, url) + [MovePointer(x, y), Respond(200, "text/html", Converted)]
    ensures RestoresPointer(Run(LookupPlan(word, url, CapturePoint(x + ", " + y + "\n")), answer), x, y)
  {
    CapturePointRoundTrip(x, y);
    LookupWithoutRaise(word, url, [x, y], answer);
    LookupRestores(word, url, x, y);
  }
}
