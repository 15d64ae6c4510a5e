/** The Rust server (src/main.rs): parsing the request line, and the branch run
    for one connection. Panics (`unwrap`, `expect`) end the handler on the spot. */
module RustServer {
  import opened Options
  import opened Text
  import opened Query
  import opened Desktop

  /** `Command::output().expect(..)` panics only when osascript cannot be started;
      a non-zero exit status is returned, and ignored. */
  const ExpectPanicsOn: set<Outcome> := {SpawnFailed}
  /** `webbrowser::open(..).unwrap()` panics on every error. */
  const UnwrapPanicsOn: set<Outcome> := {Failed, SpawnFailed}

  const RecordStep: Step := External([RecordWindow], ExpectPanicsOn)
  const SlowPathStep: Step := External(SlowPathScript, ExpectPanicsOn)
  const SwitchBackStep: Step := External([SwitchBack], ExpectPanicsOn)
  const BadRequest: Action := Respond(400, "text/html", MissingText)
  const Accepted: Action := Respond(200, "text/html", Converted)

  function OpenStep(url: string): Step {
    External([OpenUrl(url)], UnwrapPanicsOn)
  }

  /** Index of the first line feed of `s`, or `|s|` when there is none. */
  function LineEnd(s: string): (e: nat)
    ensures e <= |s| && '\n' !in s[..e]
    ensures e < |s| ==> s[e] == '\n'
  {
    if s == [] || s[0] == '\n' then 0
    else
      var e := 1 + LineEnd(s[1..]);
      assert s[..e] == [s[0]] + s[1..][..e - 1];
      e
  }

  /** `str::lines().next()`: nothing for the empty string, otherwise the text up
      to the first line feed, without the carriage return of a "\r\n" ending. */
  function FirstLine(request: string): (r: Option<string>)
    ensures r.None? <==> request == []
    ensures r.Some? ==> '\n' !in r.value && r.value <= request
  {
    if request == [] then None
    else
      var e := LineEnd(request);
      if 0 < e < |request| && request[e - 1] == '\r' then
        assert request[..e - 1] == request[..e][..e - 1];
        Some(request[..e - 1])
      else
        Some(request[..e])
  }

  /** `lines().next()?.split_whitespace().nth(1)?`: the second token of the
      first line, missing exactly when there is no line or it has fewer than two
      tokens. */
  function RequestTarget(request: string): (r: Option<string>)
    ensures r.None? <==> request == [] || WordCount(UnicodeWhiteSpace, FirstLine(request).value) < 2
    ensures r.Some? ==> r.value != [] && NoSpace(UnicodeWhiteSpace, r.value)
  {
    match FirstLine(request)
    case None => None
    case Some(line) =>
      var f := Fields(UnicodeWhiteSpace, line);
      if |f| < 2 then None else Some(f[1])
  }

  /** `parse_word_from_request`. `queryPairs` stands for `Url::parse` followed by
      `query_pairs()`: None when the URL does not parse, else the decoded pairs. */
  function ParseWord(request: string, queryPairs: string -> Option<seq<Pair>>): (r: Option<string>)
    ensures request == [] ==> r == None
    ensures request != [] && WordCount(UnicodeWhiteSpace, FirstLine(request).value) < 2 ==> r == None
    ensures r.Some? ==> exists pairs: seq<Pair>, i: int :: queryPairs("http://localhost" + RequestTarget(request).value) == Some(pairs)
                                         && FirstAt(pairs, "text", i) && pairs[i].1 == r.value
  {
    match RequestTarget(request)
    case None => None
    case Some(target) =>
      match queryPairs("http://localhost" + target)
      case None => None
      case Some(pairs) => FirstValue(pairs, "text")
  }

  /** The per-connection branch of `main`, as the steps it would take: every
      plan ends by writing a response, the 400 exactly when no word was parsed,
      and a lookup pins the focused window first. */
  function Plan(word: Option<string>, encode: string -> string): (r: seq<Step>)
    ensures |r| >= 1 && r[|r| - 1] == (if word.None? then Internal(BadRequest) else Internal(Accepted))
    ensures word.Some? ==> r[0] == RecordStep
  {
    match word
    case None => [Internal(BadRequest)]
    case Some(w) => LookupPlan(w, LookupPrefix + encode(w))
  }

  /** The steps taken for a parsed `word` whose EasyDict URL is `url`. */
  function LookupPlan(word: string, url: string): seq<Step> {
    OpenPlan(url) + SlowPath(word) + FinishPlan
  }

  /** The extra steps for a lookup of two or more words. */
  function SlowPath(word: string): seq<Step> {
    SlowSteps(UnicodeWhiteSpace, word, ExpectPanicsOn)
  }

  /** `record_current_window`. */
  method RecordCurrentWindow(env: Env) returns (panicked: bool)
    modifies env
    ensures env.trace == old(env.trace) + [RecordWindow]
    ensures panicked == Aborts(RecordStep, env.answer)
  {
    var o := env.Call([RecordWindow]);
    panicked := o in ExpectPanicsOn;
  }

  /** `handle_special_cases`: one script that activates EasyDict, then presses the keys. */
  method HandleSpecialCases(env: Env) returns (panicked: bool)
    modifies env
    ensures env.trace == old(env.trace) + SlowPathScript
    ensures panicked == Aborts(SlowPathStep, env.answer)
  {
    var o := env.Call(SlowPathScript);
    panicked := o in ExpectPanicsOn;
  }

  /** `switch_back_to_previous_window`. */
  method SwitchBackToPreviousWindow(env: Env) returns (panicked: bool)
    modifies env
    ensures env.trace == old(env.trace) + [SwitchBack]
    ensures panicked == Aborts(SwitchBackStep, env.answer)
  {
    var o := env.Call([SwitchBack]);
    panicked := o in ExpectPanicsOn;
  }

  /** The `if word.split_whitespace().count() >= 2` block of `main`. */
  method SlowPathIfNeeded(env: Env, word: string) returns (panicked: bool)
    modifies env
    ensures env.trace == old(env.trace) + Run(SlowPath(word), env.answer)
    ensures panicked <==> !Completes(SlowPath(word), env.answer)
  {
    panicked := false;
    if WordCount(UnicodeWhiteSpace, word) >= 2 {
      ghost var a := env.answer;
      RunCons(SlowPathStep, [Internal(Sleep(7))], a);
      RunCons(Internal(Sleep(7)), [], a);
      panicked := HandleSpecialCases(env);
      if panicked { return; }
      env.Pause(7);
    }
  }

  /** One connection of `main`, from the decoded request text to the response. */
  method HandleConnection(env: Env, request: string, queryPairs: string -> Option<seq<Pair>>, encode: string -> string)
    modifies env
    ensures env.trace == old(env.trace) + Run(Plan(ParseWord(request, queryPairs), encode), env.answer)
  {
    var word := ParseWord(request, queryPairs);
    if word.None? {
      env.Reply(400, "text/html", MissingText);
      return;
    }
    var encoded := encode(word.value);
    Lookup(env, word.value, LookupPrefix + encoded);
  }

  /** The steps before the word count is looked at. */
  function OpenPlan(url: string): seq<Step> {
    OpenSteps(url, ExpectPanicsOn, UnwrapPanicsOn)
  }

  /** The steps after the slow path. */
  const FinishPlan: seq<Step> := [SwitchBackStep, Internal(Accepted)]

  /** Lines 22-25 of `main`: pin the window, open the URL, wait a second. */
  method OpenLookup(env: Env, url: string) returns (panicked: bool)
    modifies env
    ensures env.trace == old(env.trace) + Run(OpenPlan(url), env.answer)
    ensures panicked <==> !Completes(OpenPlan(url), env.answer)
  {
    ghost var a := env.answer;
    ghost var tail := [OpenStep(url), Internal(Sleep(1))];
    ghost var before := env.trace;
    panicked := RecordCurrentWindow(env);
    if panicked { RunStopStep(before, RecordStep, tail, a); return; }
    RunPastStep(before, RecordStep, tail, a);
    before := env.trace;
    var o := env.Call([OpenUrl(url)]);
    panicked := o in UnwrapPanicsOn;
    if panicked { RunStopStep(before, OpenStep(url), [Internal(Sleep(1))], a); return; }
    RunPastStep(before, OpenStep(url), [Internal(Sleep(1))], a);
    before := env.trace;
    env.Pause(1);
    RunPastStep(before, Internal(Sleep(1)), [], a);
  }

  /** Lines 32-36 of `main`: switch back, then answer 200. */
  method FinishLookup(env: Env)
    modifies env
    ensures env.trace == old(env.trace) + Run(FinishPlan, env.answer)
  {
    ghost var a := env.answer;
    ghost var before := env.trace;
    var panicked := SwitchBackToPreviousWindow(env);
    if panicked { RunStopStep(before, SwitchBackStep, [Internal(Accepted)], a); return; }
    RunPastStep(before, SwitchBackStep, [Internal(Accepted)], a);
    before := env.trace;
    env.Reply(200, "text/html", Converted);
    RunPastStep(before, Internal(Accepted), [], a);
  }

  /** The `Some(word)` branch of `main`. */
  method Lookup(env: Env, word: string, url: string)
    modifies env
    ensures env.trace == old(env.trace) + Run(LookupPlan(word, url), env.answer)
  {
    ghost var a := env.answer;
    ghost var rest := SlowPath(word) + FinishPlan;
    assert LookupPlan(word, url) == OpenPlan(url) + rest;
    ghost var before := env.trace;
    var panicked := OpenLookup(env, url);
    if panicked { RunStopPlan(before, OpenPlan(url), rest, a); return; }
    RunPastPlan(before, OpenPlan(url), rest, a);
    before := env.trace;
    panicked := SlowPathIfNeeded(env, word);
    if panicked { RunStopPlan(before, SlowPath(word), FinishPlan, a); return; }
    RunPastPlan(before, SlowPath(word), FinishPlan, a);
    FinishLookup(env);
  }

  lemma {:induction false} LineEndAt(a: string, b: string)
    requires '\n' !in a && (b == [] || b[0] == '\n')
    ensures LineEnd(a + b) == |a|
    decreases |a|
  {
    if a == [] {
      assert a + b == b;
    } else {
      assert (a + b)[0] == a[0];
      assert (a + b)[1..] == a[1..] + b;
      LineEndAt(a[1..], b);
    }
  }

  /** The first line of `line + rest`, where `rest` is empty or starts at the first line feed. */
  lemma FirstLineAt(line: string, rest: string)
    requires line != [] && '\n' !in line
    requires rest == [] || rest[0] == '\n'
    ensures FirstLine(line + rest)
         == Some(if rest != [] && line[|line| - 1] == '\r' then line[..|line| - 1] else line)
  {
    LineEndAt(line, rest);
    assert (line + rest)[..|line|] == line;
    if rest != [] && line[|line| - 1] == '\r' {
      assert (line + rest)[..|line| - 1] == line[..|line| - 1];
    }
  }

  lemma LineShape(m: string, p: string, t: string, v: string)
    ensures m + p + t + v == m + (p + (t + v))
  {
  }

  /** The second field of `m p t v`, with a whitespace run `p`, is `t`. */
  lemma SecondField(m: string, p: string, t: string, v: string)
    requires m != [] && NoSpace(UnicodeWhiteSpace, m)
    requires p != [] && AllSpace(UnicodeWhiteSpace, p)
    requires t != [] && NoSpace(UnicodeWhiteSpace, t)
    requires v == [] || IsSpace(UnicodeWhiteSpace, v[0])
    ensures |Fields(UnicodeWhiteSpace, m + (p + (t + v)))| >= 2
    ensures Fields(UnicodeWhiteSpace, m + (p + (t + v)))[1] == t
  {
    var sp := UnicodeWhiteSpace;
    var a := t + v;
    var b := p + a;
    assert b[0] == p[0];
    FieldsAfterWord(sp, m, b);
    FieldsDropLeadingBlank(sp, p, a);
    FieldsAfterWord(sp, t, v);
    SecondOf(Fields(sp, m + b), m, Fields(sp, b), t, Fields(sp, v));
  }

  lemma SecondOf(r: seq<string>, m: string, rb: seq<string>, t: string, f: seq<string>)
    requires r == [m] + rb && rb == [t] + f
    ensures |r| >= 2 && r[1] == t
  {
  }

  lemma NoFeedInLine(m: string, p: string, t: string, v: string)
    requires NoSpace(UnicodeWhiteSpace, m) && NoSpace(UnicodeWhiteSpace, t)
    requires '\n' !in p && '\n' !in v
    ensures '\n' !in m + p + t + v
  {
    var line := m + p + t + v;
    assert IsSpace(UnicodeWhiteSpace, '\n');
    forall i | 0 <= i < |line| ensures line[i] != '\n' {
      if i < |m| { assert line[i] == m[i]; }
      else if i < |m| + |p| { assert line[i] == p[i - |m|]; }
      else if i < |m| + |p| + |t| { assert line[i] == t[i - |m| - |p|]; }
      else { assert line[i] == v[i - |m| - |p| - |t|]; }
    }
  }

  /** Only the second token of the first line is used: for a request line
      `m p t v` (method token, a run `p` of whitespace other than a line feed,
      target, then nothing or whitespace-led rest such as the version),
      followed by anything from the first line feed on, the target is `t`,
      whatever `m`, `p`, `v` and the later lines are. */
  lemma RequestTargetIsSecondToken(m: string, p: string, t: string, v: string, rest: string)
    requires m != [] && NoSpace(UnicodeWhiteSpace, m)
    requires p != [] && AllSpace(UnicodeWhiteSpace, p) && '\n' !in p
    requires t != [] && NoSpace(UnicodeWhiteSpace, t)
    requires (v == [] || IsSpace(UnicodeWhiteSpace, v[0])) && '\n' !in v
    requires rest == [] || rest[0] == '\n'
    ensures RequestTarget(m + p + t + v + rest) == Some(t)
  {
    var line := m + p + t + v;
    NoFeedInLine(m, p, t, v);
    FirstLineAt(line, rest);
    if rest != [] && line[|line| - 1] == '\r' {
      assert IsSpace(UnicodeWhiteSpace, '\r');
      var mt := m + p + t;
      assert mt[|mt| - 1] == t[|t| - 1];
      assert v != [];
      var v' := v[..|v| - 1];
      assert line[..|line| - 1] == m + p + t + v';
      LineShape(m, p, t, v');
      SecondField(m, p, t, v');
    } else {
      LineShape(m, p, t, v);
      SecondField(m, p, t, v);
    }
  }

  /** Among the query pairs, the first one named "text" decides: its value when
      there is one, None otherwise. */
  lemma ParseWordIsFirstText(request: string, queryPairs: string -> Option<seq<Pair>>, target: string, pairs: seq<Pair>)
    requires RequestTarget(request) == Some(target)
    requires queryPairs("http://localhost" + target) == Some(pairs)
    ensures (forall i :: 0 <= i < |pairs| ==> pairs[i].0 != "text") <==> ParseWord(request, queryPairs).None?
    ensures forall i :: FirstAt(pairs, "text", i) ==> ParseWord(request, queryPairs) == Some(pairs[i].1)
  {
    forall i | FirstAt(pairs, "text", i) ensures ParseWord(request, queryPairs) == Some(pairs[i].1) {
      var r := FirstValue(pairs, "text");
      var k :| FirstAt(pairs, "text", k) && pairs[k].1 == r.value;
      assert !(k < i) && !(i < k);
    }
  }

  /** A URL that does not parse is a bad request. */
  lemma UnparsableTargetIsRejected(request: string, queryPairs: string -> Option<seq<Pair>>, target: string)
    requires RequestTarget(request) == Some(target)
    requires queryPairs("http://localhost" + target) == None
    ensures ParseWord(request, queryPairs) == None
  {
  }

  /** A bad request is answered with the 400 response and nothing else. */
  lemma BadRequestOnlyResponds(encode: string -> string, answer: seq<Action> -> Outcome)
    ensures Run(Plan(None, encode), answer) == [Respond(400, "text/html", MissingText)]
  {
  }

  /** The slow path is taken exactly when the word has a gap: a whitespace run
      with a token on each side. */
  lemma SlowPathIffGap(word: string)
    ensures SlowPath(word) != [] <==> HasGap(UnicodeWhiteSpace, word)
  {
    TwoFieldsIffGap(UnicodeWhiteSpace, word);
  }

  /** Whitespace around a single token does not lead to the slow path. */
  lemma PaddedWordTakesShortPath(p: string, w: string, q: string)
    requires AllSpace(UnicodeWhiteSpace, p) && AllSpace(UnicodeWhiteSpace, q)
    requires w != [] && NoSpace(UnicodeWhiteSpace, w)
    ensures SlowPath(p + w + q) == []
  {
    PaddedWordCount(UnicodeWhiteSpace, p, w, q);
  }

  /** An empty `text` value is accepted: it takes the short path and is answered 200. */
  lemma EmptyWordIsAccepted(encode: string -> string)
    ensures Plan(Some(""), encode)
         == [RecordStep, OpenStep(LookupPrefix + encode("")), Internal(Sleep(1)), SwitchBackStep, Internal(Respond(200, "text/html", Converted))]
  {
    assert Fields(UnicodeWhiteSpace, "") == [];
  }

  /** A request for `/?text=` parses to the empty word when the URL library
      reads that query as one pair with an empty value, whatever the method,
      the version and the later lines. */
  lemma EmptyTextParses(m: string, v: string, rest: string, queryPairs: string -> Option<seq<Pair>>)
    requires m != [] && NoSpace(UnicodeWhiteSpace, m)
    requires (v == [] || IsSpace(UnicodeWhiteSpace, v[0])) && '\n' !in v
    requires rest == [] || rest[0] == '\n'
    requires queryPairs("http://localhost/?text=") == Some([("text", "")])
    ensures ParseWord(m + " /?text=" + v + rest, queryPairs) == Some("")
  {
    var t := "/?text=";
    var request := m + " /?text=" + v + rest;
    EmptyTextTarget();
    EmptyTextRequest(m, v, rest);
    assert AllSpace(UnicodeWhiteSpace, " ") && '\n' !in " ";
    RequestTargetIsSecondToken(m, " ", t, v, rest);
    TextPairParses(request, queryPairs, t);
  }

  lemma EmptyTextRequest(m: string, v: string, rest: string)
    ensures m + " /?text=" + v + rest == m + " " + "/?text=" + v + rest
    ensures "http://localhost" + "/?text=" == "http://localhost/?text="
  {
  }

  /** A target the URL library reads as one `text` pair with an empty value
      gives the empty word. */
  lemma TextPairParses(request: string, queryPairs: string -> Option<seq<Pair>>, t: string)
    requires RequestTarget(request) == Some(t)
    requires queryPairs("http://localhost" + t) == Some([("text", "")])
    ensures ParseWord(request, queryPairs) == Some("")
  {
    assert FirstAt([("text", "")], "text", 0);
  }

  lemma EmptyTextTarget()
    ensures "/?text=" != [] && NoSpace(UnicodeWhiteSpace, "/?text=")
  {
    var t := "/?text=";
    forall i | 0 <= i < |t| ensures !IsSpace(UnicodeWhiteSpace, t[i]) { }
  }


  /** Everything a lookup plans, with no step cut short. */
  lemma FlattenLookupPlan(word: string, url: string)
    ensures Flatten(LookupPlan(word, url)) == Completed(UnicodeWhiteSpace, word, url)
  {
    FlattenAppend(OpenPlan(url) + SlowPath(word), FinishPlan);
    FlattenAppend(OpenPlan(url), SlowPath(word));
    FlattenOpenSteps(url, ExpectPanicsOn, UnwrapPanicsOn);
    FlattenSlowSteps(UnicodeWhiteSpace, word, ExpectPanicsOn);
    FlattenFinishPlan();
  }

  lemma FlattenFinishPlan()
    ensures Flatten(FinishPlan) == [SwitchBack, Respond(200, "text/html", Converted)]
  {
    FlattenCons(SwitchBackStep, [Internal(Accepted)]);
    FlattenCons(Internal(Accepted), []);
  }

  /** No osascript spawn fails and the browser opens the URL: every step is
      issued in order, and focus is given back. */
  lemma LookupWithoutPanic(word: string, url: string, answer: seq<Action> -> Outcome)
    requires answer([RecordWindow]) != SpawnFailed && answer([OpenUrl(url)]) == Done
    requires WordCount(UnicodeWhiteSpace, word) >= 2 ==> answer(SlowPathScript) != SpawnFailed
    requires answer([SwitchBack]) != SpawnFailed
    ensures Run(LookupPlan(word, url), answer) == Completed(UnicodeWhiteSpace, word, url)
    ensures RestoresFocus(Run(LookupPlan(word, url), answer))
  {
    var plan := LookupPlan(word, url);
    forall i | 0 <= i < |plan| ensures !Aborts(plan[i], answer) {
      if i >= 3 && SlowPath(word) != [] && i < 5 {
        assert plan[i] == SlowPath(word)[i - 3];
      }
    }
    RunNoAborts(plan, answer);
    FlattenLookupPlan(word, url);
    CompletedRestoresFocus(UnicodeWhiteSpace, word, url);
  }

  /** A failed browser open panics right after it: the pinned window is never
      switched back to and no response is written. */
  lemma OpenFailureLeavesFocus(word: string, url: string, answer: seq<Action> -> Outcome)
    requires answer([RecordWindow]) != SpawnFailed && answer([OpenUrl(url)]) != Done
    ensures Run(LookupPlan(word, url), answer) == [RecordWindow, OpenUrl(url)]
    ensures !RestoresFocus([RecordWindow, OpenUrl(url)])
  {
    var t: seq<Action> := [RecordWindow, OpenUrl(url)];
    assert t[0] == RecordWindow;
    var rest := [Internal(Sleep(1))] + SlowPath(word) + FinishPlan;
    assert LookupPlan(word, url) == [RecordStep] + ([OpenStep(url)] + rest);
    RunCons(RecordStep, [OpenStep(url)] + rest, answer);
    RunCons(OpenStep(url), rest, answer);
  }

  /** When osascript cannot be started for the first key press, that press is
      all the handler issues. */
  lemma RecordFailureStopsAtOnce(word: string, url: string, answer: seq<Action> -> Outcome)
    requires answer([RecordWindow]) == SpawnFailed
    ensures Run(LookupPlan(word, url), answer) == [RecordWindow]
  {
    var rest := [OpenStep(url), Internal(Sleep(1))] + SlowPath(word) + FinishPlan;
    assert LookupPlan(word, url) == [RecordStep] + rest;
    RunCons(RecordStep, rest, answer);
  }
}
