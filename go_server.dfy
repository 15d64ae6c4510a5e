/** The Go server (easydict_server.go): `handler` and its helpers. Every error
    an external command reports is discarded, so the handler always carries on. */
module GoServer {
  import opened Options
  import opened Text
  import opened Query
  import opened Desktop

  /** `exec.Command(..).Run()` and `.Start()`: the returned error is unused. */
  const Ignored: set<Outcome> := {}

  const RecordStep: Step := External([RecordWindow], Ignored)
  const SlowPathStep: Step := External(SlowPathScript, Ignored)
  const SwitchBackStep: Step := External([SwitchBack], Ignored)
  /** `http.Error` sets a plain-text content type and ends the message with a line feed. */
  const BadRequest: Action := Respond(400, "text/plain; charset=utf-8", MissingText + "\n")
  const Accepted: Action := Respond(200, "text/html", Converted)

  function OpenStep(url: string): Step {
    External([OpenUrl(url)], Ignored)
  }

  /** `Query().Get("text")`: the first `text` value, blank ones included, or ""
      when there is none. */
  function QueryGet(pairs: seq<Pair>): (word: string)
    ensures word == "" <==> forall i :: FirstAt(pairs, "text", i) ==> pairs[i].1 == ""
    ensures word != "" ==> exists i :: FirstAt(pairs, "text", i) && pairs[i].1 == word
  {
    match FirstValue(pairs, "text")
    case None => ""
    case Some(v) =>
      forall i | FirstAt(pairs, "text", i) ensures pairs[i].1 == v {
        var k :| FirstAt(pairs, "text", k) && pairs[k].1 == v;
        assert !(k < i) && !(i < k);
      }
      v
  }

  /** `handler`, as the steps it would take. `query` is the decoded query of
      the re-parsed request URL, or None when `url.Parse` failed: the nil URL's
      `Query()` then panics before anything is issued. Otherwise the plan ends
      by writing a response, the 400 exactly for a blank word, and a lookup
      pins the focused window first. */
  function Plan(query: Option<seq<Pair>>, escape: string -> string): (r: seq<Step>)
    ensures query.None? ==> Flatten(r) == [] && |r| >= 1 && forall answer :: Aborts(r[0], answer)
    ensures query.Some? ==> |r| >= 1 && r[|r| - 1] == (if QueryGet(query.value) == "" then Internal(BadRequest) else Internal(Accepted))
    ensures query.Some? && QueryGet(query.value) != "" ==> r[0] == RecordStep
  {
    match query
    case None => [Crash]
    case Some(pairs) =>
      var word := QueryGet(pairs);
      if word == "" then [Internal(BadRequest)] else LookupPlan(word, LookupPrefix + escape(word))
  }

  /** The steps for a non-empty `word` whose EasyDict URL is `url`. */
  function LookupPlan(word: string, url: string): seq<Step> {
    OpenSteps(url, Ignored, Ignored) + (SlowPath(word) + [SwitchBackStep, Internal(Accepted)])
  }

  /** The extra steps when `strings.Fields(word)` has two or more tokens. */
  function SlowPath(word: string): seq<Step> {
    SlowSteps(UnicodeWhiteSpace, word, Ignored)
  }

  /** `recordCurrentWindow`. */
  method RecordCurrentWindow(env: Env)
    modifies env
    ensures env.trace == old(env.trace) + [RecordWindow]
  {
    var ignored := env.Call([RecordWindow]);
  }

  /** `handleSpecialCases`. */
  method HandleSpecialCases(env: Env)
    modifies env
    ensures env.trace == old(env.trace) + SlowPathScript
  {
    var ignored := env.Call(SlowPathScript);
  }

  /** `switchBackToPreviousWindow`. */
  method SwitchBackToPreviousWindow(env: Env)
    modifies env
    ensures env.trace == old(env.trace) + [SwitchBack]
  {
    var ignored := env.Call([SwitchBack]);
  }

  /** Lines 80-95 of `handler`. */
  method Lookup(env: Env, word: string, url: string)
    modifies env
    ensures env.trace == old(env.trace) + Completed(UnicodeWhiteSpace, word, url)
  {
    ghost var start := env.trace;
    RecordCurrentWindow(env);
    var ignored := env.Call([OpenUrl(url)]);
    env.Pause(1);
    if WordCount(UnicodeWhiteSpace, word) >= 2 {
      HandleSpecialCases(env);
      env.Pause(7);
    }
    ghost var beforeSwitch := env.trace;
    assert beforeSwitch == start + [RecordWindow, OpenUrl(url), Sleep(1)] + SlowActions(UnicodeWhiteSpace, word);
    SwitchBackToPreviousWindow(env);
    env.Reply(200, "text/html", Converted);
    assert env.trace == beforeSwitch + [SwitchBack, Respond(200, "text/html", Converted)];
  }

  /** `handler`; `escape` is `url.QueryEscape`. */
  method Handler(env: Env, query: Option<seq<Pair>>, escape: string -> string)
    modifies env
    ensures env.trace == old(env.trace) + Run(Plan(query, escape), env.answer)
  {
    if query.None? {
      return;
    }
    var word := QueryGet(query.value);
    if word == "" {
      env.Reply(400, "text/plain; charset=utf-8", MissingText + "\n");
      return;
    }
    var encoded := escape(word);
    Lookup(env, word, LookupPrefix + encoded);
    LookupIgnoresAnswers(word, LookupPrefix + encoded, env.answer);
  }

  /** However the commands end, a lookup issues every step, in order. */
  lemma LookupIgnoresAnswers(word: string, url: string, answer: seq<Action> -> Outcome)
    ensures Run(LookupPlan(word, url), answer) == Completed(UnicodeWhiteSpace, word, url)
  {
    var plan := LookupPlan(word, url);
    forall i | 0 <= i < |plan| - 1 ensures !Aborts(plan[i], answer) {
      if 3 <= i < 3 + |SlowPath(word)| {
        assert plan[i] == SlowPath(word)[i - 3];
      }
    }
    RunNoAborts(plan, answer);
    FlattenLookupPlan(word, url);
  }

  lemma FlattenLookupPlan(word: string, url: string)
    ensures Flatten(LookupPlan(word, url)) == Completed(UnicodeWhiteSpace, word, url)
  {
    var tail := [SwitchBackStep, Internal(Accepted)];
    FlattenAppend(OpenSteps(url, Ignored, Ignored), SlowPath(word) + tail);
    FlattenAppend(SlowPath(word), tail);
    FlattenOpenSteps(url, Ignored, Ignored);
    FlattenSlowSteps(UnicodeWhiteSpace, word, Ignored);
    FlattenCons(SwitchBackStep, [Internal(Accepted)]);
    FlattenCons(Internal(Accepted), []);
  }

  /** A blank or missing `text` value is answered 400 and nothing else happens. */
  lemma BlankTextOnlyResponds(pairs: seq<Pair>, escape: string -> string, answer: seq<Action> -> Outcome)
    requires QueryGet(pairs) == ""
    ensures Run(Plan(Some(pairs), escape), answer) == [Respond(400, "text/plain; charset=utf-8", "Missing query text.\n")]
  {
    assert MissingText + "\n" == "Missing query text.\n";
  }

  /** A URL that does not parse again panics before anything is issued. */
  lemma UnparsedUrlIssuesNothing(escape: string -> string, answer: seq<Action> -> Outcome)
    ensures Run(Plan(None, escape), answer) == []
  {
  }

  /** Whatever the request and the outcomes, focus is given back and the pointer
      is never queried or moved. */
  lemma HandlerInvariants(query: Option<seq<Pair>>, escape: string -> string, answer: seq<Action> -> Outcome)
    ensures RestoresFocus(Run(Plan(query, escape), answer))
    ensures LeavesPointer(Run(Plan(query, escape), answer))
  {
    var t := Run(Plan(query, escape), answer);
    if query.None? {
      assert t == [];
    } else if QueryGet(query.value) == "" {
      RunCons(Internal(BadRequest), [], answer);
      assert [Internal(BadRequest)] == [Internal(BadRequest)] + [];
    } else {
      var word := QueryGet(query.value);
      var url := LookupPrefix + escape(word);
      LookupIgnoresAnswers(word, url, answer);
      CompletedRestoresFocus(UnicodeWhiteSpace, word, url);
      CompletedLeavesPointer(UnicodeWhiteSpace, word, url);
    }
  }
}
