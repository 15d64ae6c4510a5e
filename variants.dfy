/** Where the three servers agree and where they part ways, stated over the
    models of each. */
module Variants {
  import opened Options
  import opened Text
  import opened Query
  import opened Desktop
  import RustServer
  import PythonServer
  import GoServer

  /** When the first `text` value is not empty, all three servers look up that value. */
  lemma SameWordWhenFirstFilled(pairs: seq<Pair>, k: int)
    requires FirstAt(pairs, "text", k) && pairs[k].1 != ""
    ensures FirstValue(pairs, "text") == Some(pairs[k].1)
    ensures PythonServer.QueryText(pairs) == pairs[k].1
    ensures GoServer.QueryGet(pairs) == pairs[k].1
  {
    var r := FirstValue(pairs, "text");
    var j :| FirstAt(pairs, "text", j) && pairs[j].1 == r.value;
    assert !(j < k) && !(k < j);
    var w := PythonServer.QueryText(pairs);
    assert w != "";
    var i :| FirstFilledAt(pairs, "text", i) && pairs[i].1 == w;
    assert !(i < k) && !(k < i);
  }

  /** `?text=`: Rust looks up the empty word, Python and Go answer 400. */
  lemma EmptyValueDivergence()
    ensures FirstValue([("text", "")], "text") == Some("")
    ensures PythonServer.QueryText([("text", "")]) == ""
    ensures GoServer.QueryGet([("text", "")]) == ""
  {
    assert FirstAt([("text", "")], "text", 0);
  }

  /** `?text=&text=foo`: Python skips the blank value and looks up "foo"; Rust
      looks up the empty word; Go answers 400. */
  lemma LaterValueDivergence()
    ensures FirstValue([("text", ""), ("text", "foo")], "text") == Some("")
    ensures PythonServer.QueryText([("text", ""), ("text", "foo")]) == "foo"
    ensures GoServer.QueryGet([("text", ""), ("text", "foo")]) == ""
  {
    var pairs := [("text", ""), ("text", "foo")];
    assert FirstAt(pairs, "text", 0);
    var w := PythonServer.QueryText(pairs);
    assert pairs[1].1 != "";
    var i :| FirstFilledAt(pairs, "text", i) && pairs[i].1 == w;
    assert i == 1;
  }

  /** An information separator (U+001F) splits words for Python's `str.split()`
      but not for Rust's `split_whitespace` or Go's `strings.Fields`: only the
      Python server takes the slow path for "a\U{1F}b". */
  lemma SeparatorDivergence()
    ensures PythonServer.SlowPath("a\U{1F}b") != []
    ensures RustServer.SlowPath("a\U{1F}b") == []
    ensures GoServer.SlowPath("a\U{1F}b") == []
  {
    var s := "a\U{1F}b";
    assert GapAt(PythonWhitespace, s, 0, 1, 2);
    TwoFieldsIffGap(PythonWhitespace, s);
    assert NoSpace(UnicodeWhiteSpace, s);
    PaddedWordCount(UnicodeWhiteSpace, [], s, []);
    assert [] + s + [] == s;
  }

  /** When no call fails, the Rust and Go servers issue the same trace. */
  lemma RustMatchesGoWithoutFailures(word: string, url: string, answer: seq<Action> -> Outcome)
    requires answer([RecordWindow]) == Done && answer([OpenUrl(url)]) == Done
    requires answer(SlowPathScript) == Done && answer([SwitchBack]) == Done
    ensures Run(RustServer.LookupPlan(word, url), answer) == Run(GoServer.LookupPlan(word, url), answer)
  {
    RustServer.LookupWithoutPanic(word, url, answer);
    GoServer.LookupIgnoresAnswers(word, url, answer);
  }

  /** When no call fails, the Python server issues the Go trace with the pointer
      query in front and the pointer move before the response, provided both
      split the word into the same number of tokens. */
  lemma PythonExtendsGoWithoutFailures(word: string, url: string, x: string, y: string, answer: seq<Action> -> Outcome)
    requires (WordCount(PythonWhitespace, word) >= 2) == (WordCount(UnicodeWhiteSpace, word) >= 2)
    requires answer([QueryPointer]) == Done && answer([RecordWindow]) == Done
    requires answer(SlowPathScript) == Done && answer([SwitchBack]) == Done
    requires answer([MovePointer(x, y)]) == Done
    ensures Run(PythonServer.LookupPlan(word, url, [x, y]), answer)
         == [QueryPointer] + Run(GoServer.LookupPlan(word, url), answer)[..|Run(GoServer.LookupPlan(word, url), answer)| - 1]
            + [MovePointer(x, y), Respond(200, "text/html", Converted)]
  {
    PythonServer.LookupWithoutRaise(word, url, [x, y], answer);
    GoServer.LookupIgnoresAnswers(word, url, answer);
    var g := Completed(UnicodeWhiteSpace, word, url);
    assert SlowActions(PythonWhitespace, word) == SlowActions(UnicodeWhiteSpace, word);
    assert g[..|g| - 1] == [RecordWindow, OpenUrl(url), Sleep(1)] + (SlowActions(UnicodeWhiteSpace, word) + [SwitchBack]);
  }
}
