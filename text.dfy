/** A minimal Option type for the parsers' early exits. */
module Options {
  datatype Option<+T> = None | Some(value: T)
}

/** Text primitives the three servers rely on: the whitespace notions of their
    standard libraries, whitespace tokenisation (`split_whitespace`,
    `str.split()`, `strings.Fields`), trimming (`str.strip()`) and splitting on
    one separator character (`str.split(sep)`). */
module Text {

  /** Which characters a library treats as whitespace. Rust's `char::is_whitespace`
      and Go's `unicode.IsSpace` follow the Unicode White_Space property; Python's
      `str.isspace` also counts the information separators U+001C..U+001F. */
  datatype Spaces = UnicodeWhiteSpace | PythonWhitespace

  /** Whether `c` is whitespace for the library `sp`. Within ASCII that is the
      tab, line feed, vertical tab, form feed, carriage return and space, and for
      Python also the four information separators; everything else it counts
      (NEL, NO-BREAK SPACE, the U+2000 block, ...) lies above ASCII. */
  predicate IsSpace(sp: Spaces, c: char): (b: bool)
    ensures c as int < 0x80 ==>
      (b <==> c in {'\t', '\n', '\U{B}', '\U{C}', '\r', ' '}
              || (sp == PythonWhitespace && c in {'\U{1C}', '\U{1D}', '\U{1E}', '\U{1F}'}))
  {
    var n := c as int;
    (0x09 <= n <= 0x0D) || n == 0x20 || n == 0x85 || n == 0xA0 || n == 0x1680
    || (0x2000 <= n <= 0x200A) || n == 0x2028 || n == 0x2029 || n == 0x202F
    || n == 0x205F || n == 0x3000
    || (sp == PythonWhitespace && 0x1C <= n <= 0x1F)
  }

  /** Above ASCII the two libraries agree on every character. */
  lemma NonAsciiSpacesShared(c: char)
    requires c as int >= 0x80
    ensures IsSpace(PythonWhitespace, c) == IsSpace(UnicodeWhiteSpace, c)
  {
  }

  predicate AllSpace(sp: Spaces, s: string) {
    forall i :: 0 <= i < |s| ==> IsSpace(sp, s[i])
  }

  predicate NoSpace(sp: Spaces, s: string) {
    forall i :: 0 <= i < |s| ==> !IsSpace(sp, s[i])
  }

  /** The longest prefix of `s` that holds no whitespace. */
  function Word(sp: Spaces, s: string): (w: string)
    ensures w <= s && NoSpace(sp, w)
    ensures |w| < |s| ==> IsSpace(sp, s[|w|])
  {
    if s == [] || IsSpace(sp, s[0]) then [] else [s[0]] + Word(sp, s[1..])
  }

  /** The maximal runs of non-whitespace characters of `s`, in order: every
      field is a non-empty run of non-whitespace characters. */
  function Fields(sp: Spaces, s: string): (f: seq<string>)
    ensures forall i :: 0 <= i < |f| ==> f[i] != [] && NoSpace(sp, f[i])
    decreases |s|
  {
    if s == [] then []
    else if IsSpace(sp, s[0]) then Fields(sp, s[1..])
    else
      var w := Word(sp, s);
      var rest := Fields(sp, s[|w|..]);
      assert forall i :: 1 <= i < |[w] + rest| ==> ([w] + rest)[i] == rest[i - 1];
      [w] + rest
  }

  /** Number of whitespace-separated tokens: the quantity every variant
      compares with 2. None exactly for blank text; two or more exactly when
      whitespace separates two non-whitespace characters. */
  function WordCount(sp: Spaces, s: string): (n: nat)
    ensures n == 0 <==> AllSpace(sp, s)
    ensures n >= 2 <==> HasGap(sp, s)
  {
    NoFieldsIffBlank(sp, s);
    TwoFieldsIffGap(sp, s);
    |Fields(sp, s)|
  }

  /** The non-whitespace characters of `s`, in order. */
  function Squeeze(sp: Spaces, s: string): string {
    if s == [] then [] else (if IsSpace(sp, s[0]) then [] else [s[0]]) + Squeeze(sp, s[1..])
  }

  function Concat(ws: seq<string>): string {
    if ws == [] then [] else ws[0] + Concat(ws[1..])
  }

  lemma {:induction false} SqueezeAppend(sp: Spaces, a: string, b: string)
    ensures Squeeze(sp, a + b) == Squeeze(sp, a) + Squeeze(sp, b)
    decreases |a|
  {
    if a != [] {
      assert (a + b)[1..] == a[1..] + b;
      SqueezeAppend(sp, a[1..], b);
    } else {
      assert a + b == b;
    }
  }

  lemma {:induction false} SqueezeNoSpace(sp: Spaces, w: string)
    requires NoSpace(sp, w)
    ensures Squeeze(sp, w) == w
    decreases |w|
  {
    if w != [] {
      assert NoSpace(sp, w[1..]) by {
        forall i | 0 <= i < |w| - 1 ensures !IsSpace(sp, w[1..][i]) {
          assert w[1..][i] == w[i + 1];
        }
      }
      SqueezeNoSpace(sp, w[1..]);
      assert w == [w[0]] + w[1..];
    }
  }

  /** Tokenising loses exactly the whitespace: gluing the fields back together
      gives the non-whitespace characters of the input, in order. */
  lemma {:induction false} FieldsKeepText(sp: Spaces, s: string)
    ensures Concat(Fields(sp, s)) == Squeeze(sp, s)
    decreases |s|
  {
    if s == [] {
    } else if IsSpace(sp, s[0]) {
      FieldsKeepText(sp, s[1..]);
    } else {
      var w := Word(sp, s);
      var t := s[|w|..];
      assert s == w + t;
      FieldsKeepText(sp, t);
      var f := [w] + Fields(sp, t);
      assert f[0] == w && f[1..] == Fields(sp, t);
      SqueezeAppend(sp, w, t);
      SqueezeNoSpace(sp, w);
    }
  }

  /** No token at all exactly when the text is blank. */
  lemma {:induction false} NoFieldsIffBlank(sp: Spaces, s: string)
    ensures Fields(sp, s) == [] <==> AllSpace(sp, s)
    decreases |s|
  {
    if s != [] {
      NoFieldsIffBlank(sp, s[1..]);
      if IsSpace(sp, s[0]) {
        assert AllSpace(sp, s) <==> AllSpace(sp, s[1..]) by {
          if AllSpace(sp, s[1..]) {
            forall i | 0 <= i < |s| ensures IsSpace(sp, s[i]) {
              if i > 0 { assert s[i] == s[1..][i - 1]; }
            }
          }
        }
      }
    }
  }

  /** `s` has a gap: a non-whitespace character, later a whitespace one, later a
      non-whitespace one again. */
  ghost predicate HasGap(sp: Spaces, s: string) {
    exists i, k, j :: GapAt(sp, s, i, k, j)
  }

  predicate GapAt(sp: Spaces, s: string, i: int, k: int, j: int) {
    0 <= i < k < j < |s| && !IsSpace(sp, s[i]) && IsSpace(sp, s[k]) && !IsSpace(sp, s[j])
  }

  /** The slow-path threshold in positional terms: at least two tokens exactly
      when some whitespace separates two non-whitespace characters. */
  lemma {:induction false} TwoFieldsIffGap(sp: Spaces, s: string)
    ensures |Fields(sp, s)| >= 2 <==> HasGap(sp, s)
    decreases |s|
  {
    if s == [] {
    } else if IsSpace(sp, s[0]) {
      TwoFieldsIffGap(sp, s[1..]);
      GapSkipsLeadingBlank(sp, s);
    } else {
      var w := Word(sp, s);
      var t := s[|w|..];
      NoFieldsIffBlank(sp, t);
      assert |Fields(sp, s)| == 1 + |Fields(sp, t)|;
      GapAfterFirstWord(sp, s);
    }
  }

  lemma GapSkipsLeadingBlank(sp: Spaces, s: string)
    requires s != [] && IsSpace(sp, s[0])
    ensures HasGap(sp, s) <==> HasGap(sp, s[1..])
  {
    var t := s[1..];
    if HasGap(sp, s) {
      var i, k, j :| GapAt(sp, s, i, k, j);
      assert t[i - 1] == s[i] && t[k - 1] == s[k] && t[j - 1] == s[j];
      assert GapAt(sp, t, i - 1, k - 1, j - 1);
    }
    if HasGap(sp, t) {
      var i, k, j :| GapAt(sp, t, i, k, j);
      assert s[i + 1] == t[i] && s[k + 1] == t[k] && s[j + 1] == t[j];
      assert GapAt(sp, s, i + 1, k + 1, j + 1);
    }
  }

  lemma GapAfterFirstWord(sp: Spaces, s: string)
    requires s != [] && !IsSpace(sp, s[0])
    ensures HasGap(sp, s) <==> !AllSpace(sp, s[|Word(sp, s)|..])
  {
    var w := Word(sp, s);
    var t := s[|w|..];
    if HasGap(sp, s) {
      var i, k, j :| GapAt(sp, s, i, k, j);
      assert t[j - |w|] == s[j];
    }
    if !AllSpace(sp, t) {
      var m :| 0 <= m < |t| && !IsSpace(sp, t[m]);
      assert t[0] == s[|w|];
      assert s[|w| + m] == t[m];
      assert GapAt(sp, s, 0, |w|, |w| + m);
    }
  }

  lemma {:induction false} FieldsDropLeadingBlank(sp: Spaces, p: string, s: string)
    requires AllSpace(sp, p)
    ensures Fields(sp, p + s) == Fields(sp, s)
    decreases |p|
  {
    if p != [] {
      assert (p + s)[0] == p[0];
      assert (p + s)[1..] == p[1..] + s;
      FieldsDropLeadingBlank(sp, p[1..], s);
    } else {
      assert p + s == s;
    }
  }

  lemma {:induction false} WordBeforeBlank(sp: Spaces, s: string, q: string)
    requires q == [] || IsSpace(sp, q[0])
    ensures Word(sp, s + q) == Word(sp, s)
    decreases |s|
  {
    if s == [] {
      assert s + q == q;
    } else {
      assert (s + q)[0] == s[0];
      assert (s + q)[1..] == s[1..] + q;
      WordBeforeBlank(sp, s[1..], q);
    }
  }

  lemma {:induction false} FieldsDropTrailingBlank(sp: Spaces, s: string, q: string)
    requires AllSpace(sp, q)
    ensures Fields(sp, s + q) == Fields(sp, s)
    decreases |s|
  {
    if s == [] {
      assert s + q == q;
      NoFieldsIffBlank(sp, q);
    } else {
      assert (s + q)[0] == s[0];
      if IsSpace(sp, s[0]) {
        assert (s + q)[1..] == s[1..] + q;
        FieldsDropTrailingBlank(sp, s[1..], q);
      } else {
        WordBeforeBlank(sp, s, q);
        var w := Word(sp, s);
        assert (s + q)[|w|..] == s[|w|..] + q;
        FieldsDropTrailingBlank(sp, s[|w|..], q);
      }
    }
  }

  /** Whitespace around the text never adds a token. */
  lemma FieldsIgnorePadding(sp: Spaces, p: string, s: string, q: string)
    requires AllSpace(sp, p) && AllSpace(sp, q)
    ensures Fields(sp, p + s + q) == Fields(sp, s)
  {
    assert p + s + q == p + (s + q);
    FieldsDropLeadingBlank(sp, p, s + q);
    FieldsDropTrailingBlank(sp, s, q);
  }

  /** A token followed by whitespace (or by nothing) is the first field. */
  lemma {:induction false} FieldsAfterWord(sp: Spaces, w: string, rest: string)
    requires w != [] && NoSpace(sp, w)
    requires rest == [] || IsSpace(sp, rest[0])
    ensures Fields(sp, w + rest) == [w] + Fields(sp, rest)
  {
    WordBeforeBlank(sp, w, rest);
    NoSpaceIsWord(sp, w);
    assert (w + rest)[0] == w[0];
    assert (w + rest)[|w|..] == rest;
  }

  /** One token padded with whitespace on either side counts as one token. */
  lemma PaddedWordCount(sp: Spaces, p: string, w: string, q: string)
    requires AllSpace(sp, p) && AllSpace(sp, q)
    requires w != [] && NoSpace(sp, w)
    ensures WordCount(sp, p + w + q) == 1
  {
    FieldsIgnorePadding(sp, p, w, q);
    FieldsAfterWord(sp, w, []);
    assert w + [] == w;
  }

  /** A token holds no blank. */
  lemma NoSpaceNoBlank(sp: Spaces, w: string)
    requires NoSpace(sp, w)
    ensures ' ' !in w
  {
    assert IsSpace(sp, ' ');
  }

  lemma {:induction false} NoSpaceIsWord(sp: Spaces, w: string)
    requires NoSpace(sp, w)
    ensures Word(sp, w) == w
    decreases |w|
  {
    if w != [] {
      NoSpaceIsWord(sp, w[1..]);
    }
  }

  /** `s` with leading whitespace removed. */
  function TrimStart(sp: Spaces, s: string): (r: string)
    ensures |r| <= |s| && r == s[|s| - |r|..]
    ensures AllSpace(sp, s[..|s| - |r|])
    ensures r == [] || !IsSpace(sp, r[0])
  {
    if s != [] && IsSpace(sp, s[0]) then TrimStart(sp, s[1..]) else s
  }

  /** `s` with trailing whitespace removed. */
  function TrimEnd(sp: Spaces, s: string): (r: string)
    ensures |r| <= |s| && r == s[..|r|]
    ensures AllSpace(sp, s[|r|..])
    ensures r == [] || !IsSpace(sp, r[|r| - 1])
  {
    if s != [] && IsSpace(sp, s[|s| - 1]) then
      var r := TrimEnd(sp, s[..|s| - 1]);
      assert s[..|r|] == s[..|s| - 1][..|r|];
      assert s[|r|..] == s[..|s| - 1][|r|..] + [s[|s| - 1]];
      r
    else s
  }

  /** Python's `str.strip()`: whitespace removed from both ends. */
  function Strip(sp: Spaces, s: string): (r: string)
    ensures r == [] || (!IsSpace(sp, r[0]) && !IsSpace(sp, r[|r| - 1]))
    ensures exists i :: StrippedAt(sp, s, r, i)
  {
    var t := TrimStart(sp, s);
    var r := TrimEnd(sp, t);
    var i := |s| - |t|;
    assert s[i + |r|..] == t[|r|..];
    assert StrippedAt(sp, s, r, i);
    r
  }

  /** `r` is the piece of `s` starting at `i`, and everything of `s` around it is whitespace. */
  predicate StrippedAt(sp: Spaces, s: string, r: string, i: int) {
    0 <= i && i + |r| <= |s| && r == s[i..i + |r|] && AllSpace(sp, s[..i]) && AllSpace(sp, s[i + |r|..])
  }

  /** `[p.strip() for p in parts]`. */
  function StripEach(sp: Spaces, parts: seq<string>): seq<string> {
    if parts == [] then [] else [Strip(sp, parts[0])] + StripEach(sp, parts[1..])
  }

  lemma StripEachTwo(sp: Spaces, a: string, b: string)
    ensures StripEach(sp, [a, b]) == [Strip(sp, a), Strip(sp, b)]
  {
    var parts := [a, b];
    var none: seq<string> := [];
    assert StripEach(sp, none) == [];
    assert [b][1..] == none;
    assert StripEach(sp, [b]) == [Strip(sp, b)] + StripEach(sp, none);
    assert parts[1..] == [b];
    assert StripEach(sp, parts) == [Strip(sp, a)] + StripEach(sp, [b]);
    TwoOf(Strip(sp, a), Strip(sp, b));
  }

  lemma TwoOf(x: string, y: string)
    ensures [x] + ([y] + []) == [x, y]
  {
  }

  /** Stripping a text padded with whitespace gives back the text, provided it
      neither starts nor ends with whitespace. */
  lemma StripPadded(sp: Spaces, p: string, s: string, q: string)
    requires AllSpace(sp, p) && AllSpace(sp, q)
    requires s == [] || (!IsSpace(sp, s[0]) && !IsSpace(sp, s[|s| - 1]))
    ensures Strip(sp, p + s + q) == s
  {
    if s == [] {
      assert p + s + q == (p + q) + [];
      assert AllSpace(sp, p + q) by {
        forall i | 0 <= i < |p + q| ensures IsSpace(sp, (p + q)[i]) {
          if i < |p| { assert (p + q)[i] == p[i]; } else { assert (p + q)[i] == q[i - |p|]; }
        }
      }
      TrimStartBlank(sp, p + q, []);
    } else {
      assert p + s + q == p + (s + q);
      assert (s + q)[0] == s[0];
      TrimStartBlank(sp, p, s + q);
      TrimEndBlank(sp, s, q);
    }
  }

  lemma {:induction false} TrimStartBlank(sp: Spaces, p: string, s: string)
    requires AllSpace(sp, p)
    requires s == [] || !IsSpace(sp, s[0])
    ensures TrimStart(sp, p + s) == s
    decreases |p|
  {
    if p != [] {
      assert (p + s)[0] == p[0];
      assert (p + s)[1..] == p[1..] + s;
      TrimStartBlank(sp, p[1..], s);
    } else {
      assert p + s == s;
    }
  }

  lemma {:induction false} TrimEndBlank(sp: Spaces, s: string, q: string)
    requires AllSpace(sp, q)
    requires s == [] || !IsSpace(sp, s[|s| - 1])
    ensures TrimEnd(sp, s + q) == s
    decreases |q|
  {
    if q == [] {
      assert s + q == s;
    } else {
      var q' := q[..|q| - 1];
      assert (s + q)[..|s + q| - 1] == s + q';
      TrimEndBlank(sp, s, q');
    }
  }

  /** Python's `str.split(sep)`: the pieces between occurrences of `sep`,
      empty pieces included; there is always at least one piece. */
  function SplitOn(s: string, sep: char): (r: seq<string>)
    ensures |r| >= 1
    ensures forall i :: 0 <= i < |r| ==> sep !in r[i]
    decreases |s|
  {
    if s == [] then [[]]
    else
      var rest := SplitOn(s[1..], sep);
      if s[0] == sep then [[]] + rest else [[s[0]] + rest[0]] + rest[1..]
  }

  /** Python's `sep.join(parts)`. */
  function JoinWith(parts: seq<string>, sep: char): string
    decreases |parts|
  {
    if parts == [] then []
    else if |parts| == 1 then parts[0]
    else parts[0] + [sep] + JoinWith(parts[1..], sep)
  }

  /** Splitting and joining on the same separator loses nothing. */
  lemma {:induction false} JoinSplitOn(s: string, sep: char)
    ensures JoinWith(SplitOn(s, sep), sep) == s
    decreases |s|
  {
    if s != [] {
      var rest := SplitOn(s[1..], sep);
      JoinSplitOn(s[1..], sep);
      if s[0] == sep {
        var r := [[]] + rest;
        assert r[1..] == rest;
      } else {
        var r := [[s[0]] + rest[0]] + rest[1..];
        if |rest| == 1 {
        } else {
          assert r[1..] == rest[1..];
          assert JoinWith(rest, sep) == rest[0] + [sep] + JoinWith(rest[1..], sep);
        }
      }
    }
  }

  lemma {:induction false} SplitOnPrefix(x: string, t: string, sep: char)
    requires sep !in x
    ensures SplitOn(x + t, sep) == [x + SplitOn(t, sep)[0]] + SplitOn(t, sep)[1..]
    decreases |x|
  {
    if x != [] {
      assert (x + t)[0] == x[0];
      assert (x + t)[1..] == x[1..] + t;
      SplitOnPrefix(x[1..], t, sep);
      var r := SplitOn(t, sep);
      var rest := SplitOn(x[1..] + t, sep);
      assert rest[0] == x[1..] + r[0] && rest[1..] == r[1..];
      assert SplitOn(x + t, sep) == [[x[0]] + rest[0]] + rest[1..];
      assert [x[0]] + (x[1..] + r[0]) == x + r[0];
    } else {
      var r := SplitOn(t, sep);
      assert x + t == t && x + r[0] == r[0];
      assert [r[0]] + r[1..] == r;
    }
  }

  /** Two pieces around one separator split back into the two pieces. */
  lemma SplitTwo(a: string, b: string, sep: char)
    requires sep !in a && sep !in b
    ensures SplitOn(a + [sep] + b, sep) == [a, b]
  {
    var parts := [a, b];
    assert parts[1..] == [b];
    assert JoinWith(parts, sep) == a + [sep] + b;
    SplitOnJoin(parts, sep);
  }

  /** Joining pieces free of the separator and splitting again gives the pieces back. */
  lemma {:induction false} SplitOnJoin(parts: seq<string>, sep: char)
    requires |parts| >= 1
    requires forall i :: 0 <= i < |parts| ==> sep !in parts[i]
    ensures SplitOn(JoinWith(parts, sep), sep) == parts
    decreases |parts|
  {
    if |parts| == 1 {
      SplitOnPrefix(parts[0], [], sep);
      assert parts[0] + [] == parts[0];
    } else {
      var tail := JoinWith(parts[1..], sep);
      SplitOnJoin(parts[1..], sep);
      assert JoinWith(parts, sep) == parts[0] + ([sep] + tail);
      SplitOnPrefix(parts[0], [sep] + tail, sep);
      assert ([sep] + tail)[1..] == tail;
      assert SplitOn([sep] + tail, sep) == [[]] + parts[1..];
      assert parts[0] + [] == parts[0];
    }
  }
}
