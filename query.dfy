/** Query-string lookups. Every library involved hands the servers the query as
    an ordered list of already percent-decoded (name, value) pairs; how each
    library splits and decodes the raw query is not part of this model, only
    which pair each server then picks. */
module Query {
  import opened Options

  type Pair = (string, string)

  /** `i` is the position of the first pair named `key`. */
  predicate FirstAt(pairs: seq<Pair>, key: string, i: int) {
    0 <= i < |pairs| && pairs[i].0 == key && forall j :: 0 <= j < i ==> pairs[j].0 != key
  }

  /** The value of the first pair named `key`, if any pair has that name. */
  function FirstValue(pairs: seq<Pair>, key: string): (r: Option<string>)
    ensures r.None? <==> forall i :: 0 <= i < |pairs| ==> pairs[i].0 != key
    ensures r.Some? ==> exists i :: FirstAt(pairs, key, i) && pairs[i].1 == r.value
  {
    if pairs == [] then None
    else if pairs[0].0 == key then
      assert FirstAt(pairs, key, 0);
      Some(pairs[0].1)
    else
      var r := FirstValue(pairs[1..], key);
      if r.Some? then
        var i :| FirstAt(pairs[1..], key, i) && pairs[1..][i].1 == r.value;
        assert FirstAt(pairs, key, i + 1);
        r
      else
        r
  }

  /** Python's `parse_qs` without `keep_blank_values`: pairs whose value is
      empty are dropped, the others kept in order. */
  function DropBlank(pairs: seq<Pair>): (r: seq<Pair>)
    ensures forall p :: p in r <==> p in pairs && p.1 != ""
  {
    if pairs == [] then []
    else (if pairs[0].1 == "" then [] else [pairs[0]]) + DropBlank(pairs[1..])
  }

  /** A single pair is kept exactly when its value is not empty. */
  lemma DropBlankOne(p: Pair)
    ensures DropBlank([p]) == if p.1 == "" then [] else [p]
  {
    assert [p][1..] == [];
  }

  /** Dropping blanks works piece by piece, so the kept pairs stay in their
      original order. */
  lemma {:induction false} DropBlankAppend(a: seq<Pair>, b: seq<Pair>)
    ensures DropBlank(a + b) == DropBlank(a) + DropBlank(b)
    decreases |a|
  {
    if a == [] {
      assert a + b == b;
    } else {
      assert (a + b)[0] == a[0];
      assert (a + b)[1..] == a[1..] + b;
      DropBlankAppend(a[1..], b);
    }
  }

  /** `i` is the position of the first pair named `key` whose value is not empty. */
  predicate FirstFilledAt(pairs: seq<Pair>, key: string, i: int) {
    0 <= i < |pairs| && pairs[i].0 == key && pairs[i].1 != ""
    && forall j :: 0 <= j < i && pairs[j].0 == key ==> pairs[j].1 == ""
  }

  /** The first non-empty value among the pairs named `key`: a reference
      definition for looking `key` up after blanks were dropped. */
  function FirstFilled(pairs: seq<Pair>, key: string): (r: Option<string>)
    ensures r.None? <==> forall i :: 0 <= i < |pairs| && pairs[i].0 == key ==> pairs[i].1 == ""
    ensures r.Some? ==> exists i :: FirstFilledAt(pairs, key, i) && pairs[i].1 == r.value
  {
    if pairs == [] then None
    else if pairs[0].0 == key && pairs[0].1 != "" then
      assert FirstFilledAt(pairs, key, 0);
      Some(pairs[0].1)
    else
      var r := FirstFilled(pairs[1..], key);
      if r.Some? then
        var i :| FirstFilledAt(pairs[1..], key, i) && pairs[1..][i].1 == r.value;
        assert FirstFilledAt(pairs, key, i + 1);
        r
      else
        assert forall i :: 1 <= i < |pairs| ==> pairs[i] == pairs[1..][i - 1];
        r
  }

  /** Dropping blank values and then taking the first `key` value is taking
      the first non-empty `key` value. */
  lemma {:induction false} DropBlankThenFirst(pairs: seq<Pair>, key: string)
    ensures FirstValue(DropBlank(pairs), key) == FirstFilled(pairs, key)
    decreases |pairs|
  {
    if pairs != [] {
      DropBlankThenFirst(pairs[1..], key);
      var rest := DropBlank(pairs[1..]);
      if pairs[0].1 != "" {
        var d := [pairs[0]] + rest;
        assert DropBlank(pairs) == d;
        assert d[0] == pairs[0] && d[1..] == rest;
        if pairs[0].0 == key {
          assert FirstValue(d, key) == Some(pairs[0].1);
        } else {
          assert FirstValue(d, key) == FirstValue(rest, key);
        }
      } else {
        assert DropBlank(pairs) == [] + rest == rest;
        assert FirstFilled(pairs, key) == FirstFilled(pairs[1..], key);
      }
    }
  }
}
