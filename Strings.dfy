/** The part of Go's `strings` package the operator uses: `Split` with a
    one-character separator, and `Join` as its inverse. */
module Strings {

  /** The position of the first occurrence of `c` in `s`. */
  function IndexOf(s: string, c: char): (i: nat)
    requires c in s
    ensures i < |s| && s[i] == c
    ensures c !in s[..i]
  {
    if s[0] == c then 0
    else
      var j := IndexOf(s[1..], c);
      assert s[..1 + j] == [s[0]] + s[1..][..j];
      1 + j
  }

  /** `strings.Split(s, string(sep))`: the fields of `s` between the
      occurrences of `sep`. There is always at least one field, and an
      empty string gives the single field "". */
  function Split(s: string, sep: char): (fields: seq<string>)
    ensures |fields| >= 1
    ensures sep !in s ==> fields == [s]
    ensures sep in s ==> |fields| >= 2
    ensures forall k :: 0 <= k < |fields| ==> sep !in fields[k]
    decreases |s|
  {
    if sep !in s then [s]
    else
      var i := IndexOf(s, sep);
      [s[..i]] + Split(s[i + 1..], sep)
  }

  /** `strings.Join(fields, string(sep))`. */
  function Join(fields: seq<string>, sep: char): string
    decreases |fields|
  {
    if |fields| == 0 then ""
    else if |fields| == 1 then fields[0]
    else fields[0] + [sep] + Join(fields[1..], sep)
  }

  /** The first occurrence of `c` in `a + [c] + b` is right after `a`,
      when `a` does not contain `c`. */
  lemma IndexOfAfter(a: string, c: char, b: string)
    requires c !in a
    ensures c in a + [c] + b
    ensures IndexOf(a + [c] + b, c) == |a|
  {
    var s := a + [c] + b;
    assert s[|a|] == c;
    assert s[..|a|] == a;
  }

  /** Splitting at a separator that follows a separator-free prefix
      peels that prefix off as the first field. */
  lemma SplitAt(a: string, sep: char, b: string)
    requires sep !in a
    ensures Split(a + [sep] + b, sep) == [a] + Split(b, sep)
  {
    var s := a + [sep] + b;
    IndexOfAfter(a, sep, b);
    assert s[..|a|] == a;
    assert s[|a| + 1..] == b;
  }

  /** A field followed by nothing or by the separator is the first field. */
  lemma FirstField(field: string, sep: char, tail: string)
    requires sep !in field
    requires tail == [] || tail[0] == sep
    ensures |Split(field + tail, sep)| >= 1
    ensures Split(field + tail, sep)[0] == field
  {
    if tail == [] {
      assert field + tail == field;
    } else {
      assert field + tail == field + [sep] + tail[1..];
      SplitAt(field, sep, tail[1..]);
    }
  }

  /** In `host + ":" + field + tail`, with `tail` empty or starting at the
      next separator, the second field is `field`. */
  lemma SecondField(host: string, sep: char, field: string, tail: string)
    requires sep !in host && sep !in field
    requires tail == [] || tail[0] == sep
    ensures |Split(host + [sep] + field + tail, sep)| >= 2
    ensures Split(host + [sep] + field + tail, sep)[1] == field
  {
    var rest := field + tail;
    assert host + [sep] + field + tail == host + [sep] + rest;
    SplitAt(host, sep, rest);
    FirstField(field, sep, tail);
  }

  /** Joining the fields of a split gives back the string. */
  lemma {:induction false} JoinSplit(s: string, sep: char)
    ensures Join(Split(s, sep), sep) == s
    decreases |s|
  {
    if sep in s {
      var i := IndexOf(s, sep);
      var rest := s[i + 1..];
      JoinSplit(rest, sep);
      assert Split(s, sep) == [s[..i]] + Split(rest, sep);
      assert s == s[..i] + [sep] + rest;
    }
  }

  /** Splitting the join of separator-free fields gives back the fields. */
  lemma {:induction false} SplitJoin(fields: seq<string>, sep: char)
    requires |fields| >= 1
    requires forall k :: 0 <= k < |fields| ==> sep !in fields[k]
    ensures Split(Join(fields, sep), sep) == fields
    decreases |fields|
  {
    if |fields| > 1 {
      SplitJoin(fields[1..], sep);
      SplitAt(fields[0], sep, Join(fields[1..], sep));
    }
  }
}
