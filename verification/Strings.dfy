/** Splitting strings at every occurrence of a separator, joining them back, and the last occurrence. */
module Strings {

  predicate Free(s: string, sep: char) {
    sep !in s
  }

  predicate OccursAt(s: string, sub: string, i: nat) {
    i + |sub| <= |s| && s[i..i + |sub|] == sub
  }

  predicate Contains(s: string, sub: string) {
    exists i | 0 <= i <= |s| :: OccursAt(s, sub, i)
  }

  function Split(s: string, sep: char): (parts: seq<string>)
    ensures |parts| >= 1
  {
    if s == "" then [""]
    else
      var rest := Split(s[1..], sep);
      if s[0] == sep then [""] + rest else [[s[0]] + rest[0]] + rest[1..]
  }

  function Join(parts: seq<string>, sep: char): string {
    if parts == [] then ""
    else if |parts| == 1 then parts[0]
    else parts[0] + [sep] + Join(parts[1..], sep)
  }

  /** The index of the last occurrence, or -1. */
  function LastIndex(s: string, sep: char): (i: int)
    ensures -1 <= i < |s|
    ensures i >= 0 ==> s[i] == sep
    ensures forall j :: i < j < |s| ==> s[j] != sep
  {
    if s == "" then -1
    else if s[|s| - 1] == sep then |s| - 1
    else LastIndex(s[..|s| - 1], sep)
  }

  lemma SplitCons(s: string, sep: char)
    requires s != ""
    ensures var rest := Split(s[1..], sep);
      Split(s, sep) == if s[0] == sep then [""] + rest else [[s[0]] + rest[0]] + rest[1..]
  {
  }

  lemma {:induction false} JoinSplit(s: string, sep: char)
    ensures Join(Split(s, sep), sep) == s
  {
    hide Split;
    if s == "" {
      SplitFree(s, sep);
    } else {
      SplitCons(s, sep);
      JoinSplit(s[1..], sep);
      var rest := Split(s[1..], sep);
      var parts := Split(s, sep);
      if s[0] == sep {
        assert parts[1..] == rest;
      } else {
        assert parts[1..] == rest[1..];
      }
      assert s == [s[0]] + s[1..];
    }
  }

  lemma {:induction false} SplitAppend(a: string, b: string, sep: char)
    ensures Split(a + [sep] + b, sep) == Split(a, sep) + Split(b, sep)
  {
    hide Split;
    var whole := a + [sep] + b;
    if a == "" {
      SplitFree(a, sep);
      SplitCons(whole, sep);
      assert whole[1..] == b;
    } else {
      var tail := a[1..] + [sep] + b;
      assert whole[0] == a[0] && whole[1..] == tail;
      SplitAppend(a[1..], b, sep);
      SplitCons(whole, sep);
      SplitCons(a, sep);
      var rest := Split(a[1..], sep);
      assert (rest + Split(b, sep))[1..] == rest[1..] + Split(b, sep);
    }
  }

  lemma {:induction false} SplitFree(s: string, sep: char)
    ensures Free(s, sep) <==> Split(s, sep) == [s]
    ensures Free(s, sep) <==> |Split(s, sep)| == 1
  {
    if s != "" {
      SplitFree(s[1..], sep);
      assert s == [s[0]] + s[1..];
    }
  }

  lemma {:induction false} PartsAreFree(s: string, sep: char)
    ensures forall i :: 0 <= i < |Split(s, sep)| ==> Free(Split(s, sep)[i], sep)
  {
    if s != "" {
      PartsAreFree(s[1..], sep);
    }
  }

  lemma {:induction false} JoinAppend(a: seq<string>, b: seq<string>, sep: char)
    requires a != [] && b != []
    ensures Join(a + b, sep) == Join(a, sep) + [sep] + Join(b, sep)
  {
    if |a| == 1 {
      assert (a + b)[1..] == b;
    } else {
      assert (a + b)[1..] == a[1..] + b;
      JoinAppend(a[1..], b, sep);
    }
  }

  /** Splitting undoes joining on separator-free parts. */
  lemma {:induction false} SplitJoin(parts: seq<string>, sep: char)
    requires parts != [] && forall i :: 0 <= i < |parts| ==> Free(parts[i], sep)
    ensures Split(Join(parts, sep), sep) == parts
  {
    SplitFree(parts[0], sep);
    if |parts| > 1 {
      SplitJoin(parts[1..], sep);
      SplitAppend(parts[0], Join(parts[1..], sep), sep);
    }
  }

  /** The last separator of a concatenation around a separator is that one iff nothing behind it is one. */
  lemma LastIndexAppend(a: string, b: string, sep: char)
    ensures LastIndex(a + [sep] + b, sep) == |a| <==> Free(b, sep)
  {
    var s := a + [sep] + b;
    var i := LastIndex(s, sep);
    assert s[|a|] == sep;
    if i == |a| {
      assert forall j :: 0 <= j < |b| ==> b[j] == s[|a| + 1 + j];
    } else {
      assert b[i - |a| - 1] == s[i];
    }
  }
}
