/** The string operations the orchestrator relies on: joining pieces with a separator, as
    JavaScript's `Array.prototype.join` does, prefix and suffix tests, and cutting a string at
    the last occurrence of a character. */
module Strings {
  import opened Wrappers

  /** The pieces concatenated with `sep` between neighbours: nothing for no pieces, otherwise
      the first piece in front and the last one at the end. */
  function Join(parts: seq<string>, sep: string): (r: string)
    ensures |parts| == 0 ==> r == ""
    ensures |parts| == 1 ==> r == parts[0]
    ensures |parts| > 0 ==> StartsWith(r, parts[0]) && EndsWith(r, parts[|parts| - 1])
  {
    if |parts| == 0 then ""
    else if |parts| == 1 then parts[0]
    else parts[0] + sep + Join(parts[1..], sep)
  }

  /** Joining one more piece puts the separator and that piece at the end. */
  lemma {:induction false} JoinSnoc(parts: seq<string>, x: string, sep: string)
    requires |parts| > 0
    ensures Join(parts + [x], sep) == Join(parts, sep) + sep + x
    decreases |parts|
  {
    var q := parts + [x];
    if |parts| == 1 {
      assert q[1..] == [x];
    } else {
      assert q[1..] == parts[1..] + [x];
      JoinSnoc(parts[1..], x, sep);
    }
  }

  predicate StartsWith(s: string, prefix: string)
  {
    |prefix| <= |s| && s[..|prefix|] == prefix
  }

  predicate EndsWith(s: string, suffix: string)
  {
    |suffix| <= |s| && s[|s| - |suffix|..] == suffix
  }

  /** `s` cut at its last `c` into what precedes and what follows it; there is no cut exactly
      when `s` has no `c`. */
  function SplitLast(s: string, c: char): (r: Option<(string, string)>)
    ensures r.None? <==> c !in s
    ensures r.Some? ==> c !in r.value.1 && s == r.value.0 + [c] + r.value.1
    decreases |s|
  {
    if |s| == 0 then None
    else if s[|s| - 1] == c then Some((s[..|s| - 1], ""))
    else
      match SplitLast(s[..|s| - 1], c)
      case None => None
      case Some((init, last)) => Some((init, last + [s[|s| - 1]]))
  }

  /** Cutting at the last `c` undoes appending a `c` and a piece without one. */
  lemma {:induction false} SplitLastAppend(init: string, c: char, last: string)
    requires c !in last
    ensures SplitLast(init + [c] + last, c) == Some((init, last))
    decreases |last|
  {
    var s := init + [c] + last;
    if |last| == 0 {
      assert s[..|s| - 1] == init;
    } else {
      var front := last[..|last| - 1];
      assert s[..|s| - 1] == init + [c] + front;
      SplitLastAppend(init, c, front);
      assert front + [last[|last| - 1]] == last;
    }
  }
}
