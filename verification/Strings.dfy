/**
 * The string operations the constellation catalog relies on: joining with a
 * separator character (`a + "|" + b`), C#'s `String.Split(char)`, and
 * `int.ToString()` for naturals.
 */
module Strings {
  import opened Seqs

  /** The parts with `sep` between consecutive ones. */
  function Join(parts: seq<string>, sep: char): string
    decreases |parts|
  {
    if |parts| == 0 then ""
    else if |parts| == 1 then parts[0]
    else Join(parts[..|parts| - 1], sep) + [sep] + parts[|parts| - 1]
  }

  /** The position of the last occurrence of `c` in `s`. */
  function LastIndexOf(s: string, c: char): (k: nat)
    requires c in s
    ensures k < |s| && s[k] == c
    ensures forall m :: k < m < |s| ==> s[m] != c
    decreases |s|
  {
    if s[|s| - 1] == c then |s| - 1 else LastIndexOf(s[..|s| - 1], c)
  }

  /**
   * `String.Split(sep)`: the pieces between separators, empty pieces
   * included, so one more piece than there are separators.
   */
  function Split(s: string, sep: char): (pieces: seq<string>)
    ensures |pieces| == multiset(s)[sep] + 1
    ensures forall k :: 0 <= k < |pieces| ==> sep !in pieces[k]
    decreases |s|
  {
    if sep !in s then [s]
    else
      var k := LastIndexOf(s, sep);
      var tail := s[k + 1..];
      assert s == s[..k] + [sep] + tail;
      assert sep !in tail by {
        forall m | 0 <= m < |tail|
          ensures tail[m] != sep
        {
          assert tail[m] == s[k + 1 + m];
        }
      }
      Split(s[..k], sep) + [tail]
  }

  /** Joining the pieces of a split gives back the string. */
  lemma {:induction false} JoinSplit(s: string, sep: char)
    ensures Join(Split(s, sep), sep) == s
    decreases |s|
  {
    if sep in s {
      var k := LastIndexOf(s, sep);
      var front := Split(s[..k], sep);
      JoinSplit(s[..k], sep);
      assert (front + [s[k + 1..]])[..|front|] == front;
      assert s == s[..k] + [sep] + s[k + 1..];
    }
  }

  /** Splitting a join of separator-free parts gives back the parts. */
  lemma {:induction false} SplitJoin(parts: seq<string>, sep: char)
    requires |parts| >= 1
    requires forall k :: 0 <= k < |parts| ==> sep !in parts[k]
    ensures Split(Join(parts, sep), sep) == parts
    decreases |parts|
  {
    if |parts| > 1 {
      var front := parts[..|parts| - 1];
      var last := parts[|parts| - 1];
      var j := Join(front, sep);
      var s := j + [sep] + last;
      assert s == Join(parts, sep);
      LastSeparator(j, sep, last);
      assert Split(s, sep) == Split(j, sep) + [last];
      SplitJoin(front, sep);
      DropLastSnoc(parts);
    } else {
      assert parts == [parts[0]];
    }
  }

  /** In `j + [sep] + last` with `last` free of `sep`, the separator added is the last one. */
  lemma LastSeparator(j: string, sep: char, last: string)
    requires sep !in last
    ensures sep in j + [sep] + last
    ensures LastIndexOf(j + [sep] + last, sep) == |j|
    ensures (j + [sep] + last)[..|j|] == j && (j + [sep] + last)[|j| + 1..] == last
  {
    var s := j + [sep] + last;
    assert s[|j|] == sep;
    var k := LastIndexOf(s, sep);
    assert forall m :: |j| < m < |s| ==> s[m] == last[m - |j| - 1];
  }

  /** A character other than the separator occurs in a join only if it occurs in a part. */
  lemma {:induction false} JoinAvoids(parts: seq<string>, sep: char, c: char)
    requires c != sep
    requires forall k :: 0 <= k < |parts| ==> c !in parts[k]
    ensures c !in Join(parts, sep)
    decreases |parts|
  {
    if |parts| > 1 {
      JoinAvoids(parts[..|parts| - 1], sep, c);
    }
  }

  function DigitChar(d: nat): char
    requires d < 10
  {
    (d + '0' as int) as char
  }

  /** `int.ToString()` of a natural: its decimal digits, most significant first. */
  function NatToString(n: nat): (s: string)
    ensures 1 <= |s|
    ensures n < 10 <==> |s| == 1
    decreases n
  {
    if n < 10 then [DigitChar(n)] else NatToString(n / 10) + [DigitChar(n % 10)]
  }

  /** Different naturals print differently. */
  lemma {:induction false} NatToStringInjective(a: nat, b: nat)
    requires NatToString(a) == NatToString(b)
    ensures a == b
    decreases a
  {
    if a >= 10 {
      var sa, sb := NatToString(a), NatToString(b);
      assert sa[|sa| - 1] == DigitChar(a % 10) && sb[|sb| - 1] == DigitChar(b % 10);
      assert sa[..|sa| - 1] == NatToString(a / 10);
      assert sb[..|sb| - 1] == NatToString(b / 10);
      NatToStringInjective(a / 10, b / 10);
    }
  }
}
