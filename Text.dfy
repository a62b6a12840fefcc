/**
 * The string operations the bot applies to inbound text: white-space
 * trimming and splitting callback data on a separator character.
 */
module Text {

  /**
   * The characters .NET treats as white space: the space separators
   * (U+0020, U+00A0, U+1680, U+2000-U+200A, U+202F, U+205F, U+3000), the line
   * and paragraph separators (U+2028, U+2029) and the controls U+0009-U+000D
   * and U+0085.
   */
  predicate IsWhiteSpace(c: char) {
    || c == ' ' || c == '\U{00A0}' || c == '\U{1680}'
    || ('\U{2000}' <= c <= '\U{200A}')
    || c == '\U{202F}' || c == '\U{205F}' || c == '\U{3000}'
    || c == '\U{2028}' || c == '\U{2029}'
    || ('\t' <= c <= '\r')
    || c == '\U{0085}'
  }

  /**
   * Among ASCII characters exactly the space and the controls tab to carriage
   * return are white space; every other white-space character lies between
   * U+0085 and U+3000.
   */
  lemma WhiteSpaceRange(c: char)
    ensures c as int < 0x80 ==> (IsWhiteSpace(c) <==> c == ' ' || '\t' <= c <= '\r')
    ensures IsWhiteSpace(c) ==> c as int <= 0x20 || 0x85 <= c as int <= 0x3000
  {
  }

  /** True when every character is white space (the empty string included). */
  predicate AllWhiteSpace(s: string) {
    forall i :: 0 <= i < |s| ==> IsWhiteSpace(s[i])
  }

  /** The forward scan of `Trim`: the first index from `start` on that does not hold white space, or `|s|`. */
  function TrimStartIndex(s: string, start: nat): (i: nat)
    requires start <= |s|
    ensures start <= i <= |s|
    ensures forall k :: start <= k < i ==> IsWhiteSpace(s[k])
    ensures i < |s| ==> !IsWhiteSpace(s[i])
    decreases |s| - start
  {
    if start < |s| && IsWhiteSpace(s[start]) then TrimStartIndex(s, start + 1) else start
  }

  /**
   * The backward scan of `Trim`, which stops at `start`: the smallest index
   * from `start` up to `end` after which `s[..end]` holds only white space.
   */
  function TrimEndIndex(s: string, start: nat, end: nat): (j: nat)
    requires start <= end <= |s|
    ensures start <= j <= end
    ensures forall k :: j <= k < end ==> IsWhiteSpace(s[k])
    ensures j > start ==> !IsWhiteSpace(s[j - 1])
    decreases end
  {
    if end > start && IsWhiteSpace(s[end - 1]) then TrimEndIndex(s, start, end - 1) else end
  }

  /** Leading white space up to `i` and trailing white space from `j` on, as slices. */
  lemma WhiteSpaceEnds(s: string, i: nat, j: nat)
    requires i <= j <= |s|
    requires forall k :: 0 <= k < i ==> IsWhiteSpace(s[k])
    requires forall k :: j <= k < |s| ==> IsWhiteSpace(s[k])
    ensures AllWhiteSpace(s[..i]) && AllWhiteSpace(s[j..])
  {
    assert forall k :: 0 <= k < i ==> s[..i][k] == s[k];
    assert forall k :: 0 <= k < |s| - j ==> s[j..][k] == s[j + k];
  }

  /** `String.Trim()`: a contiguous part of `s`, only white space cut off on either side. */
  function Trim(s: string): (r: string)
    ensures exists i :: 0 <= i <= |s| - |r| && r == s[i..i + |r|]
                        && AllWhiteSpace(s[..i]) && AllWhiteSpace(s[i + |r|..])
    ensures r != [] ==> !IsWhiteSpace(r[0]) && !IsWhiteSpace(r[|r| - 1])
  {
    var i := TrimStartIndex(s, 0);
    var j := TrimEndIndex(s, i, |s|);
    var r := s[i..j];
    WhiteSpaceEnds(s, i, j);
    assert i + |r| == j && r == s[i..i + |r|];
    assert r != [] ==> r[0] == s[i] && r[|r| - 1] == s[j - 1];
    r
  }

  /** The forward scan stops exactly at the end of white-space padding. */
  lemma {:induction false} TrimStartIndexPadded(s: string, start: nat, n: nat)
    requires start <= n <= |s|
    requires forall k :: start <= k < n ==> IsWhiteSpace(s[k])
    requires n < |s| ==> !IsWhiteSpace(s[n])
    ensures TrimStartIndex(s, start) == n
    decreases n - start
  {
    if start < n {
      TrimStartIndexPadded(s, start + 1, n);
    }
  }

  /** The backward scan stops exactly at the start of trailing white-space padding. */
  lemma {:induction false} TrimEndIndexPadded(s: string, start: nat, end: nat, n: nat)
    requires start <= n <= end <= |s|
    requires forall k :: n <= k < end ==> IsWhiteSpace(s[k])
    requires n > start ==> !IsWhiteSpace(s[n - 1])
    ensures TrimEndIndex(s, start, end) == n
    decreases end
  {
    if n < end {
      TrimEndIndexPadded(s, start, end - 1, n);
    }
  }

  /** `Trim` recovers a word from any white-space padding around it. */
  lemma TrimPadded(pre: string, w: string, post: string)
    requires AllWhiteSpace(pre) && AllWhiteSpace(post)
    requires w != [] && !IsWhiteSpace(w[0]) && !IsWhiteSpace(w[|w| - 1])
    ensures Trim(pre + w + post) == w
  {
    var s := pre + w + post;
    var i, j := |pre|, |pre| + |w|;
    assert forall k :: 0 <= k < i ==> s[k] == pre[k];
    assert forall k :: i <= k < j ==> s[k] == w[k - i];
    assert forall k :: j <= k < |s| ==> s[k] == post[k - j];
    TrimStartIndexPadded(s, 0, i);
    TrimEndIndexPadded(s, i, |s|, j);
    assert s[i..j] == w;
  }

  /** Trimming a trimmed string changes nothing. */
  lemma TrimIdempotent(s: string)
    ensures Trim(Trim(s)) == Trim(s)
  {
    var r := Trim(s);
    if r != [] {
      TrimStartIndexPadded(r, 0, 0);
      TrimEndIndexPadded(r, 0, |r|, |r|);
      assert r[0..|r|] == r;
    }
  }

  /** `s.Split(sep)`: the fields between separators, at least one, none holding the separator. */
  function Split(s: string, sep: char): (r: seq<string>)
    ensures |r| >= 1
    ensures forall k :: 0 <= k < |r| ==> sep !in r[k]
    ensures sep !in s ==> r == [s]
  {
    if s == [] then [""]
    else
      var rest := Split(s[1..], sep);
      assert sep !in s ==> rest == [s[1..]] && [s[0]] + s[1..] == s;
      if s[0] == sep then [""] + rest
      else [[s[0]] + rest[0]] + rest[1..]
  }

  /** `String.Join(sep, fields)`: the fields with one separator between neighbours. */
  function Join(fields: seq<string>, sep: char): string
    requires |fields| >= 1
  {
    if |fields| == 1 then fields[0] else fields[0] + [sep] + Join(fields[1..], sep)
  }

  /** Splitting loses nothing: joining the fields again gives the string back. */
  lemma {:induction false} JoinSplit(s: string, sep: char)
    ensures Join(Split(s, sep), sep) == s
  {
    if s != [] {
      JoinSplit(s[1..], sep);
      var rest := Split(s[1..], sep);
      assert sep !in s ==> rest == [s[1..]] && [s[0]] + s[1..] == s;
      if s[0] == sep {
        assert Split(s, sep) == [""] + rest;
        assert s == [s[0]] + s[1..];
      } else {
        var r := Split(s, sep);
        assert r == [[s[0]] + rest[0]] + rest[1..];
        if |rest| == 1 {
          assert s == [s[0]] + s[1..];
        } else {
          assert r[1..] == rest[1..];
          assert s == [s[0]] + s[1..];
        }
      }
    }
  }

  /** Joining fields free of the separator and splitting again gives the fields back. */
  lemma {:induction false} SplitJoin(fields: seq<string>, sep: char)
    requires |fields| >= 1
    requires forall k :: 0 <= k < |fields| ==> sep !in fields[k]
    ensures Split(Join(fields, sep), sep) == fields
  {
    if |fields| > 1 {
      SplitJoin(fields[1..], sep);
      SplitPrefix(fields[0], Join(fields[1..], sep), sep);
    }
  }

  /** Splitting `w + [sep] + t` where `w` holds no separator: `w` is the first field, then the fields of `t`. */
  lemma {:induction false} SplitPrefix(w: string, t: string, sep: char)
    requires sep !in w
    ensures Split(w + [sep] + t, sep) == [w] + Split(t, sep)
  {
    if w == [] {
      assert w + [sep] + t == [sep] + t;
      assert ([sep] + t)[1..] == t;
    } else {
      SplitPrefix(w[1..], t, sep);
      var s := w + [sep] + t;
      assert s[0] == w[0];
      assert s[1..] == w[1..] + [sep] + t;
      assert [w[0]] + w[1..] == w;
    }
  }
}
