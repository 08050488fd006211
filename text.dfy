/** The few Python string operations the tuner relies on: `startswith`,
    `strip()`, `split()` on whitespace and `split(sep)` on one character. */
module Text {

  predicate StartsWith(s: string, prefix: string)
  {
    |prefix| <= |s| && s[..|prefix|] == prefix
  }

  /** The characters below U+0080 that Python's `str.isspace` accepts: the
      space, tab, line feed, carriage return, vertical tab and form feed,
      and the four separators U+001C to U+001F. */
  predicate IsSpace(c: char)
  {
    c == ' ' || c == '\t' || c == '\n' || c == '\r' || c == '\U{000B}' || c == '\U{000C}'
    || ('\U{001C}' <= c <= '\U{001F}')
  }

  /** Length of the run of non-space characters at the start of `s`. */
  function TokenLen(s: string): (n: nat)
    ensures n <= |s|
    ensures |s| > 0 && !IsSpace(s[0]) ==> n > 0
  {
    if |s| == 0 || IsSpace(s[0]) then 0 else 1 + TokenLen(s[1..])
  }

  /** The run is maximal: all of it non-space, and a space right after it. */
  lemma {:induction false} TokenLenMaximal(s: string)
    ensures forall i :: 0 <= i < TokenLen(s) ==> !IsSpace(s[i])
    ensures TokenLen(s) < |s| ==> IsSpace(s[TokenLen(s)])
  {
    if |s| > 0 && !IsSpace(s[0]) {
      TokenLenMaximal(s[1..]);
    }
  }

  /** `s.split()`: the maximal runs of non-space characters, in order. */
  function Fields(s: string): seq<string>
    decreases |s|
  {
    if |s| == 0 then []
    else if IsSpace(s[0]) then Fields(s[1..])
    else
      var n := TokenLen(s);
      [s[..n]] + Fields(s[n..])
  }

  /** Every field is a nonempty run without whitespace, and a line has no
      fields exactly when it is all whitespace. */
  lemma {:induction false} FieldsShape(s: string)
    ensures forall k :: 0 <= k < |Fields(s)| ==>
      |Fields(s)[k]| > 0 && forall i :: 0 <= i < |Fields(s)[k]| ==> !IsSpace(Fields(s)[k][i])
    ensures (forall i :: 0 <= i < |s| ==> IsSpace(s[i])) <==> Fields(s) == []
    decreases |s|
  {
    if |s| > 0 {
      if IsSpace(s[0]) {
        FieldsShape(s[1..]);
        assert forall i :: 1 <= i < |s| ==> s[i] == s[1..][i - 1];
      } else {
        var n := TokenLen(s);
        TokenLenMaximal(s);
        FieldsShape(s[n..]);
        assert Fields(s)[0] == s[..n] && Fields(s)[1..] == Fields(s[n..]);
      }
    }
  }

  /** Length of the prefix of `s` before the first `sep`, or |s| when none. */
  function UpTo(s: string, sep: char): (n: nat)
    ensures n <= |s|
  {
    if |s| == 0 || s[0] == sep then 0 else 1 + UpTo(s[1..], sep)
  }

  /** The prefix holds no separator, and a separator follows it when it
      stops short of the end. */
  lemma {:induction false} UpToFirst(s: string, sep: char)
    ensures sep !in s[..UpTo(s, sep)]
    ensures UpTo(s, sep) < |s| ==> s[UpTo(s, sep)] == sep
  {
    if |s| > 0 && s[0] != sep {
      UpToFirst(s[1..], sep);
      assert s[..UpTo(s, sep)] == [s[0]] + s[1..][..UpTo(s[1..], sep)];
    }
  }

  /** `s.split(sep)`: the pieces between separators, empty pieces kept. */
  function Split(s: string, sep: char): (r: seq<string>)
    ensures |r| >= 1
    decreases |s|
  {
    var n := UpTo(s, sep);
    if n == |s| then [s] else [s[..n]] + Split(s[n + 1..], sep)
  }

  /** No piece holds the separator. */
  lemma {:induction false} SplitPieces(s: string, sep: char)
    ensures forall k :: 0 <= k < |Split(s, sep)| ==> sep !in Split(s, sep)[k]
    decreases |s|
  {
    var n := UpTo(s, sep);
    UpToFirst(s, sep);
    if n < |s| {
      SplitPieces(s[n + 1..], sep);
      assert Split(s, sep)[1..] == Split(s[n + 1..], sep);
    } else {
      assert s[..n] == s;
    }
  }

  /** `sep.join(parts)`. */
  function Join(parts: seq<string>, sep: char): string
  {
    if |parts| == 0 then ""
    else if |parts| == 1 then parts[0]
    else parts[0] + [sep] + Join(parts[1..], sep)
  }

  /** Splitting loses nothing: joining the pieces gives back the line. */
  lemma {:induction false} JoinSplit(s: string, sep: char)
    ensures Join(Split(s, sep), sep) == s
    decreases |s|
  {
    var n := UpTo(s, sep);
    if n < |s| {
      UpToFirst(s, sep);
      var rest := Split(s[n + 1..], sep);
      JoinSplit(s[n + 1..], sep);
      var parts := [s[..n]] + rest;
      assert Split(s, sep) == parts;
      assert |parts| > 1 && parts[0] == s[..n] && parts[1..] == rest;
      assert Join(parts, sep) == s[..n] + [sep] + Join(rest, sep);
      assert s == s[..n] + [sep] + s[n + 1..];
    }
  }

  /** Number of whitespace characters at the start of `s`. */
  function LeadingSpaces(s: string): (n: nat)
    ensures n <= |s|
  {
    if |s| == 0 || !IsSpace(s[0]) then 0 else 1 + LeadingSpaces(s[1..])
  }

  lemma {:induction false} LeadingSpacesMaximal(s: string)
    ensures forall k :: 0 <= k < LeadingSpaces(s) ==> IsSpace(s[k])
    ensures LeadingSpaces(s) < |s| ==> !IsSpace(s[LeadingSpaces(s)])
  {
    if |s| > 0 && IsSpace(s[0]) {
      LeadingSpacesMaximal(s[1..]);
    }
  }

  /** Number of whitespace characters at the end of `s`. */
  function TrailingSpaces(s: string): (n: nat)
    ensures n <= |s|
  {
    if |s| == 0 || !IsSpace(s[|s| - 1]) then 0 else 1 + TrailingSpaces(s[..|s| - 1])
  }

  lemma {:induction false} TrailingSpacesMaximal(s: string)
    ensures forall k :: |s| - TrailingSpaces(s) <= k < |s| ==> IsSpace(s[k])
    ensures TrailingSpaces(s) < |s| ==> !IsSpace(s[|s| - 1 - TrailingSpaces(s)])
  {
    if |s| > 0 && IsSpace(s[|s| - 1]) {
      TrailingSpacesMaximal(s[..|s| - 1]);
    }
  }

  /** `s.strip()`: `s` without its leading and trailing whitespace. */
  function Strip(s: string): string
  {
    var i := LeadingSpaces(s);
    s[i..|s| - TrailingSpaces(s[i..])]
  }

  /** Stripping removes an all-whitespace prefix and suffix and nothing
      else, and leaves no whitespace at either end. */
  lemma StripTrims(s: string)
    ensures exists i, j :: 0 <= i <= j <= |s| && Strip(s) == s[i..j]
                           && (forall k :: 0 <= k < i ==> IsSpace(s[k]))
                           && (forall k :: j <= k < |s| ==> IsSpace(s[k]))
    ensures Strip(s) != [] ==> !IsSpace(Strip(s)[0]) && !IsSpace(Strip(s)[|Strip(s)| - 1])
  {
    var i := LeadingSpaces(s);
    var t := TrailingSpaces(s[i..]);
    var j := |s| - t;
    LeadingSpacesMaximal(s);
    TrailingSpacesMaximal(s[i..]);
    assert forall k :: j <= k < |s| ==> s[k] == s[i..][k - i];
    assert Strip(s) == s[i..j];
  }
}
