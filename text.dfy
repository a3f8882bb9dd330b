/** String helpers with the semantics of the Python string operations the generator uses. */
module Text {
  import opened Seqs

  /** `' ' * n` */
  function Spaces(n: nat): (r: string)
    ensures |r| == n
    ensures forall i :: 0 <= i < n ==> r[i] == ' '
  {
    if n == 0 then "" else Spaces(n - 1) + " "
  }

  /** A prefix of spaces is again spaces. */
  lemma SpacesPrefix(m: nat, n: nat)
    requires m <= n
    ensures Spaces(n)[..m] == Spaces(m)
  {
  }

  /** `s.startswith(prefix)` */
  predicate StartsWith(s: string, prefix: string) {
    |prefix| <= |s| && s[..|prefix|] == prefix
  }

  /** `s.endswith(suffix)` */
  predicate EndsWith(s: string, suffix: string) {
    |suffix| <= |s| && s[|s| - |suffix|..] == suffix
  }

  /** `sep.join(parts)` */
  function Join(parts: seq<string>, sep: string): string
    decreases |parts|
  {
    if parts == [] then ""
    else if |parts| == 1 then parts[0]
    else parts[0] + sep + Join(parts[1..], sep)
  }

  /** Joining with one more part adds the separator and that part at the end. */
  lemma {:induction false} JoinAppend(parts: seq<string>, last: string, sep: string)
    requires parts != []
    ensures Join(parts + [last], sep) == Join(parts, sep) + sep + last
    decreases |parts|
  {
    if |parts| > 1 {
      assert (parts + [last])[1..] == parts[1..] + [last];
      JoinAppend(parts[1..], last, sep);
    }
  }

  /** Extending the last part extends the joined string by the same text. */
  lemma {:induction false} JoinExtendLast(parts: seq<string>, suffix: string, sep: string)
    requires parts != []
    ensures Join(parts[..|parts| - 1] + [parts[|parts| - 1] + suffix], sep) == Join(parts, sep) + suffix
  {
    var init := parts[..|parts| - 1];
    if init == [] {
      assert parts == [parts[0]];
    } else {
      JoinAppend(init, parts[|parts| - 1] + suffix, sep);
      JoinAppend(init, parts[|parts| - 1], sep);
      assert parts == init + [parts[|parts| - 1]];
    }
  }

  /** `s.split(sep)` for a one-character separator: never empty, and joining the parts gives `s` back. */
  function SplitOn(s: string, sep: char): (parts: seq<string>)
    ensures |parts| >= 1
    ensures Join(parts, [sep]) == s
    decreases |s|
  {
    if s == [] then [""]
    else
      var rest := SplitOn(s[1..], sep);
      if s[0] == sep then
        JoinCons("", rest, [sep]);
        [""] + rest
      else
        var parts := [[s[0]] + rest[0]] + rest[1..];
        if |rest| == 1 then
          parts
        else
          JoinCons(rest[0], rest[1..], [sep]);
          JoinCons([s[0]] + rest[0], rest[1..], [sep]);
          assert rest == [rest[0]] + rest[1..];
          parts
  }

  lemma JoinCons(first: string, rest: seq<string>, sep: string)
    requires rest != []
    ensures Join([first] + rest, sep) == first + sep + Join(rest, sep)
  {
    assert ([first] + rest)[1..] == rest;
  }

  /** No part of `s.split(sep)` contains `sep`, and every character of a part is one of `s`. */
  lemma {:induction false} SplitOnParts(s: string, sep: char)
    ensures forall p :: p in SplitOn(s, sep) ==> sep !in p
    ensures forall p :: p in SplitOn(s, sep) ==> forall c :: c in p ==> c in s
    decreases |s|
  {
    if s != [] {
      var rest := SplitOn(s[1..], sep);
      SplitOnParts(s[1..], sep);
      assert forall c :: c in s[1..] ==> c in s;
      if s[0] != sep {
        var parts := SplitOn(s, sep);
        assert parts == [[s[0]] + rest[0]] + rest[1..];
        assert rest[0] in rest;
        assert forall p :: p in parts ==> p == [s[0]] + rest[0] || p in rest;
      }
    }
  }

  /** The characters at which Python's `str.splitlines` ends a line. */
  predicate IsLineBoundary(c: char) {
    c == '\n' || c == '\r' || c == '\U{000B}' || c == '\U{000C}' ||
    c == '\U{001C}' || c == '\U{001D}' || c == '\U{001E}' ||
    c == '\U{0085}' || c == '\U{2028}' || c == '\U{2029}'
  }

  predicate HasNoBoundary(s: string) {
    forall i :: 0 <= i < |s| ==> !IsLineBoundary(s[i])
  }

  lemma NoBoundaryConcat(a: string, b: string)
    requires HasNoBoundary(a) && HasNoBoundary(b)
    ensures HasNoBoundary(a + b)
  {
    forall i | 0 <= i < |a + b|
      ensures !IsLineBoundary((a + b)[i])
    {
      if i >= |a| {
        assert (a + b)[i] == b[i - |a|];
      }
    }
  }

  /**
   * `s.splitlines()` continued from a partly read line `current`: every boundary
   * ends a line (`\r\n` counts as one), and a final line without a boundary is kept
   * only when it is not empty.
   */
  function SplitLinesFrom(s: string, current: string): (lines: seq<string>)
    requires HasNoBoundary(current)
    ensures forall l :: l in lines ==> HasNoBoundary(l)
    decreases |s|
  {
    if s == [] then
      if current == [] then [] else [current]
    else if s[0] == '\r' && |s| > 1 && s[1] == '\n' then
      [current] + SplitLinesFrom(s[2..], [])
    else if IsLineBoundary(s[0]) then
      [current] + SplitLinesFrom(s[1..], [])
    else
      SplitLinesFrom(s[1..], current + [s[0]])
  }

  /** `s.splitlines()`: the lines of `s`, without their boundaries. */
  function SplitLines(s: string): (lines: seq<string>)
    ensures forall l :: l in lines ==> HasNoBoundary(l)
  {
    SplitLinesFrom(s, [])
  }

  /** Each line followed by a newline: the text whose lines are `lines`. */
  function Terminated(lines: seq<string>): string
    decreases |lines|
  {
    if lines == [] then "" else lines[0] + "\n" + Terminated(lines[1..])
  }

  lemma {:induction false} SplitLinesFromLine(line: string, rest: string, current: string)
    requires HasNoBoundary(line) && HasNoBoundary(current)
    ensures SplitLinesFrom(line + "\n" + rest, current) == [current + line] + SplitLinesFrom(rest, [])
    decreases |line|
  {
    var s := line + "\n" + rest;
    if line == [] {
      assert s[1..] == rest;
      assert current + line == current;
    } else {
      assert s[0] == line[0] && !IsLineBoundary(line[0]);
      assert s[1..] == line[1..] + "\n" + rest;
      SplitLinesFromLine(line[1..], rest, current + [line[0]]);
      assert current + [line[0]] + line[1..] == current + line;
    }
  }

  /** Splitting newline-terminated lines gives the same lines back. */
  lemma {:induction false} SplitLinesRoundTrip(lines: seq<string>)
    requires forall l :: l in lines ==> HasNoBoundary(l)
    ensures SplitLines(Terminated(lines)) == lines
    decreases |lines|
  {
    if lines != [] {
      SplitLinesFromLine(lines[0], Terminated(lines[1..]), []);
      SplitLinesRoundTrip(lines[1..]);
      assert [] + lines[0] == lines[0];
    }
  }

  lemma {:induction false} SplitLinesFromNoBoundary(s: string, current: string)
    requires HasNoBoundary(s) && HasNoBoundary(current) && current + s != []
    ensures SplitLinesFrom(s, current) == [current + s]
    decreases |s|
  {
    if s == [] {
      assert current + s == current;
    } else {
      assert HasNoBoundary(current + [s[0]]);
      SplitLinesFromNoBoundary(s[1..], current + [s[0]]);
      assert current + [s[0]] + s[1..] == current + s;
    }
  }

  /** A non-empty text without line boundaries is a single line. */
  lemma SplitLinesSingle(s: string)
    requires HasNoBoundary(s) && s != []
    ensures SplitLines(s) == [s]
  {
    SplitLinesFromNoBoundary(s, []);
    assert [] + s == s;
  }

  lemma {:induction false} SplitLinesFromNonEmpty(s: string, current: string)
    requires HasNoBoundary(current) && current + s != []
    ensures SplitLinesFrom(s, current) != []
    decreases |s|
  {
    if s != [] && !IsLineBoundary(s[0]) {
      assert HasNoBoundary(current + [s[0]]);
      SplitLinesFromNonEmpty(s[1..], current + [s[0]]);
    }
  }

  /** A non-empty text has at least one line. */
  lemma SplitLinesNonEmpty(s: string)
    requires s != []
    ensures SplitLines(s) != []
  {
    SplitLinesFromNonEmpty(s, []);
  }

  /** `s.replace(a, b)` for single characters. */
  function ReplaceChar(s: string, a: char, b: char): (r: string)
    ensures |r| == |s|
    ensures forall i :: 0 <= i < |s| ==> r[i] == (if s[i] == a then b else s[i])
  {
    seq(|s|, i requires 0 <= i < |s| => if s[i] == a then b else s[i])
  }

  /** Splitting at `a` and joining with `b` replaces every `a` by `b`. */
  lemma {:induction false} JoinSplitOn(s: string, a: char, b: char)
    ensures Join(SplitOn(s, a), [b]) == ReplaceChar(s, a, b)
    decreases |s|
  {
    if s != [] {
      var rest := SplitOn(s[1..], a);
      var joined := Join(rest, [b]);
      JoinSplitOn(s[1..], a, b);
      var head := if s[0] == a then b else s[0];
      assert ReplaceChar(s, a, b) == [head] + joined;
      if s[0] == a {
        JoinCons("", rest, [b]);
      } else if |rest| == 1 {
        assert SplitOn(s, a) == [[s[0]] + rest[0]];
      } else {
        JoinCons(rest[0], rest[1..], [b]);
        JoinCons([s[0]] + rest[0], rest[1..], [b]);
        assert rest == [rest[0]] + rest[1..];
        assert SplitOn(s, a) == [[s[0]] + rest[0]] + rest[1..];
        AppendAssoc([s[0]] + rest[0], [b], Join(rest[1..], [b]));
        AppendAssoc([s[0]], rest[0], [b] + Join(rest[1..], [b]));
        AppendAssoc(rest[0], [b], Join(rest[1..], [b]));
      }
    }
  }
}
