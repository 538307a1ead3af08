/** The Swift standard-library string operations the core relies on. */
module Text {

  /** The combined length of `parts`. */
  function Lengths(parts: seq<string>): nat
    decreases |parts|
  {
    if |parts| == 0 then 0 else |parts[0]| + Lengths(parts[1..])
  }

  /**
   * `parts.joined(separator: separator)`: empty for no parts; otherwise it
   * starts with the first part (its length is in `JoinLength`).
   */
  function Join(parts: seq<string>, separator: string): (r: string)
    ensures |parts| == 0 ==> r == ""
    ensures |parts| > 0 ==> parts[0] <= r
    decreases |parts|
  {
    if |parts| == 0 then ""
    else if |parts| == 1 then parts[0]
    else parts[0] + separator + Join(parts[1..], separator)
  }

  /** The joined text holds every part and one separator between each two neighbours. */
  lemma {:induction false} JoinLength(parts: seq<string>, separator: string)
    requires |parts| > 0
    ensures |Join(parts, separator)| == Lengths(parts) + (|parts| - 1) * |separator|
    decreases |parts|
  {
    if |parts| > 1 {
      JoinLength(parts[1..], separator);
    }
  }

  /** Appending a part to a non-empty list appends the separator and the part to the text. */
  lemma {:induction false} JoinAppend(parts: seq<string>, part: string, separator: string)
    requires |parts| > 0
    ensures Join(parts + [part], separator) == Join(parts, separator) + separator + part
    decreases |parts|
  {
    if |parts| > 1 {
      assert (parts + [part])[1..] == parts[1..] + [part];
      JoinAppend(parts[1..], part, separator);
    } else {
      assert parts + [part] == [parts[0], part];
      assert [parts[0], part][1..] == [part];
    }
  }

  lemma JoinOne(a: string, separator: string)
    ensures Join([a], separator) == a
  {
  }

  lemma JoinTwo(a: string, b: string, separator: string)
    ensures Join([a, b], separator) == a + separator + b
  {
    assert [a, b][1..] == [b];
  }

  lemma JoinThree(a: string, b: string, c: string, separator: string)
    ensures Join([a, b, c], separator) == a + separator + b + separator + c
  {
    assert [a, b, c][1..] == [b, c];
    JoinTwo(b, c, separator);
  }

  /**
   * `s.split(separator: sep)` with Swift's defaults: the maximal runs of
   * characters other than `sep`, in order, with empty runs omitted.
   */
  function Split(s: string, sep: char): (parts: seq<string>)
    ensures forall i | 0 <= i < |parts| :: parts[i] != [] && sep !in parts[i]
  {
    SplitFrom(s, sep, [])
  }

  /** Splitting the rest of the input `s` when the run `current` is already open. */
  function SplitFrom(s: string, sep: char, current: string): (parts: seq<string>)
    requires sep !in current
    ensures forall i | 0 <= i < |parts| :: parts[i] != [] && sep !in parts[i]
    decreases |s|
  {
    if s == [] then
      (if current == [] then [] else [current])
    else if s[0] == sep then
      (if current == [] then [] else [current]) + SplitFrom(s[1..], sep, [])
    else
      SplitFrom(s[1..], sep, current + [s[0]])
  }

  /** `s` without its trailing occurrences of `sep`. */
  function StripTrailing(s: string, sep: char): (r: string)
    decreases |s|
  {
    if s != [] && s[|s| - 1] == sep then StripTrailing(s[..|s| - 1], sep) else s
  }

  /** The longest suffix of `s` that does not contain `sep`. */
  function TrailingRun(s: string, sep: char): (r: string)
    decreases |s|
  {
    if s != [] && s[|s| - 1] != sep then TrailingRun(s[..|s| - 1], sep) + [s[|s| - 1]] else []
  }

  /**
   * An independent description of the last component of `s`: drop the
   * trailing separators, then take the run of non-separators that ends there.
   */
  function LastRun(s: string, sep: char): (r: string)
  {
    TrailingRun(StripTrailing(s, sep), sep)
  }

  lemma {:induction false} NoSeparatorRun(s: string, sep: char)
    requires sep !in s
    ensures StripTrailing(s, sep) == s && TrailingRun(s, sep) == s
    decreases |s|
  {
    if s != [] {
      assert s[|s| - 1] in s;
      NoSeparatorRun(s[..|s| - 1], sep);
      assert s[..|s| - 1] + [s[|s| - 1]] == s;
    }
  }

  lemma {:induction false} StripTrailingAppend(a: string, b: string, sep: char)
    ensures StripTrailing(a + b, sep)
            == if StripTrailing(b, sep) == [] then StripTrailing(a, sep) else a + StripTrailing(b, sep)
    decreases |b|
  {
    if b == [] {
      assert a + b == a;
    } else {
      var b' := b[..|b| - 1];
      assert (a + b)[..|a + b| - 1] == a + b';
      if b[|b| - 1] == sep {
        StripTrailingAppend(a, b', sep);
      }
    }
  }

  lemma {:induction false} TrailingRunAfterSeparator(a: string, b: string, sep: char)
    requires a == [] || a[|a| - 1] == sep
    ensures TrailingRun(a + b, sep) == TrailingRun(b, sep)
    decreases |b|
  {
    if b == [] {
      assert a + b == a;
    } else {
      var b' := b[..|b| - 1];
      assert (a + b)[..|a + b| - 1] == a + b';
      if b[|b| - 1] != sep {
        TrailingRunAfterSeparator(a, b', sep);
      }
    }
  }

  /** The last component of `a + b` is that of `b` whenever `b` has one and `a` ends a run. */
  lemma LastRunAfterSeparator(a: string, b: string, sep: char)
    requires a == [] || a[|a| - 1] == sep
    ensures LastRun(a + b, sep) == if StripTrailing(b, sep) == [] then LastRun(a, sep) else LastRun(b, sep)
  {
    StripTrailingAppend(a, b, sep);
    if StripTrailing(b, sep) != [] {
      TrailingRunAfterSeparator(a, StripTrailing(b, sep), sep);
    }
  }

  lemma {:induction false} SplitFromLast(s: string, sep: char, current: string)
    requires sep !in current
    ensures var parts := SplitFrom(s, sep, current);
            && (parts == [] <==> LastRun(current + s, sep) == [])
            && (parts != [] ==> parts[|parts| - 1] == LastRun(current + s, sep))
    decreases |s|
  {
    if s == [] {
      assert current + s == current;
      NoSeparatorRun(current, sep);
    } else if s[0] == sep {
      SplitFromLast(s[1..], sep, []);
      assert [] + s[1..] == s[1..];
      SplitAtSeparator(s, sep, current);
    } else {
      assert current + s == (current + [s[0]]) + s[1..];
      SplitFromLast(s[1..], sep, current + [s[0]]);
    }
  }

  /** The step of `SplitFromLast` where `s` starts with a separator, given the claim for the rest. */
  lemma SplitAtSeparator(s: string, sep: char, current: string)
    requires sep !in current && s != [] && s[0] == sep
    requires var rest := SplitFrom(s[1..], sep, []);
             && (rest == [] <==> LastRun(s[1..], sep) == [])
             && (rest != [] ==> rest[|rest| - 1] == LastRun(s[1..], sep))
    ensures var parts := SplitFrom(s, sep, current);
            && (parts == [] <==> LastRun(current + s, sep) == [])
            && (parts != [] ==> parts[|parts| - 1] == LastRun(current + s, sep))
  {
    var rest := SplitFrom(s[1..], sep, []);
    var head: seq<string> := if current == [] then [] else [current];
    SplitFromAtSeparator(s, sep, current);
    LastRunAtSeparator(s, sep, current);
    if rest != [] {
      assert (head + rest)[|head + rest| - 1] == rest[|rest| - 1];
    }
  }

  /** A separator closes the open run, if any, and splitting goes on with an empty one. */
  lemma SplitFromAtSeparator(s: string, sep: char, current: string)
    requires sep !in current && s != [] && s[0] == sep
    ensures SplitFrom(s, sep, current)
            == (if current == [] then [] else [current]) + SplitFrom(s[1..], sep, [])
  {
  }

  /** After a separator, the last run is that of the rest, or the closed run when the rest has none. */
  lemma LastRunAtSeparator(s: string, sep: char, current: string)
    requires sep !in current && s != [] && s[0] == sep
    ensures LastRun(current + s, sep) == if LastRun(s[1..], sep) == [] then current else LastRun(s[1..], sep)
  {
    var closed := current + [sep];
    assert current + s == closed + s[1..];
    LastRunAfterSeparator(closed, s[1..], sep);
    LastRunClosed(current, sep);
    LastRunEmpty(s[1..], sep);
  }

  lemma LastRunClosed(current: string, sep: char)
    requires sep !in current
    ensures LastRun(current + [sep], sep) == current
  {
    assert (current + [sep])[..|current + [sep]| - 1] == current;
    NoSeparatorRun(current, sep);
  }

  lemma LastRunEmpty(s: string, sep: char)
    ensures LastRun(s, sep) == [] <==> StripTrailing(s, sep) == []
  {
    var t := StripTrailing(s, sep);
    StripTrailingEndsWell(s, sep);
    if t != [] {
      assert t[..|t| - 1] + [t[|t| - 1]] == t;
    }
  }

  lemma {:induction false} StripTrailingEndsWell(s: string, sep: char)
    ensures var t := StripTrailing(s, sep); t == [] || t[|t| - 1] != sep
    decreases |s|
  {
    if s != [] && s[|s| - 1] == sep {
      StripTrailingEndsWell(s[..|s| - 1], sep);
    }
  }

  /** The last part that `Split` yields is exactly `LastRun`, and there is none iff `LastRun` is empty. */
  lemma SplitLast(s: string, sep: char)
    ensures var parts := Split(s, sep);
            && (parts == [] <==> LastRun(s, sep) == [])
            && (parts != [] ==> parts[|parts| - 1] == LastRun(s, sep))
  {
    SplitFromLast(s, sep, []);
    assert [] + s == s;
  }

  /** The characters of `s` before its first `c` (all of `s` when it has none). */
  function TakeUntil(s: string, c: char): (r: string)
    ensures c !in r && r <= s
  {
    if s == [] || s[0] == c then [] else [s[0]] + TakeUntil(s[1..], c)
  }

  /** A word without `c`, followed by nothing or by text starting with `c`, is what `TakeUntil` reads back. */
  lemma {:induction false} TakeUntilWord(x: string, rest: string, c: char)
    requires c !in x
    requires rest == [] || rest[0] == c
    ensures TakeUntil(x + rest, c) == x
  {
    if x == [] {
      assert x + rest == rest;
    } else {
      assert (x + rest)[1..] == x[1..] + rest;
      TakeUntilWord(x[1..], rest, c);
    }
  }

  /** Equal texts that start alike continue alike. */
  lemma CancelPrefix(p: string, x: string, y: string)
    requires p + x == p + y
    ensures x == y
  {
    assert x == (p + x)[|p|..];
  }

  /** After a common prefix, a word without `c` ends where `c` or the text ends, so equal texts have equal words. */
  lemma SameWordAfterPrefix(p: string, x: string, rx: string, y: string, ry: string, c: char)
    requires c !in x && c !in y
    requires rx == [] || rx[0] == c
    requires ry == [] || ry[0] == c
    requires p + x + rx == p + y + ry
    ensures x == y
  {
    assert p + x + rx == p + (x + rx);
    assert p + y + ry == p + (y + ry);
    CancelPrefix(p, x + rx, y + ry);
    TakeUntilWord(x, rx, c);
    TakeUntilWord(y, ry, c);
  }
}
