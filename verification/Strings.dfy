/** strings.Split and strings.Join on a one-character separator, and TrimSpace. */
module Strings {
  function Join(parts: seq<string>, sep: char): string {
    if parts == [] then "" else if |parts| == 1 then parts[0]
    else parts[0] + [sep] + Join(parts[1..], sep)
  }

  /** The parts of s between separators; always at least one. */
  function Split(s: string, sep: char): (parts: seq<string>)
    ensures parts != []
    decreases |s|
  {
    if s == "" then [""]
    else
      var rest := Split(s[1..], sep);
      if s[0] == sep then [""] + rest else [[s[0]] + rest[0]] + rest[1..]
  }

  lemma {:induction false} SplitNoSep(s: string, sep: char)
    requires sep !in s
    ensures Split(s, sep) == [s]
  {
    if s != "" {
      assert s == [s[0]] + s[1..];
      SplitNoSep(s[1..], sep);
    }
  }

  lemma {:induction false} SplitFirst(s: string, t: string, sep: char)
    requires sep !in s
    ensures Split(s + [sep] + t, sep) == [s] + Split(t, sep)
  {
    if s == "" {
      assert (s + [sep] + t)[1..] == t;
    } else {
      assert s == [s[0]] + s[1..];
      assert (s + [sep] + t)[1..] == s[1..] + [sep] + t;
      SplitFirst(s[1..], t, sep);
    }
  }

  /** Joining and splitting again gives back parts that hold no separator. */
  lemma {:induction false} SplitJoin(parts: seq<string>, sep: char)
    requires parts != [] && forall p <- parts :: sep !in p
    ensures Split(Join(parts, sep), sep) == parts
  {
    if |parts| == 1 {
      SplitNoSep(parts[0], sep);
    } else {
      SplitJoin(parts[1..], sep);
      SplitFirst(parts[0], Join(parts[1..], sep), sep);
    }
  }

  /** The other way round: whatever the string, its parts hold no separator, and joining
      them gives it back. */
  lemma {:induction false} JoinSplit(s: string, sep: char)
    ensures Join(Split(s, sep), sep) == s && forall p <- Split(s, sep) :: sep !in p
  {
    if s != "" {
      JoinSplit(s[1..], sep);
      var rest := Split(s[1..], sep);
      assert s == [s[0]] + s[1..];
      if s[0] == sep {
        assert ([""] + rest)[1..] == rest;
      } else {
        var parts := [[s[0]] + rest[0]] + rest[1..];
        assert parts[1..] == rest[1..];
      }
    }
  }

  /** Joining keeps the order: first one list, then the separator, then the other. */
  lemma {:induction false} JoinConcat(a: seq<string>, b: seq<string>, sep: char)
    requires a != [] && b != []
    ensures Join(a + b, sep) == Join(a, sep) + [sep] + Join(b, sep)
  {
    if |a| == 1 {
      assert (a + b)[1..] == b;
    } else {
      assert (a + b)[1..] == a[1..] + b;
      JoinConcat(a[1..], b, sep);
    }
  }

  /** A character of a joined string is the separator or comes from a part. */
  lemma {:induction false} JoinChars(parts: seq<string>, sep: char, c: char)
    requires c in Join(parts, sep)
    ensures c == sep || exists p <- parts :: c in p
  {
    if |parts| > 1 {
      assert Join(parts, sep) == parts[0] + [sep] + Join(parts[1..], sep);
      if c in Join(parts[1..], sep) {
        JoinChars(parts[1..], sep, c);
      }
    }
  }

  function TrimLeft(s: string, space: char -> bool): string {
    if s != "" && space(s[0]) then TrimLeft(s[1..], space) else s
  }

  function TrimRight(s: string, space: char -> bool): string {
    if s != "" && space(s[|s| - 1]) then TrimRight(s[..|s| - 1], space) else s
  }

  function TrimSpace(s: string, space: char -> bool): string {
    TrimRight(TrimLeft(s, space), space)
  }

  predicate Blank(s: string, space: char -> bool) { forall c <- s :: space(c) }

  lemma {:induction false} TrimLeftSplits(s: string, space: char -> bool) returns (l: string)
    ensures s == l + TrimLeft(s, space) && Blank(l, space)
    ensures TrimLeft(s, space) != "" ==> !space(TrimLeft(s, space)[0])
  {
    l := "";
    if s != "" && space(s[0]) {
      l := TrimLeftSplits(s[1..], space);
      assert s == [s[0]] + s[1..];
      l := [s[0]] + l;
    }
  }

  lemma {:induction false} TrimRightSplits(s: string, space: char -> bool) returns (r: string)
    ensures s == TrimRight(s, space) + r && Blank(r, space)
    ensures TrimRight(s, space) != "" ==> !space(TrimRight(s, space)[|TrimRight(s, space)| - 1])
  {
    r := "";
    if s != "" && space(s[|s| - 1]) {
      r := TrimRightSplits(s[..|s| - 1], space);
      assert s == s[..|s| - 1] + [s[|s| - 1]];
      r := r + [s[|s| - 1]];
    }
  }

  /** Trimming takes blank text off both ends, and all of it. */
  lemma TrimSpaceExact(s: string, space: char -> bool) returns (l: string, r: string)
    ensures var t := TrimSpace(s, space);
      && s == l + t + r && Blank(l, space) && Blank(r, space)
      && (t != "" ==> !space(t[0]) && !space(t[|t| - 1]))
  {
    l := TrimLeftSplits(s, space);
    var m := TrimLeft(s, space);
    r := TrimRightSplits(m, space);
    assert TrimSpace(s, space) != "" ==> TrimSpace(s, space)[0] == m[0];
  }
}
