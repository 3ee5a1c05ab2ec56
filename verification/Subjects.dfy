/** How segments become a subject and what segments may hold (nats/target.go). The Unicode
    tables behind unicode.IsSpace and unicode.IsPrint are parameters. */
module Subjects {
  import opened Strings
  import opened Wrappers

  datatype Unicode = Unicode(isSpace: char -> bool, isPrint: char -> bool)

  datatype SegmentError = EmptySegment | HasDot | HasWildcard | HasSpace | NotPrintable

  datatype SubjectError = NoSegments | BadSegment(at: nat, why: SegmentError)

  predicate CharOk(u: Unicode, c: char) {
    c != '.' && c != '*' && c != '>' && !u.isSpace(c) && u.isPrint(c)
  }

  predicate SegmentOk(u: Unicode, seg: string) {
    seg != "" && forall c <- seg :: CharOk(u, c)
  }

  /** The reason is that of character c: the dot, a wildcard, or else what the tables say. */
  predicate Blames(u: Unicode, c: char, why: SegmentError) {
    match why
    case EmptySegment => false
    case HasDot => c == '.'
    case HasWildcard => c == '*' || c == '>'
    case HasSpace => c != '.' && c != '*' && c != '>' && u.isSpace(c)
    case NotPrintable => c != '.' && c != '*' && c != '>' && !u.isSpace(c) && !u.isPrint(c)
  }

  /** Ok, or the reason of the first character that is refused. */
  method CheckSegment(u: Unicode, seg: string) returns (r: Result<(), SegmentError>)
    ensures r.Ok? <==> SegmentOk(u, seg)
    ensures r.Ok? <==>
      seg != "" && '.' !in seg && '*' !in seg && '>' !in seg && forall c <- seg :: !u.isSpace(c) && u.isPrint(c)
    ensures r == Err(EmptySegment) <==> seg == ""
    ensures r.Err? && seg != "" ==>
      exists i :: 0 <= i < |seg| && Blames(u, seg[i], r.error) && forall j :: 0 <= j < i ==> CharOk(u, seg[j])
  {
    if seg == "" {
      return Err(EmptySegment);
    }
    for i := 0 to |seg|
      invariant forall j :: 0 <= j < i ==> CharOk(u, seg[j])
    {
      var c := seg[i];
      assert c in seg;
      if c == '.' {
        return Err(HasDot);
      } else if c == '*' || c == '>' {
        return Err(HasWildcard);
      } else if u.isSpace(c) {
        return Err(HasSpace);
      } else if !u.isPrint(c) {
        return Err(NotPrintable);
      }
    }
    return Ok(());
  }

  /** The subject of the segments, or the first segment that is refused. */
  method Subject(u: Unicode, segments: seq<string>) returns (r: Result<string, SubjectError>)
    ensures r.Ok? <==> Accepted(u, segments)
    ensures r.Ok? ==> segments != []
    ensures r.Ok? ==>
      forall seg <- segments :: seg != "" && forall c <- seg :: c !in ".*>" && !u.isSpace(c) && u.isPrint(c)
    ensures r.Ok? ==> r.value == Join(segments, '.')
    ensures r == Err(NoSegments) <==> segments == []
    ensures r.Err? && segments != [] ==>
      r.error.at < |segments| && !SegmentOk(u, segments[r.error.at])
      && (if r.error.why == EmptySegment then segments[r.error.at] == ""
          else exists c <- segments[r.error.at] :: Blames(u, c, r.error.why))
      && forall j :: 0 <= j < r.error.at ==> SegmentOk(u, segments[j])
  {
    if |segments| == 0 {
      return Err(NoSegments);
    }
    for i := 0 to |segments|
      invariant forall j :: 0 <= j < i ==> SegmentOk(u, segments[j])
    {
      var checked := CheckSegment(u, segments[i]);
      if checked.Err? {
        return Err(BadSegment(i, checked.error));
      }
    }
    return Ok(Join(segments, '.'));
  }

  predicate Accepted(u: Unicode, segments: seq<string>) {
    segments != [] && forall seg <- segments :: SegmentOk(u, seg)
  }

  /** Splitting a subject on its dots gives back the segments. */
  lemma SubjectSplits(u: Unicode, segments: seq<string>)
    requires Accepted(u, segments)
    ensures Split(Join(segments, '.'), '.') == segments
  {
    forall seg | seg in segments ensures '.' !in seg {
      assert SegmentOk(u, seg) && !CharOk(u, '.');
    }
    SplitJoin(segments, '.');
  }

  /** Distinct targets get distinct subjects. */
  lemma SubjectsDistinct(u: Unicode, a: seq<string>, b: seq<string>)
    requires Accepted(u, a) && Accepted(u, b) && Join(a, '.') == Join(b, '.')
    ensures a == b
  {
    SubjectSplits(u, a);
    SubjectSplits(u, b);
  }

  /** A subject is literal: no wildcard, whitespace or non-printable character, and
      no empty token. */
  lemma SubjectLiteral(u: Unicode, segments: seq<string>)
    requires Accepted(u, segments)
    ensures forall c <- Join(segments, '.') ::
      c != '*' && c != '>' && (c == '.' || (!u.isSpace(c) && u.isPrint(c)))
    ensures forall token <- Split(Join(segments, '.'), '.') :: token != ""
  {
    forall c | c in Join(segments, '.')
      ensures c != '*' && c != '>' && (c == '.' || (!u.isSpace(c) && u.isPrint(c)))
    {
      JoinChars(segments, '.', c);
    }
    SubjectSplits(u, segments);
  }
}
