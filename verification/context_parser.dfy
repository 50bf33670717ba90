/** A reader for the context block, used as the formatter's inverse: from a block it
    recovers the identifier, `stars` and `subject` of every match, in order. It shows
    that the block carries one segment per match, in retrieval order, with nothing
    dropped, duplicated or re-sorted, whenever the rendered values are single lines. */
module ContextParser {
  import opened Wrappers
  import opened ChatTypes
  import opened ContextFormatter

  /** Splits `s` at its first line break: the text before it, and the rest from the
      line break on. */
  function SplitLine(s: string): (r: (string, string))
    ensures r.0 + r.1 == s
    ensures '\n' !in r.0
    ensures r.1 == [] || r.1[0] == '\n'
    decreases |s|
  {
    if |s| == 0 || s[0] == '\n' then ([], s)
    else
      var (line, rest) := SplitLine(s[1..]);
      assert [s[0]] + line + rest == [s[0]] + s[1..];
      ([s[0]] + line, rest)
  }

  /** The rest of `s` after the literal `lit`, when `s` starts with it. */
  function Strip(lit: string, s: string): (r: Option<string>)
    ensures r.Some? <==> lit <= s
    ensures r.Some? ==> s == lit + r.value
  {
    if lit <= s then Some(s[|lit|..]) else None
  }

  /** Reads one segment off the front of `s`, checking that the `Review:` and `Stars`
      lines show the same value. */
  function ParseSegment(s: string): (r: Option<(Row, string)>)
    ensures r.Some? ==> |r.value.1| < |s|
  {
    var a :- Strip(ProfessorLabel, s);
    var (id, b) := SplitLine(a);
    var c :- Strip(ReviewLabel, b);
    var (stars, d) := SplitLine(c);
    var e :- Strip(SubjectLabel, d);
    var (subject, f) := SplitLine(e);
    var g :- Strip(StarsLabel, f);
    var (stars', h) := SplitLine(g);
    var rest :- Strip(Trailer, h);
    if stars' == stars then Some((Row(id, stars, subject), rest)) else None
  }

  /** Reads segments until the text is used up. */
  function ParseSegments(s: string): (r: Option<seq<Row>>)
    decreases |s|
  {
    if |s| == 0 then Some([])
    else
      var first :- ParseSegment(s);
      var others :- ParseSegments(first.1);
      Some([first.0] + others)
  }

  /** Reads a whole context block: the header, then the segments. */
  function ParseContext(s: string): (r: Option<seq<Row>>)
  {
    var body :- Strip(Header, s);
    ParseSegments(body)
  }

  /** A row whose three values fit on one line each. */
  predicate SingleLine(r: Row)
  {
    '\n' !in r.id && '\n' !in r.stars && '\n' !in r.subject
  }

  lemma StripPrefix(lit: string, s: string)
    ensures Strip(lit, lit + s) == Some(s)
  {
    assert (lit + s)[|lit|..] == s;
  }

  lemma {:induction false} SplitLineStopsAtBreak(line: string, rest: string)
    requires '\n' !in line
    requires rest == [] || rest[0] == '\n'
    ensures SplitLine(line + rest) == (line, rest)
    decreases |line|
  {
    if |line| == 0 {
      assert line + rest == rest;
    } else {
      assert (line + rest)[0] == line[0];
      assert (line + rest)[1..] == line[1..] + rest;
      SplitLineStopsAtBreak(line[1..], rest);
      assert [line[0]] + line[1..] == line;
    }
  }

  /** A segment followed by more text, with every concatenation grouped to the right. */
  lemma SegmentThen(r: Row, tail: string)
    ensures Segment(r) + tail ==
            ProfessorLabel + (r.id + (ReviewLabel + (r.stars + (SubjectLabel + (r.subject +
            (StarsLabel + (r.stars + (Trailer + tail))))))))
  {
    var t8 := Trailer + tail;
    var t7 := r.stars + t8;
    var t6 := StarsLabel + t7;
    var t5 := r.subject + t6;
    var t4 := SubjectLabel + t5;
    var t3 := r.stars + t4;
    var t2 := ReviewLabel + t3;
    var s1 := ProfessorLabel + r.id;
    var s2 := s1 + ReviewLabel;
    var s3 := s2 + r.stars;
    var s4 := s3 + SubjectLabel;
    var s5 := s4 + r.subject;
    var s6 := s5 + StarsLabel;
    var s7 := s6 + r.stars;
    assert Segment(r) == s7 + Trailer;
    Regroup(s7, Trailer, tail);
    Regroup(s6, r.stars, t8);
    Regroup(s5, StarsLabel, t7);
    Regroup(s4, r.subject, t6);
    Regroup(s3, SubjectLabel, t5);
    Regroup(s2, r.stars, t4);
    Regroup(s1, ReviewLabel, t3);
    Regroup(ProfessorLabel, r.id, t2);
  }

  /** Reading a rendered segment gives back its row and leaves what follows it. */
  lemma SegmentRoundTrip(r: Row, tail: string)
    requires SingleLine(r)
    ensures ParseSegment(Segment(r) + tail) == Some((r, tail))
  {
    var h := Trailer + tail;
    var g := r.stars + h;
    var f := StarsLabel + g;
    var e := r.subject + f;
    var d := SubjectLabel + e;
    var c := r.stars + d;
    var b := ReviewLabel + c;
    var a := r.id + b;
    SegmentThen(r, tail);
    StripPrefix(ProfessorLabel, a);
    SplitLineStopsAtBreak(r.id, b);
    StripPrefix(ReviewLabel, c);
    SplitLineStopsAtBreak(r.stars, d);
    StripPrefix(SubjectLabel, e);
    SplitLineStopsAtBreak(r.subject, f);
    StripPrefix(StarsLabel, g);
    SplitLineStopsAtBreak(r.stars, h);
    StripPrefix(Trailer, tail);
  }

  lemma {:induction false} SegmentsRoundTrip(rows: seq<Row>)
    requires forall i :: 0 <= i < |rows| ==> SingleLine(rows[i])
    ensures ParseSegments(Segments(rows)) == Some(rows)
    decreases |rows|
  {
    if |rows| > 0 {
      var s := Segments(rows);
      var tail := Segments(rows[1..]);
      assert s == Segment(rows[0]) + tail;
      SegmentRoundTrip(rows[0], tail);
      assert ParseSegment(s) == Some((rows[0], tail));
      assert forall i :: 0 <= i < |rows[1..]| ==> SingleLine(rows[1..][i]) by {
        forall i | 0 <= i < |rows[1..]| ensures SingleLine(rows[1..][i]) {
          assert rows[1..][i] == rows[i + 1];
        }
      }
      SegmentsRoundTrip(rows[1..]);
      assert ParseSegments(s) == Some([rows[0]] + rows[1..]);
      assert [rows[0]] + rows[1..] == rows;
    }
  }

  /** Formatting then reading gives back every match's identifier, `stars` and
      `subject`, in retrieval order: one segment per match, none dropped, repeated or
      moved. */
  lemma ContextRoundTrip(ms: seq<Match>)
    requires HasMetadata(ms)
    requires forall i :: 0 <= i < |ms| ==> SingleLine(Rows(ms)[i])
    ensures FormatContext(ms).Success?
    ensures ParseContext(FormatContext(ms).value) == Some(Rows(ms))
  {
    FormatContextIsHeaderThenSegments(ms);
    StripPrefix(Header, Segments(Rows(ms)));
    SegmentsRoundTrip(Rows(ms));
  }

  /** Whatever `ParseSegment` accepts is exactly a rendered segment followed by the rest. */
  lemma SegmentSound(s: string)
    ensures ParseSegment(s).Some? ==>
              var (r, rest) := ParseSegment(s).value; SingleLine(r) && s == Segment(r) + rest
  {
    if ParseSegment(s).Some? {
      var a := Strip(ProfessorLabel, s).value;
      var (id, b) := SplitLine(a);
      var c := Strip(ReviewLabel, b).value;
      var (stars, d) := SplitLine(c);
      var e := Strip(SubjectLabel, d).value;
      var (subject, f) := SplitLine(e);
      var g := Strip(StarsLabel, f).value;
      var (stars', h) := SplitLine(g);
      var rest := Strip(Trailer, h).value;
      var r := Row(id, stars, subject);
      assert ParseSegment(s) == Some((r, rest));
      assert stars' == stars;
      SegmentThen(r, rest);
    }
  }

  lemma {:induction false} SegmentsSound(s: string)
    ensures ParseSegments(s).Some? ==> s == Segments(ParseSegments(s).value)
    decreases |s|
  {
    if |s| > 0 && ParseSegments(s).Some? {
      var first := ParseSegment(s).value;
      SegmentSound(s);
      SegmentsSound(first.1);
      var rows := ParseSegments(s).value;
      assert rows[0] == first.0 && rows[1..] == ParseSegments(first.1).value;
    }
  }

  /** A text the reader accepts is exactly the block the formatter renders for the rows
      it reads: the reader never accepts anything the formatter could not have written. */
  lemma ContextSound(s: string)
    ensures ParseContext(s).Some? ==> s == Header + Segments(ParseContext(s).value)
  {
    if ParseContext(s).Some? {
      SegmentsSound(Strip(Header, s).value);
    }
  }
}
