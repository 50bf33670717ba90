/** The context block the chat route appends to the user's last message: a fixed
    header followed by one fixed-format segment per vector-store match, in the order
    the index returned them. The segment's `Review:` line shows the match's `stars`
    value, exactly as the route writes it. */
module ContextFormatter {
  import opened Wrappers
  import opened ChatTypes

  /** The text the block starts with (the route's spelling, "automatcally", included). */
  const Header: string := "\n\nReturned results from vector db (done automatcally):"

  /** The eight spaces of source indentation that the multi-line template literal keeps. */
  const Indent: string := "        "

  const ProfessorLabel: string := "\n\n" + Indent + "Professor: "
  const ReviewLabel: string := "\n" + Indent + "Review: "
  const SubjectLabel: string := "\n" + Indent + "Subject: "
  const StarsLabel: string := "\n" + Indent + "Stars "
  const Trailer: string := "\n" + Indent + "\n\n\n" + Indent

  /** The first metadata read of a segment, which throws when a match has no metadata. */
  const MetadataRead: string := "match.metadata.stars"

  /** The three values one segment shows. */
  datatype Row = Row(id: string, stars: string, subject: string)

  /** Template-literal rendering of `metadata[key]`: a missing key renders as `undefined`. */
  function Field(md: map<string, string>, key: string): (v: string)
    ensures key in md ==> v == md[key]
    ensures key !in md ==> v == "undefined"
  {
    if key in md then md[key] else "undefined"
  }

  /** The row a match with metadata `md` renders; only `stars` and `subject` are read. */
  function RowOf(id: string, md: map<string, string>): Row
  {
    Row(id, Field(md, "stars"), Field(md, "subject"))
  }

  /** The segment one match adds: identifier, `stars` under the `Review:` label,
      subject, and `stars` again under the `Stars` label. */
  function Segment(r: Row): (s: string)
    ensures ProfessorLabel <= s
    ensures |s| == |ProfessorLabel| + |r.id| + |ReviewLabel| + |r.stars| + |SubjectLabel| + |r.subject|
                   + |StarsLabel| + |r.stars| + |Trailer|
  {
    ProfessorLabel + r.id + ReviewLabel + r.stars + SubjectLabel + r.subject + StarsLabel + r.stars + Trailer
  }

  /** Reference definition: the segments of `rows`, concatenated in order. */
  function Segments(rows: seq<Row>): string
  {
    if |rows| == 0 then "" else Segment(rows[0]) + Segments(rows[1..])
  }

  predicate HasMetadata(ms: seq<Match>)
  {
    forall i :: 0 <= i < |ms| ==> ms[i].metadata.Some?
  }

  /** The rows the matches render, in retrieval order. */
  function Rows(ms: seq<Match>): (rows: seq<Row>)
    requires HasMetadata(ms)
    ensures |rows| == |ms|
  {
    seq(|ms|, i requires 0 <= i < |ms| => RowOf(ms[i].id, ms[i].metadata.value))
  }

  /** The `forEach` loop: starting from `acc`, append each match's segment in turn.
      The first match without metadata throws at its `stars` read, and the partial
      text is lost with the exception. */
  function Accumulate(acc: string, ms: seq<Match>): (r: Result<string, JsError>)
    ensures r.Success? <==> HasMetadata(ms)
    ensures r.Failure? ==> r.error == TypeError(MetadataRead)
    ensures r.Success? ==> acc <= r.value
    decreases |ms|
  {
    if |ms| == 0 then Success(acc)
    else
      match ms[0].metadata
      case None => Failure(TypeError(MetadataRead))
      case Some(md) =>
        var acc' := acc + Segment(RowOf(ms[0].id, md));
        var r := Accumulate(acc', ms[1..]);
        assert HasMetadata(ms) <==> HasMetadata(ms[1..]) by {
          if HasMetadata(ms[1..]) {
            forall i | 0 <= i < |ms| ensures ms[i].metadata.Some? {
              if i > 0 { assert ms[i] == ms[1..][i - 1]; }
            }
          }
        }
        assert acc <= acc';
        r
  }

  /** The context block for the retrieved matches. */
  function FormatContext(ms: seq<Match>): (r: Result<string, JsError>)
    ensures r.Success? <==> HasMetadata(ms)
    ensures r.Failure? ==> r.error == TypeError(MetadataRead)
    ensures r.Success? ==> Header <= r.value
    ensures |ms| == 0 ==> r == Success(Header)
  {
    Accumulate(Header, ms)
  }

  lemma Regroup<T>(a: seq<T>, b: seq<T>, c: seq<T>)
    ensures (a + b) + c == a + (b + c)
  {
  }

  lemma {:induction false} SegmentsAppend(a: seq<Row>, b: seq<Row>)
    ensures Segments(a + b) == Segments(a) + Segments(b)
    decreases |a|
  {
    if |a| > 0 {
      assert (a + b)[1..] == a[1..] + b;
      SegmentsAppend(a[1..], b);
    } else {
      assert a + b == b;
    }
  }

  /** The `forEach` accumulation produces exactly the reference concatenation. */
  lemma {:induction false} AccumulateAppendsSegments(acc: string, ms: seq<Match>)
    requires HasMetadata(ms)
    ensures Accumulate(acc, ms) == Success(acc + Segments(Rows(ms)))
    decreases |ms|
  {
    if |ms| > 0 {
      var seg := Segment(RowOf(ms[0].id, ms[0].metadata.value));
      assert HasMetadata(ms[1..]) by {
        forall i | 0 <= i < |ms[1..]| ensures ms[1..][i].metadata.Some? {
          assert ms[1..][i] == ms[i + 1];
        }
      }
      var tail := Segments(Rows(ms[1..]));
      AccumulateAppendsSegments(acc + seg, ms[1..]);
      assert Rows(ms)[0] == RowOf(ms[0].id, ms[0].metadata.value);
      assert Rows(ms)[1..] == Rows(ms[1..]);
      assert Segments(Rows(ms)) == seg + tail;
      Regroup(acc, seg, tail);
    } else {
      assert acc + Segments(Rows(ms)) == acc;
    }
  }

  /** The block is the header followed by the segments of the matches, in retrieval
      order; a match without metadata makes the whole formatting throw. */
  lemma FormatContextIsHeaderThenSegments(ms: seq<Match>)
    ensures FormatContext(ms) ==
            if HasMetadata(ms) then Success(Header + Segments(Rows(ms)))
            else Failure(TypeError(MetadataRead))
  {
    if HasMetadata(ms) {
      AccumulateAppendsSegments(Header, ms);
    }
  }

  /** Segment `i` sits between the segments of the earlier and of the later matches:
      nothing is re-sorted, dropped or duplicated. */
  lemma {:induction false} SegmentsInOrder(rows: seq<Row>, i: nat)
    requires i < |rows|
    ensures Segments(rows) == Segments(rows[..i]) + Segment(rows[i]) + Segments(rows[i + 1..])
  {
    var before, rest := rows[..i], [rows[i]] + rows[i + 1..];
    assert rows == before + rest;
    SegmentsAppend(before, rest);
    assert rest[0] == rows[i] && rest[1..] == rows[i + 1..];
    assert Segments(rest) == Segment(rows[i]) + Segments(rows[i + 1..]);
  }

  /** Two matches look the same to the formatter when both lack metadata, or both have
      it and agree on identifier, `stars` and `subject`. */
  predicate RendersAlike(m1: Match, m2: Match)
  {
    && m1.metadata.Some? == m2.metadata.Some?
    && (m1.metadata.Some? ==> RowOf(m1.id, m1.metadata.value) == RowOf(m2.id, m2.metadata.value))
  }

  lemma {:induction false} AccumulateReadsOnlyRows(acc: string, ms1: seq<Match>, ms2: seq<Match>)
    requires |ms1| == |ms2|
    requires forall i :: 0 <= i < |ms1| ==> RendersAlike(ms1[i], ms2[i])
    ensures Accumulate(acc, ms1) == Accumulate(acc, ms2)
    decreases |ms1|
  {
    if |ms1| > 0 {
      assert RendersAlike(ms1[0], ms2[0]);
      if ms1[0].metadata.Some? {
        var acc' := acc + Segment(RowOf(ms1[0].id, ms1[0].metadata.value));
        forall i | 0 <= i < |ms1[1..]| ensures RendersAlike(ms1[1..][i], ms2[1..][i]) {
          assert ms1[1..][i] == ms1[i + 1] && ms2[1..][i] == ms2[i + 1];
        }
        AccumulateReadsOnlyRows(acc', ms1[1..], ms2[1..]);
      }
    }
  }

  /** The block never depends on any metadata key other than `stars` and `subject`:
      in particular the `review` text of a match never reaches the prompt. */
  lemma OtherMetadataIsNeverRead(ms: seq<Match>, i: nat, key: string, value: string)
    requires i < |ms| && ms[i].metadata.Some?
    requires key != "stars" && key != "subject"
    ensures FormatContext(ms[i := ms[i].(metadata := Some(ms[i].metadata.value[key := value]))]) == FormatContext(ms)
  {
    var ms' := ms[i := ms[i].(metadata := Some(ms[i].metadata.value[key := value]))];
    forall j | 0 <= j < |ms| ensures RendersAlike(ms'[j], ms[j]) {
      if j == i {
        var md := ms[i].metadata.value;
        assert Field(md[key := value], "stars") == Field(md, "stars");
        assert Field(md[key := value], "subject") == Field(md, "subject");
      }
    }
    AccumulateReadsOnlyRows(Header, ms', ms);
  }
}
