/** HighLightText: scans a text for words that begin with a header and
    reports each as a span [start, end), the end being the next ' ' or ','
    or the end of the text. The abstract doHighLight is a sink that
    appends the span to `highlighted`. */
module HighLight {

  datatype Span = Span(start: int, end: int)

  /** pat occurs in text at position i. */
  predicate OccursAt(text: string, pat: string, i: int) {
    0 <= i && i + |pat| <= |text| && text[i..i + |pat|] == pat
  }

  predicate IsDelimiter(c: char) {
    c == ' ' || c == ','
  }

  /** String.indexOf(pat, from): the first occurrence at or after from, or
      -1 when there is none. */
  function IndexOf(text: string, pat: string, from: nat): (r: int)
    requires from <= |text|
    decreases |text| - from
    ensures r == -1 || from <= r
    ensures r >= 0 ==> OccursAt(text, pat, r)
    ensures r >= 0 ==> forall i :: from <= i < r ==> !OccursAt(text, pat, i)
    ensures r == -1 ==> forall i :: from <= i ==> !OccursAt(text, pat, i)
  {
    if from + |pat| > |text| then -1
    else if text[from..from + |pat|] == pat then from
    else IndexOf(text, pat, from + 1)
  }

  /** The end of the word starting at start: the nearer of the next ' ' and
      the next ',', a missing one counting as the text length. */
  function SpanEnd(text: string, start: nat): (end: int)
    requires start <= |text|
    ensures start <= end <= |text|
    ensures forall i :: start <= i < end ==> !IsDelimiter(text[i])
    ensures end < |text| ==> IsDelimiter(text[end])
  {
    var space := IndexOf(text, " ", start);
    var comma := IndexOf(text, ",", start);
    var p1 := if space >= 0 then space else |text|;
    var p2 := if comma >= 0 then comma else |text|;
    assert forall i :: start <= i < p1 ==> text[i] != ' ' by {
      forall i | start <= i < p1 ensures text[i] != ' ' {
        assert !OccursAt(text, " ", i);
        assert text[i..i + 1] == [text[i]];
      }
    }
    assert forall i :: start <= i < p2 ==> text[i] != ',' by {
      forall i | start <= i < p2 ensures text[i] != ',' {
        assert !OccursAt(text, ",", i);
        assert text[i..i + 1] == [text[i]];
      }
    }
    assert p1 < |text| ==> text[p1] == ' ' by {
      if p1 < |text| { assert text[p1..p1 + 1] == [text[p1]]; }
    }
    assert p2 < |text| ==> text[p2] == ',' by {
      if p2 < |text| { assert text[p2..p2 + 1] == [text[p2]]; }
    }
    if p1 < p2 then p1 else p2
  }

  /** The headers for which the scan terminates: a word that starts with
      such a header is at least one character long. */
  predicate ProperHeader(header: string) {
    |header| > 0 && !IsDelimiter(header[0])
  }

  /** The headers on which highlight returns: a proper header, or a
      non-empty header starting with a delimiter that never occurs in the
      text, so the first search already fails. An empty header, or an
      occurring one that starts with a delimiter, stalls the scan
      (EmptyHeaderStalls, DelimiterHeaderStalls). */
  predicate ScanEnds(text: string, header: string) {
    |header| > 0 && (!IsDelimiter(header[0]) || IndexOf(text, header, 0) < 0)
  }

  /** One reported span: starts at an occurrence of the header and ends at
      the first delimiter after it, or at the end of the text. */
  predicate IsWordSpan(text: string, header: string, sp: Span) {
    && OccursAt(text, header, sp.start)
    && sp.start < sp.end <= |text|
    && (forall i :: sp.start <= i < sp.end ==> !IsDelimiter(text[i]))
    && (sp.end < |text| ==> IsDelimiter(text[sp.end]))
  }

  /** The spans the scan reports from offset on: the first occurrence at
      or after offset, then the scan resumes at the end of that word. */
  function Spans(text: string, header: string, offset: nat): (r: seq<Span>)
    requires ProperHeader(header) && offset <= |text|
    decreases |text| - offset
    ensures |r| <= |text| - offset
    ensures forall k :: 0 <= k < |r| ==> offset <= r[k].start < r[k].end <= |text|
  {
    var start := IndexOf(text, header, offset);
    if start < 0 then []
    else
      assert text[start] == header[0] by {
        assert text[start..start + |header|][0] == text[start];
      }
      var end := SpanEnd(text, start);
      [Span(start, end)] + Spans(text, header, end)
  }

  /** One step of Spans: a found occurrence contributes its word, and the
      scan resumes at the word's end. */
  lemma SpansStep(text: string, header: string, offset: nat)
    requires ProperHeader(header) && offset <= |text|
    ensures IndexOf(text, header, offset) < 0 ==> Spans(text, header, offset) == []
    ensures IndexOf(text, header, offset) >= 0 ==>
      var start := IndexOf(text, header, offset);
      var end := SpanEnd(text, start);
      start < end && Spans(text, header, offset) == [Span(start, end)] + Spans(text, header, end)
  {
  }

  /** Every reported span is a word that starts with the header, at or
      after offset. */
  lemma {:induction false} SpansAreWords(text: string, header: string, offset: nat)
    requires ProperHeader(header) && offset <= |text|
    decreases |text| - offset
    ensures var r := Spans(text, header, offset);
      forall k :: 0 <= k < |r| ==> offset <= r[k].start && IsWordSpan(text, header, r[k])
  {
    SpansStep(text, header, offset);
    var r := Spans(text, header, offset);
    if r != [] {
      var start := r[0].start;
      var end := r[0].end;
      assert text[start..start + |header|][0] == text[start];
      SpansAreWords(text, header, end);
      assert r[1..] == Spans(text, header, end);
      forall k | 0 <= k < |r|
        ensures offset <= r[k].start && IsWordSpan(text, header, r[k])
      {
        if k > 0 {
          assert r[k] == r[1..][k - 1];
        }
      }
    }
  }

  /** Spans are increasing and do not overlap. */
  lemma {:induction false} SpansOrdered(text: string, header: string, offset: nat)
    requires ProperHeader(header) && offset <= |text|
    decreases |text| - offset
    ensures var r := Spans(text, header, offset);
      forall k :: 0 <= k < |r| - 1 ==> r[k].end <= r[k + 1].start
  {
    var r := Spans(text, header, offset);
    if r != [] {
      var end := r[0].end;
      SpansOrdered(text, header, end);
      assert r[1..] == Spans(text, header, end);
    }
  }

  /** Each span starts at the first occurrence at or after the previous
      span's end (after offset for the first span), and after the last span
      there is no further occurrence: the scan stops exactly then. */
  lemma {:induction false} SpansAreFirstOccurrences(text: string, header: string, offset: nat)
    requires ProperHeader(header) && offset <= |text|
    decreases |text| - offset
    ensures var r := Spans(text, header, offset);
      && (r == [] <==> IndexOf(text, header, offset) == -1)
      && (r != [] ==> r[0].start == IndexOf(text, header, offset))
      && (forall k :: 0 <= k < |r| - 1 ==> r[k + 1].start == IndexOf(text, header, r[k].end))
      && (r != [] ==> IndexOf(text, header, r[|r| - 1].end) == -1)
  {
    var r := Spans(text, header, offset);
    if r != [] {
      var end := r[0].end;
      SpansAreFirstOccurrences(text, header, end);
      assert r[1..] == Spans(text, header, end);
    }
  }

  /** Position i lies inside one of the spans. */
  predicate InSomeSpan(spans: seq<Span>, i: int) {
    exists k :: 0 <= k < |spans| && spans[k].start <= i < spans[k].end
  }

  /** Every occurrence of the header at or after offset lies inside a
      reported word; occurrences inside a word other than its start are
      skipped. */
  lemma {:induction false} SpansCoverOccurrences(text: string, header: string, offset: nat, i: int)
    requires ProperHeader(header) && offset <= |text|
    requires offset <= i && OccursAt(text, header, i)
    decreases |text| - offset
    ensures InSomeSpan(Spans(text, header, offset), i)
  {
    var r := Spans(text, header, offset);
    var start := IndexOf(text, header, offset);
    assert start >= 0 && start <= i;
    var end := SpanEnd(text, start);
    assert r[0] == Span(start, end);
    if i < end {
      assert r[0].start <= i < r[0].end;
    } else {
      SpansCoverOccurrences(text, header, end, i);
      var r' := Spans(text, header, end);
      assert r[1..] == r';
      var k :| 0 <= k < |r'| && r'[k].start <= i < r'[k].end;
      assert r[k + 1] == r'[k];
    }
  }

  /** Why the scan needs a proper header: with an empty header, at a
      delimiter or at the end of the text, the next search finds the same
      offset and the word found ends there, so the offset never moves and
      the same empty span is reported forever. */
  lemma EmptyHeaderStalls(text: string, offset: nat)
    requires offset <= |text|
    requires offset == |text| || IsDelimiter(text[offset])
    ensures IndexOf(text, "", offset) == offset
    ensures SpanEnd(text, offset) == offset
  {
  }

  /** Likewise a header that starts with a delimiter: every word it finds
      ends where it starts. */
  lemma DelimiterHeaderStalls(text: string, header: string, offset: nat)
    requires offset <= |text| && |header| > 0 && IsDelimiter(header[0])
    requires IndexOf(text, header, offset) >= 0
    ensures SpanEnd(text, IndexOf(text, header, offset)) == IndexOf(text, header, offset)
  {
    var start := IndexOf(text, header, offset);
    assert text[start..start + |header|][0] == text[start];
  }

  /** Reporting the first pending span keeps reported-then-pending the
      same. */
  lemma MoveFirst(reported: seq<Span>, sp: Span, pending: seq<Span>)
    ensures reported + ([sp] + pending) == (reported + [sp]) + pending
  {
  }

  class HighLightText {
    const header: string
    const text: string
    /** What doHighLight has received, in order. */
    var highlighted: seq<Span>

    constructor (text: string, header: string)
      ensures this.text == text && this.header == header && highlighted == []
    {
      this.text := text;
      this.header := header;
      highlighted := [];
    }

    /** doHighLight: the sink for one span. */
    method DoHighLight(start: int, end: int)
      modifies this
      ensures highlighted == old(highlighted) + [Span(start, end)]
    {
      highlighted := highlighted + [Span(start, end)];
    }

    /** highlight: reports the spans of every word that begins with the
        header, in text order; a delimiter-led header that never occurs
        reports nothing. */
    method Highlight()
      requires ScanEnds(text, header)
      modifies this
      ensures ProperHeader(header) ==> highlighted == old(highlighted) + Spans(text, header, 0)
      ensures !ProperHeader(header) ==> highlighted == old(highlighted)
    {
      var offset: int := 0;
      var found := true;
      while found
        invariant 0 <= offset <= |text|
        invariant ProperHeader(header) && found ==>
          old(highlighted) + Spans(text, header, 0) == highlighted + Spans(text, header, offset)
        invariant ProperHeader(header) && !found ==> highlighted == old(highlighted) + Spans(text, header, 0)
        invariant !ProperHeader(header) ==> offset == 0 && highlighted == old(highlighted)
        decreases if found then |text| - offset + 1 else 0
      {
        found := false;
        var start := IndexOf(text, header, offset);
        if ProperHeader(header) {
          SpansStep(text, header, offset);
        }
        if start >= 0 {
          found := true;
          offset := IndexOf(text, " ", start);
          var end := SpanEnd(text, start);
          offset := end;
          if end >= 0 {
            MoveFirst(highlighted, Span(start, end), Spans(text, header, end));
            DoHighLight(start, end);
          } else {
            found := false;
          }
        } else {
          assert highlighted + [] == highlighted;
        }
      }
    }
  }
}
