/**
 * Transcript lines: the `[start --> end] text` line written for each segment, the
 * header block the web app puts in front, and the text each entry point assembles.
 */
module Transcript {
  import opened Wrappers
  import opened Strings
  import opened Timestamp

  /** A recognised span of speech: start and end offsets in seconds and its text. */
  datatype Segment = Segment(start: real, end: real, text: string)

  /**
   * The line for one segment: both offsets rendered, then the text exactly as the
   * model gave it, then a newline.
   */
  function SegmentLine(seg: Segment): (line: string)
    ensures 2 <= |line| && line[0] == '[' && line[|line| - 1] == '\n'
  {
    Assemble(FormatTimestamp(seg.start), FormatTimestamp(seg.end), seg.text)
  }

  /** The three parts of a segment line: the two rendered offsets and the text. */
  datatype LineFields = LineFields(start: string, end: string, text: string)

  /**
   * Reads a segment line back: '[' up to the first ' ', then " --> " up to the
   * first ']', then "] " and the text up to the final newline.
   */
  function ParseSegmentLine(line: string): Option<LineFields>
  {
    if |line| < 2 || line[0] != '[' || line[|line| - 1] != '\n' then None
    else
      match (IndexOf(line, ' '), IndexOf(line, ']'))
      case (Some(i), Some(j)) =>
        if i + 5 <= j && j + 2 <= |line| - 1 && line[i..i + 5] == " --> " && line[j + 1] == ' '
        then Some(LineFields(line[1..i], line[i + 5..j], line[j + 2..|line| - 1]))
        else None
      case _ => None
  }

  /** A line assembled from its three parts, as `SegmentLine` assembles it. */
  function Assemble(a: string, b: string, t: string): string
  {
    "[" + a + " --> " + b + "] " + t + "\n"
  }

  /** Rendered offsets hold none of the characters that delimit a segment line. */
  lemma TimeCharsExclude(a: string)
    requires TimeChars(a)
    ensures ' ' !in a && ']' !in a && '\n' !in a
  {
    assert forall k :: 0 <= k < |a| ==> TimeChar(a[k]);
  }

  /** The assembled line adds exactly one newline to those of the text. */
  lemma AssembledNewlines(a: string, b: string, t: string)
    requires '\n' !in a && '\n' !in b
    ensures multiset(Assemble(a, b, t))['\n'] == multiset(t)['\n'] + 1
  {
    assert multiset(a)['\n'] == 0 && multiset(b)['\n'] == 0;
  }

  lemma FirstSpace(a: string, b: string, t: string)
    requires ' ' !in a
    ensures IndexOf(Assemble(a, b, t), ' ') == Some(1 + |a|)
  {
    var line := Assemble(a, b, t);
    assert line[..1 + |a|] == "[" + a;
    IndexOfIsFirst(line, ' ', 1 + |a|);
  }

  lemma FirstBracket(a: string, b: string, t: string)
    requires ']' !in a && ']' !in b
    ensures IndexOf(Assemble(a, b, t), ']') == Some(6 + |a| + |b|)
  {
    var line := Assemble(a, b, t);
    var p := "[" + a + " --> " + b;
    assert ']' !in p;
    assert line[..|p|] == p;
    IndexOfIsFirst(line, ']', |p|);
  }

  lemma AssembledSlices(a: string, b: string, t: string)
    ensures var line := Assemble(a, b, t);
      && |line| == |a| + |b| + |t| + 9 && line[0] == '[' && line[|line| - 1] == '\n'
      && line[1 + |a|..6 + |a|] == " --> " && line[7 + |a| + |b|] == ' '
      && line[1..1 + |a|] == a && line[6 + |a|..6 + |a| + |b|] == b && line[8 + |a| + |b|..|line| - 1] == t
  {
  }

  /** A line whose first ' ' and first ']' sit right after its offsets reads back into its parts. */
  lemma ParseFields(line: string, a: string, b: string, t: string)
    requires |line| == |a| + |b| + |t| + 9 && line[0] == '[' && line[|line| - 1] == '\n'
    requires IndexOf(line, ' ') == Some(1 + |a|) && IndexOf(line, ']') == Some(6 + |a| + |b|)
    requires line[1 + |a|..6 + |a|] == " --> " && line[7 + |a| + |b|] == ' '
    requires line[1..1 + |a|] == a && line[6 + |a|..6 + |a| + |b|] == b && line[8 + |a| + |b|..|line| - 1] == t
    ensures ParseSegmentLine(line) == Some(LineFields(a, b, t))
  {
  }

  /** Any line assembled from offsets free of ' ', ']' reads back into its parts. */
  lemma ParseAssembled(a: string, b: string, t: string)
    requires ' ' !in a && ']' !in a && ']' !in b
    ensures ParseSegmentLine(Assemble(a, b, t)) == Some(LineFields(a, b, t))
  {
    FirstSpace(a, b, t);
    FirstBracket(a, b, t);
    AssembledSlices(a, b, t);
    ParseFields(Assemble(a, b, t), a, b, t);
  }

  /**
   * Every segment line reads back into the segment's two rendered offsets and its
   * unmodified text, so the line determines the whole seconds of both offsets and
   * the text.
   */
  lemma LineRoundTrip(seg: Segment)
    ensures ParseSegmentLine(SegmentLine(seg))
         == Some(LineFields(FormatTimestamp(seg.start), FormatTimestamp(seg.end), seg.text))
  {
    TimeCharsExclude(FormatTimestamp(seg.start));
    TimeCharsExclude(FormatTimestamp(seg.end));
    ParseAssembled(FormatTimestamp(seg.start), FormatTimestamp(seg.end), seg.text);
  }

  /** One line per segment, in the order received. */
  function SegmentLines(segs: seq<Segment>): (lines: seq<string>)
    ensures |lines| == |segs|
  {
    MapSeq(SegmentLine, segs)
  }

  /** `Detected language: L (probability: P)` and a newline; P is the already rendered `:.2f` value. */
  function Header(language: string, probability: string): (h: string)
    ensures |h| == |language| + |probability| + 36 && h[0] != '['
    ensures h[..19] == "Detected language: " && h[19..19 + |language|] == language
    ensures h[19 + |language|..34 + |language|] == " (probability: "
    ensures h[|h| - 2 - |probability|..|h| - 2] == probability && h[|h| - 2..] == ")\n"
  {
    "Detected language: " + language + " (probability: " + probability + ")\n"
  }

  /** `"=" * 80` and a blank line. */
  function Separator(): (s: string)
    ensures |s| == 82 && s[80..] == "\n\n"
    ensures forall k :: 0 <= k < 80 ==> s[k] == '='
  {
    seq(80, _ => '=') + "\n\n"
  }

  /**
   * The web app's `transcription_lines`: the header, the separator, then the line of
   * each segment at the position it was received.
   */
  function DashLines(language: string, probability: string, segs: seq<Segment>): (lines: seq<string>)
    ensures |lines| == |segs| + 2 && lines[0] == Header(language, probability) && lines[1] == Separator()
    ensures forall k :: 0 <= k < |segs| ==> lines[k + 2] == SegmentLine(segs[k])
  {
    MapSeqAfterTwo(Header(language, probability), Separator(), SegmentLine, segs);
    [Header(language, probability), Separator()] + SegmentLines(segs)
  }

  /**
   * The web app's transcript, its lines joined. The two entry points differ only in the
   * header block: it is the header and separator followed by exactly the text the
   * command line writes.
   */
  function DashText(language: string, probability: string, segs: seq<Segment>): (t: string)
    ensures t == Header(language, probability) + Separator() + CliText(segs)
  {
    JoinTwoThen(Header(language, probability), Separator(), SegmentLines(segs));
    Join(DashLines(language, probability, segs))
  }

  /**
   * What the command-line script writes to its output file: the segment lines only. It
   * is empty exactly when there are no segments, and otherwise ends with a newline.
   */
  function CliText(segs: seq<Segment>): (t: string)
    ensures t == [] <==> segs == []
    ensures segs != [] ==> t[|t| - 1] == '\n'
  {
    var lines := SegmentLines(segs);
    if segs == [] then Join(lines)
    else
      var last := lines[|lines| - 1];
      SegmentLineAt(segs, |segs| - 1);
      assert last != [] && last[|last| - 1] == '\n';
      Join(lines)
  }

  /** Consuming more segments only appends their lines. */
  lemma SegmentLinesAppend(a: seq<Segment>, b: seq<Segment>)
    ensures SegmentLines(a + b) == SegmentLines(a) + SegmentLines(b)
  {
    MapSeqAppend(SegmentLine, a, b);
  }

  /** One more segment adds exactly its line at the end. */
  lemma SegmentLinesSnoc(segs: seq<Segment>, seg: Segment)
    ensures SegmentLines(segs + [seg]) == SegmentLines(segs) + [SegmentLine(seg)]
  {
    SegmentLinesAppend(segs, [seg]);
    SegmentLineAt([seg], 0);
  }

  /** The line at position k is the line of the k-th segment received. */
  lemma SegmentLineAt(segs: seq<Segment>, k: nat)
    requires k < |segs|
    ensures SegmentLines(segs)[k] == SegmentLine(segs[k])
  {
    MapSeqAt(SegmentLine, segs, k);
  }

  /** Consuming more segments only appends their lines: earlier output is never rewritten or reordered. */
  lemma CliTextAppend(a: seq<Segment>, b: seq<Segment>)
    ensures CliText(a + b) == CliText(a) + CliText(b)
  {
    SegmentLinesAppend(a, b);
    JoinAppend(SegmentLines(a), SegmentLines(b));
  }

  /** The command-line file never contains the header: each of its lines starts with '['. */
  lemma CliLinesHaveNoHeader(language: string, probability: string, segs: seq<Segment>)
    ensures Header(language, probability) !in SegmentLines(segs)
  {
    var lines := SegmentLines(segs);
    forall k | 0 <= k < |lines| ensures lines[k] != Header(language, probability) {
      SegmentLineAt(segs, k);
      assert lines[k][0] == '[';
    }
  }

  /** The text of a single segment's line, joined on its own. */
  lemma CliTextSingle(seg: Segment)
    ensures CliText([seg]) == SegmentLine(seg)
  {
    SegmentLineAt([seg], 0);
    assert SegmentLines([seg]) == [SegmentLine(seg)];
    JoinSingle(SegmentLine(seg));
  }

  /** Writing one more segment appends its line to the text written so far. */
  lemma CliTextSnoc(segs: seq<Segment>, seg: Segment)
    ensures CliText(segs + [seg]) == CliText(segs) + SegmentLine(seg)
  {
    CliTextAppend(segs, [seg]);
    CliTextSingle(seg);
  }

  /** A line whose text has no newline holds exactly one: its terminator. */
  lemma SegmentLineNewlines(seg: Segment)
    requires '\n' !in seg.text
    ensures multiset(SegmentLine(seg))['\n'] == 1
  {
    TimeCharsExclude(FormatTimestamp(seg.start));
    TimeCharsExclude(FormatTimestamp(seg.end));
    AssembledNewlines(FormatTimestamp(seg.start), FormatTimestamp(seg.end), seg.text);
  }

  /**
   * The written text holds one newline per segment besides those inside the segment
   * texts: when no text holds a newline, exactly one line per segment.
   */
  lemma {:induction false} CliTextNewlines(segs: seq<Segment>)
    requires forall k :: 0 <= k < |segs| ==> '\n' !in segs[k].text
    ensures multiset(CliText(segs))['\n'] == |segs|
  {
    if segs != [] {
      var n := |segs|;
      var front, seg := segs[..n - 1], segs[n - 1];
      assert front + [seg] == segs;
      CliTextNewlines(front);
      CliTextSnoc(front, seg);
      SegmentLineNewlines(seg);
      CountConcat(CliText(front), SegmentLine(seg), '\n');
    }
  }

  /** The written text is empty exactly when there are no segments, and otherwise starts with '['. */
  lemma CliTextStart(segs: seq<Segment>)
    ensures segs == [] <==> CliText(segs) == ""
    ensures segs != [] ==> CliText(segs)[0] == '['
  {
    if segs != [] {
      assert [segs[0]] + segs[1..] == segs;
      CliTextAppend([segs[0]], segs[1..]);
      CliTextSingle(segs[0]);
    }
  }

  /** Each line after the header block reads back into the segment received at that position. */
  lemma DashLinesInOrder(language: string, probability: string, segs: seq<Segment>)
    ensures |DashLines(language, probability, segs)| == |segs| + 2
    ensures forall k :: 0 <= k < |segs| ==>
      ParseSegmentLine(DashLines(language, probability, segs)[k + 2])
        == Some(LineFields(FormatTimestamp(segs[k].start), FormatTimestamp(segs[k].end), segs[k].text))
  {
    forall k | 0 <= k < |segs|
      ensures ParseSegmentLine(DashLines(language, probability, segs)[k + 2])
        == Some(LineFields(FormatTimestamp(segs[k].start), FormatTimestamp(segs[k].end), segs[k].text))
    {
      LineRoundTrip(segs[k]);
    }
  }
}
