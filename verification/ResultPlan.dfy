/** The delivery plan of a terminal backend result: formatting, splitting and the numbered output parts.
    Text is a sequence of Unicode scalar values, which is what the program's rune slices hold. */
module ResultPlan {
  // Telegram's 4096-character limit less a margin.
  const MAX_MSG_RUNES := 4096 - 128

  const READY := "✅ Готово!"
  const SILENCE := "(тишина)"
  const CANCELLED := "❌ Отменено."
  const TRANSCRIPTION_FAILED := "Произошла ошибка при расшифровке."
  const UPLOAD_FAILED := "Не удалось отправить файл на расшифровку."
  const MISSING_JOB := "Задание недоступно в сервисе расшифровки. Отправь файл ещё раз."

  // The two terminal statuses, DONE and FAILED; a job still running has no result.
  datatype Verdict = Transcribed | Failed

  // Start and end are the already rendered one-decimal seconds.
  datatype Segment = Segment(start: string, end: string, text: string)

  datatype JobResult = JobResult(verdict: Verdict, text: string, error: string, segments: seq<Segment>)

  const UPLOAD_INVALID := JobResult(Failed, "", "upload_invalid", [])
  const JOB_MISSING := JobResult(Failed, "", "job_missing", [])

  datatype Kind = Edit | Send | Document

  datatype Delivery = Delivery(kind: Kind, text: string, quoted: bool)

  predicate IsSpace(c: char) {
    || '\t' <= c <= '\r' || c == ' ' || c == '\U{0085}' || c == '\U{00A0}' || c == '\U{1680}'
    || '\U{2000}' <= c <= '\U{200A}' || c == '\U{2028}' || c == '\U{2029}' || c == '\U{202F}'
    || c == '\U{205F}' || c == '\U{3000}'
  }

  function TrimSpace(s: string): (t: string)
    ensures t != [] ==> !IsSpace(t[0]) && !IsSpace(t[|t| - 1])
  {
    if s == [] then s
    else if IsSpace(s[0]) then TrimSpace(s[1..])
    else if IsSpace(s[|s| - 1]) then TrimSpace(s[..|s| - 1])
    else s
  }

  function RenderSegments(segments: seq<Segment>): string {
    if segments == [] then ""
    else
      var s := segments[0];
      "[" + s.start + "s → " + s.end + "s] " + s.text + "\n" + RenderSegments(segments[1..])
  }

  function FormatResult(result: JobResult, preset: string): string {
    if preset == "lecture" && result.segments != [] then TrimSpace(RenderSegments(result.segments)) else result.text
  }

  // formatResult, with its loop over the segments.
  method Format(result: JobResult, preset: string) returns (text: string)
    ensures text == FormatResult(result, preset)
  {
    if preset != "lecture" || result.segments == [] {
      return result.text;
    }
    text := "";
    for i := 0 to |result.segments|
      invariant text + RenderSegments(result.segments[i..]) == RenderSegments(result.segments)
    {
      var s := result.segments[i];
      var line := "[" + s.start + "s → " + s.end + "s] " + s.text + "\n";
      assert result.segments[i..][1..] == result.segments[i + 1..];
      assert text + (line + RenderSegments(result.segments[i + 1..])) == text + line + RenderSegments(result.segments[i + 1..]);
      text := text + line;
    }
    assert result.segments[|result.segments|..] == [] && text + "" == text;
    text := TrimSpace(text);
  }

  // What the user must end up reading for a successful result: the formatted text, or the silence notice.
  function Shown(result: JobResult, preset: string): (text: string)
    ensures text != ""
  {
    var text := FormatResult(result, preset);
    if text == "" then SILENCE else text
  }

  // ----- trimming -----

  // The White_Space characters of Unicode.
  const WHITE_SPACE :=
    "\t\n\U{000B}\U{000C}\r \U{0085}\U{00A0}\U{1680}\U{2000}\U{2001}\U{2002}\U{2003}\U{2004}\U{2005}\U{2006}\U{2007}"
    + "\U{2008}\U{2009}\U{200A}\U{2028}\U{2029}\U{202F}\U{205F}\U{3000}"

  predicate IsWhite(c: char) {
    c in WHITE_SPACE
  }

  lemma SpacesAreWhiteSpace(c: char)
    ensures IsSpace(c) <==> IsWhite(c)
  {
    if IsSpace(c) {
      assert c == WHITE_SPACE[0] || c == WHITE_SPACE[1] || c == WHITE_SPACE[2] || c == WHITE_SPACE[3] || c == WHITE_SPACE[4]
        || c == WHITE_SPACE[5] || c == WHITE_SPACE[6] || c == WHITE_SPACE[7] || c == WHITE_SPACE[8] || c == WHITE_SPACE[9]
        || c == WHITE_SPACE[10] || c == WHITE_SPACE[11] || c == WHITE_SPACE[12] || c == WHITE_SPACE[13] || c == WHITE_SPACE[14]
        || c == WHITE_SPACE[15] || c == WHITE_SPACE[16] || c == WHITE_SPACE[17] || c == WHITE_SPACE[18] || c == WHITE_SPACE[19]
        || c == WHITE_SPACE[20] || c == WHITE_SPACE[21] || c == WHITE_SPACE[22] || c == WHITE_SPACE[23] || c == WHITE_SPACE[24];
    }
  }

  predicate Blank(s: string) {
    forall c | c in s :: IsWhite(c)
  }

  /** Trimming drops white space at both ends, all of it, and nothing else. */
  lemma {:induction false} TrimmedIsMiddle(s: string) returns (i: nat, j: nat)
    ensures i <= j <= |s| && TrimSpace(s) == s[i..j] && Blank(s[..i]) && Blank(s[j..])
    ensures i < j ==> !IsWhite(s[i]) && !IsWhite(s[j - 1])
    ensures s != "" && !IsWhite(s[0]) ==> i == 0 && j > 0
  {
    hide IsWhite, IsSpace;
    if s == [] {
      i, j := 0, 0;
    } else if IsSpace(s[0]) {
      SpacesAreWhiteSpace(s[0]);
      i, j := TrimmedIsMiddle(s[1..]);
      Shifted(s, i, j);
      i, j := i + 1, j + 1;
    } else {
      SpacesAreWhiteSpace(s[0]);
      SpacesAreWhiteSpace(s[|s| - 1]);
      if IsSpace(s[|s| - 1]) {
        i, j := TrimmedIsMiddle(s[..|s| - 1]);
        Shortened(s, i, j);
      } else {
        i, j := 0, |s|;
        assert s[0..|s|] == s && s[|s|..] == "" && s[..0] == "";
      }
    }
  }

  lemma Shifted(s: string, i: nat, j: nat)
    requires s != "" && i <= j <= |s[1..]| && IsWhite(s[0]) && Blank(s[1..][..i])
    ensures s[1..][i..j] == s[i + 1..j + 1] && s[1..][j..] == s[j + 1..] && Blank(s[..i + 1])
  {
    assert s[..i + 1] == [s[0]] + s[1..][..i];
    hide IsWhite;
  }

  lemma Shortened(s: string, i: nat, j: nat)
    requires s != "" && i <= j <= |s| - 1 && IsWhite(s[|s| - 1]) && Blank(s[..|s| - 1][j..])
    ensures s[..|s| - 1][i..j] == s[i..j] && s[..|s| - 1][..i] == s[..i] && Blank(s[j..])
  {
    assert s[j..] == s[..|s| - 1][j..] + [s[|s| - 1]];
    hide IsWhite;
  }

  // ----- splitting -----

  function PartCount(length: nat): (n: nat)
    ensures n >= 1
  {
    if length <= MAX_MSG_RUNES then 1 else (length + MAX_MSG_RUNES - 1) / MAX_MSG_RUNES
  }

  function Piece(text: string, i: nat): string
    requires i < PartCount(|text|)
  {
    var end := (i + 1) * MAX_MSG_RUNES;
    text[i * MAX_MSG_RUNES..if end < |text| then end else |text|]
  }

  /** Closed form of the split: the i-th message is the i-th block of MAX_MSG_RUNES runes. */
  function SplitText(text: string): seq<string> {
    seq(PartCount(|text|), i requires 0 <= i < PartCount(|text|) => Piece(text, i))
  }

  method SplitTextLoop(text: string) returns (parts: seq<string>)
    ensures parts == SplitText(text)
  {
    if |text| <= MAX_MSG_RUNES {
      assert Piece(text, 0) == text;
      return [text];
    }
    parts := [];
    var runes := text;
    while |runes| > 0
      invariant |parts| <= PartCount(|text|)
      invariant |parts| * MAX_MSG_RUNES <= |text| ==> runes == text[|parts| * MAX_MSG_RUNES..]
      invariant |parts| * MAX_MSG_RUNES > |text| ==> runes == [] && |parts| == PartCount(|text|)
      invariant parts == SplitText(text)[..|parts|]
    {
      var end := if MAX_MSG_RUNES < |runes| then MAX_MSG_RUNES else |runes|;
      assert runes[..end] == Piece(text, |parts|);
      parts := parts + [runes[..end]];
      runes := runes[end..];
    }
    assert |parts| == PartCount(|text|);
  }

  function Concat(parts: seq<string>): string {
    if parts == [] then "" else parts[0] + Concat(parts[1..])
  }

  lemma {:induction false} ConcatSnoc(parts: seq<string>, last: string)
    ensures Concat(parts + [last]) == Concat(parts) + last
  {
    if parts == [] {
      assert parts + [last] == [last];
    } else {
      assert (parts + [last])[1..] == parts[1..] + [last];
      ConcatSnoc(parts[1..], last);
    }
  }

  lemma {:induction false} SplitPrefix(text: string, n: nat)
    requires n <= PartCount(|text|)
    ensures Concat(SplitText(text)[..n]) == text[..if n * MAX_MSG_RUNES < |text| then n * MAX_MSG_RUNES else |text|]
  {
    if n > 0 {
      SplitPrefix(text, n - 1);
      var parts := SplitText(text);
      assert parts[..n] == parts[..n - 1] + [Piece(text, n - 1)];
      ConcatSnoc(parts[..n - 1], Piece(text, n - 1));
    }
  }

  /** Splitting loses nothing: every message fits, only the last may be short, and together they are the text. */
  lemma SplitTextIsExact(text: string)
    ensures forall p | p in SplitText(text) :: |p| <= 3968
    ensures forall i | 0 <= i < |SplitText(text)| - 1 :: |SplitText(text)[i]| == 3968
    ensures Concat(SplitText(text)) == text
    ensures text != "" ==> forall p | p in SplitText(text) :: p != ""
  {
    var n := PartCount(|text|);
    SplitPrefix(text, n);
    assert SplitText(text)[..n] == SplitText(text);
  }

  // ----- the plan -----

  function FailureText(error: string): string {
    match error
    case "cancelled" => CANCELLED
    case "job_missing" => MISSING_JOB
    case "upload_invalid" => UPLOAD_FAILED
    case _ => TRANSCRIPTION_FAILED
  }

  function TextParts(texts: seq<string>): seq<Delivery> {
    seq(|texts|, i requires 0 <= i < |texts| => Delivery(if i == 0 then Edit else Send, texts[i], true))
  }

  function ResultParts(preset: string, result: JobResult): seq<Delivery> {
    if result.verdict == Failed then [Delivery(Edit, FailureText(result.error), false)]
    else if preset == "lecture" then [Delivery(Edit, READY, false), Delivery(Document, Shown(result, preset), false)]
    else TextParts(SplitText(Shown(result, preset)))
  }

  method BuildParts(preset: string, result: JobResult) returns (out: seq<Delivery>)
    ensures out == ResultParts(preset, result)
  {
    if result.verdict == Failed {
      return [Delivery(Edit, FailureText(result.error), false)];
    }
    var text := Format(result, preset);
    if text == "" {
      text := SILENCE;
    }
    if preset == "lecture" {
      return [Delivery(Edit, READY, false), Delivery(Document, text, false)];
    }
    out := [];
    var parts := SplitTextLoop(text);
    for i := 0 to |parts|
      invariant out == TextParts(parts)[..i]
    {
      var kind := if i == 0 then Edit else Send;
      out := out + [Delivery(kind, parts[i], true)];
    }
  }

  function Texts(parts: seq<Delivery>): seq<string> {
    seq(|parts|, i requires 0 <= i < |parts| => parts[i].text)
  }

  /** Every terminal result has a plan, and the plan rewrites the status message exactly once, first. */
  lemma PlanStartsWithTheOnlyEdit(preset: string, result: JobResult)
    ensures var p := ResultParts(preset, result);
            && p != []
            && forall k | 0 <= k < |p| :: p[k].kind == Edit <==> k == 0
  {
  }

  // The text of a result that is not given as segments; silence has a notice of its own.
  function Spoken(r: JobResult): string {
    if r.text == "" then "(тишина)" else r.text
  }

  // One line for each segment: its start, its end and its text.
  function Lines(segments: seq<Segment>): seq<string> {
    seq(|segments|, k requires 0 <= k < |segments| =>
      "[" + segments[k].start + "s → " + segments[k].end + "s] " + segments[k].text + "\n")
  }

  // The text of a lecture file: the lines of its segments, in order, less white space at the end of the last ones.
  ghost predicate IsLectureText(r: JobResult, text: string) {
    if r.segments == [] then text == Spoken(r)
    else text != "" && !IsWhite(text[|text| - 1]) && exists dropped :: Blank(dropped) && text + dropped == Concat(Lines(r.segments))
  }

  lemma {:induction false} SegmentsAreLines(segments: seq<Segment>)
    ensures RenderSegments(segments) == Concat(Lines(segments))
  {
    if segments != [] {
      SegmentsAreLines(segments[1..]);
      assert Lines(segments)[1..] == Lines(segments[1..]);
    }
  }

  lemma LectureShows(r: JobResult)
    ensures IsLectureText(r, Shown(r, "lecture"))
  {
    if r.segments != [] {
      LinesStart(r.segments);
      SegmentsAreLines(r.segments);
      var rendered := RenderSegments(r.segments);
      hide RenderSegments, Lines, TrimSpace, Concat, IsWhite;
      var i, j := TrimmedIsMiddle(rendered);
      assert rendered[0..j] == rendered[..j] && rendered[..j] + rendered[j..] == rendered;
      assert Shown(r, "lecture") == rendered[..j];
    }
  }

  lemma LinesStart(segments: seq<Segment>)
    requires segments != []
    ensures RenderSegments(segments) != "" && !IsWhite(RenderSegments(segments)[0])
  {
    assert RenderSegments(segments)[0] == '[';
    SpacesAreWhiteSpace('[');
  }

  /** What a successful result brings the user, in terms of the backend's own fields: outside lectures the quoted parts read
      in order are the transcribed text, or the silence notice when it is empty; a lecture is a notice and a file. */
  lemma PlanCarriesTheText(preset: string, r: JobResult)
    requires r.verdict == Transcribed
    ensures preset != "lecture" ==> Concat(Texts(ResultParts(preset, r))) == Spoken(r)
    ensures preset != "lecture" ==> forall d | d in ResultParts(preset, r) :: d.quoted && 0 < |d.text| <= 3968 && d.kind != Document
    ensures preset == "lecture" ==>
              var p := ResultParts(preset, r);
              && |p| == 2 && p[0] == Delivery(Edit, "✅ Готово!", false)
              && p[1].kind == Document && !p[1].quoted && IsLectureText(r, p[1].text)
  {
    var p, text := ResultParts(preset, r), Shown(r, preset);
    if preset == "lecture" {
      LectureShows(r);
      hide IsLectureText, Shown;
    } else {
      assert text == Spoken(r);
      assert Texts(p) == SplitText(text);
      SplitTextIsExact(text);
    }
  }

  /** What a failure brings the user: one unquoted edit, which tells the three known causes apart from any other. */
  lemma PlanOfFailure(preset: string, r: JobResult)
    requires r.verdict == Failed
    ensures var p := ResultParts(preset, r);
            && |p| == 1 && p[0].kind == Edit && !p[0].quoted
            && (p[0].text == "❌ Отменено." <==> r.error == "cancelled")
            && (p[0].text == "Задание недоступно в сервисе расшифровки. Отправь файл ещё раз." <==> r.error == "job_missing")
            && (p[0].text == "Не удалось отправить файл на расшифровку." <==> r.error == "upload_invalid")
            && (p[0].text == "Произошла ошибка при расшифровке." <==> r.error !in ["cancelled", "job_missing", "upload_invalid"])
  {
    assert |CANCELLED| != |MISSING_JOB| && |CANCELLED| != |UPLOAD_FAILED| && |CANCELLED| != |TRANSCRIPTION_FAILED|;
    assert |MISSING_JOB| != |UPLOAD_FAILED| && |MISSING_JOB| != |TRANSCRIPTION_FAILED| && |UPLOAD_FAILED| != |TRANSCRIPTION_FAILED|;
  }
}
