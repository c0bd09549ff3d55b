/** The chat server's length-prefixed frames: splitting a received text into frames, and reading one frame's
    fields. */
module Frames {
  import opened Common
  import opened Decimal

  // ---------------------------------------------------------------- numbers as text

  function ShowInt(i: int): string { if i < 0 then "-" + Show(-i) else Show(i) }

  /** Python's own `str.isdigit` on a character and `int` on a text, which also take digits of other
      scripts, blanks and underscores. `int` refuses more digits than its limit, where it has one. */
  datatype Python = Python(isDigit: char -> bool, toInt: string -> Option<int>, maxDigits: Option<nat>) {
    predicate Short(s: string) { maxDigits.None? || |s| <= maxDigits.value }
  }

  /** All that is known of them: what they make of plain decimal text. */
  ghost predicate ReadsDecimal(py: Python) {
    && (forall c :: IsDigit(c) ==> py.isDigit(c))
    && (forall s :: ReadsNumber(py, s))
    && (py.maxDigits.Some? ==> py.maxDigits.value >= 6)
  }

  ghost predicate ReadsNumber(py: Python, s: string) {
    AllDigits(s) ==>
      && py.toInt(s) == (if py.Short(s) then Some(Value(s) as int) else None)
      && py.toInt("-" + s) == (if py.Short(s) then Some(-(Value(s) as int)) else None)
  }

  predicate Digital(py: Python, s: string) { s != "" && forall i :: 0 <= i < |s| ==> py.isDigit(s[i]) }

  /** `_safe_int`. */
  function SafeInt(py: Python, s: string, default: int): int {
    match py.toInt(s)
    case Some(i) => i
    case None => default
  }

  /** What is read back of a number sent in decimal. */
  function ReadBack(py: Python, i: int, default: int): int {
    if py.Short(Show(if i < 0 then -i else i)) then i else default
  }

  lemma {:induction false} SafeIntShow(py: Python, i: int, default: int)
    requires ReadsDecimal(py)
    ensures SafeInt(py, ShowInt(i), default) == ReadBack(py, i, default)
  {
    var n := if i < 0 then -i else i;
    ShowValue(n);
    assert ReadsNumber(py, Show(n));
  }

  lemma {:induction false} DigitsAreDigital(py: Python, s: string)
    requires ReadsDecimal(py) && AllDigits(s)
    ensures Digital(py, s)
  {
  }

  // ---------------------------------------------------------------- splitting

  predicate IsSeparator(c: char) { c == '\r' || c == '\n' || c == '\0' }

  predicate Separators(s: string) { forall i :: 0 <= i < |s| ==> IsSeparator(s[i]) }

  function DropSeparators(s: string): (r: string)
    ensures |r| <= |s|
    ensures r != "" ==> !IsSeparator(r[0])
  {
    if s != "" && IsSeparator(s[0]) then DropSeparators(s[1..]) else s
  }

  function DropLastSeparators(s: string): (r: string)
    ensures |r| <= |s|
    ensures r != "" ==> !IsSeparator(r[|r| - 1])
  {
    if s != "" && IsSeparator(s[|s| - 1]) then DropLastSeparators(s[..|s| - 1]) else s
  }

  lemma {:induction false} DropLastMeans(s: string)
    ensures DropLastSeparators(s) == s[..|DropLastSeparators(s)|] && Separators(s[|DropLastSeparators(s)|..])
  {
    if s != "" && IsSeparator(s[|s| - 1]) {
      DropLastMeans(s[..|s| - 1]);
      assert s == s[..|s| - 1] + [s[|s| - 1]];
    }
  }

  /** `strip("\r\n\0")`. */
  function Strip(s: string): string { DropLastSeparators(DropSeparators(s)) }

  /** How long the frame at the start of the text is; 0 where there is none. */
  function FrameLength(py: Python, text: string): (n: nat)
    ensures n == 0 || 7 <= n <= |text|
  {
    if |text| >= 7 && Digital(py, text[..6]) then
      var length := SafeInt(py, text[..6], -1);
      if length > 0 && 6 + length <= |text| then 6 + length else 0
    else 0
  }

  /** The frames at the start of a text. */
  function Take(py: Python, text: string): seq<string>
    decreases |text|
  {
    var n := FrameLength(py, text);
    if n == 0 then [] else [text[..n]] + Take(py, DropSeparators(text[n..]))
  }

  function FramesOf(py: Python, message: string): seq<string> {
    var text := Strip(message);
    if text == "" then [] else if Take(py, text) != [] then Take(py, text) else [text]
  }

  lemma {:induction false} TakeAt(py: Python, text: string, cursor: nat, length: int)
    requires cursor + 7 <= |text| && Digital(py, text[cursor..cursor + 6])
    requires length == SafeInt(py, text[cursor..cursor + 6], -1)
    ensures length > 0 && cursor + 6 + length <= |text| ==>
              Take(py, text[cursor..]) ==
                [text[cursor..cursor + 6 + length]] + Take(py, DropSeparators(text[cursor + 6 + length..]))
    ensures length <= 0 || cursor + 6 + length > |text| ==> Take(py, text[cursor..]) == []
  {
    var rest := text[cursor..];
    assert rest[..6] == text[cursor..cursor + 6];
    if length > 0 && cursor + 6 + length <= |text| {
      assert rest[..6 + length] == text[cursor..cursor + 6 + length]
        && rest[6 + length..] == text[cursor + 6 + length..];
    }
  }

  lemma {:induction false} TakeNone(py: Python, text: string, cursor: nat)
    requires cursor <= |text| && !(cursor + 7 <= |text| && Digital(py, text[cursor..cursor + 6]))
    ensures Take(py, text[cursor..]) == []
  {
    if cursor + 7 <= |text| { assert text[cursor..][..6] == text[cursor..cursor + 6]; }
  }

  /** The inner loop over CR, LF and NUL. */
  method SkipSeparators(text: string, from: nat) returns (cursor: nat)
    requires from <= |text|
    ensures from <= cursor <= |text| && text[cursor..] == DropSeparators(text[from..])
  {
    cursor := from;
    while cursor < |text| && IsSeparator(text[cursor])
      invariant from <= cursor <= |text| && DropSeparators(text[cursor..]) == DropSeparators(text[from..])
    {
      assert text[cursor..][1..] == text[cursor + 1..];
      cursor := cursor + 1;
    }
  }

  // ---------------------------------------------------------------- what a split amounts to

  /** Six digits and as many characters as they say. */
  predicate IsFrame(py: Python, f: string) {
    |f| >= 7 && Digital(py, f[..6]) && SafeInt(py, f[..6], -1) == |f| - 6
  }

  /** No frame is at the start of the text. */
  ghost predicate NoFrame(py: Python, text: string) {
    forall n :: 0 <= n <= |text| ==> !IsFrame(py, text[..n])
  }

  /** Frames, each with the separators that follow it. */
  function Joined(frames: seq<string>, gaps: seq<string>): string
    requires |frames| == |gaps|
  {
    if frames == [] then "" else frames[0] + gaps[0] + Joined(frames[1..], gaps[1..])
  }

  /** The text is these frames, one after the other with only separators between, and then no frame. */
  ghost predicate Consists(py: Python, text: string, frames: seq<string>, gaps: seq<string>, rest: string) {
    && |gaps| == |frames| && text == Joined(frames, gaps) + rest
    && (forall i :: 0 <= i < |frames| ==> IsFrame(py, frames[i]) && Separators(gaps[i]))
    && NoFrame(py, rest) && (frames != [] ==> rest == "" || !IsSeparator(rest[0]))
  }

  /** Between outer separators, a message is nothing, or text without a frame, which comes back whole, or
      consecutive frames, which come back one by one. */
  ghost predicate SplitOf(py: Python, message: string, frames: seq<string>) {
    exists lead, text, trail ::
      && message == lead + text + trail && Separators(lead) && Separators(trail)
      && (text != "" ==> !IsSeparator(text[0]) && !IsSeparator(text[|text| - 1]))
      && if text == "" then frames == []
         else if NoFrame(py, text) then frames == [text]
         else frames != [] && exists gaps, rest :: Consists(py, text, frames, gaps, rest)
  }

  lemma {:induction false} DropMeans(s: string)
    ensures |DropSeparators(s)| <= |s|
    ensures var k := |s| - |DropSeparators(s)|; Separators(s[..k]) && DropSeparators(s) == s[k..]
  {
    hide IsSeparator;
    if s != "" && IsSeparator(s[0]) {
      var rest := s[1..];
      assert DropSeparators(s) == DropSeparators(rest);
      hide DropSeparators;
      DropMeans(rest);
      var k := |s| - |DropSeparators(s)|;
      assert s[..k] == [s[0]] + rest[..k - 1] && rest[k - 1..] == s[k..];
    }
  }

  lemma {:induction false} FrameLengthMeans(py: Python, text: string)
    ensures FrameLength(py, text) > 0 ==> IsFrame(py, text[..FrameLength(py, text)])
    ensures FrameLength(py, text) == 0 <==> NoFrame(py, text)
  {
    var n := FrameLength(py, text);
    if n > 0 {
      assert text[..n][..6] == text[..6];
      assert IsFrame(py, text[..n]);
    }
    forall k | 0 <= k <= |text| && IsFrame(py, text[..k]) ensures n == k { assert text[..k][..6] == text[..6]; }
  }

  lemma {:induction false} ConsistsCons(py: Python, f: string, gap: string, tail: string, frames: seq<string>,
      gaps: seq<string>, rest: string)
    requires Consists(py, tail, frames, gaps, rest) && IsFrame(py, f) && Separators(gap)
    requires tail == "" || !IsSeparator(tail[0])
    ensures Consists(py, f + (gap + tail), [f] + frames, [gap] + gaps, rest)
  {
    hide IsFrame, NoFrame, Separators;
    assert ([f] + frames)[1..] == frames && ([gap] + gaps)[1..] == gaps;
    assert f + (gap + tail) == f + gap + Joined(frames, gaps) + rest;
    if frames == [] { assert tail == rest; }
  }

  /** What is taken first from a text with a frame at its start. */
  lemma {:induction false} TakeFirst(py: Python, text: string) returns (f: string, gap: string, tail: string)
    requires !NoFrame(py, text)
    ensures text == f + (gap + tail) && |tail| < |text| && Take(py, text) == [f] + Take(py, tail)
    ensures IsFrame(py, f) && Separators(gap) && (tail == "" || !IsSeparator(tail[0]))
  {
    FrameLengthMeans(py, text);
    hide IsFrame, NoFrame, FrameLength, Separators, IsSeparator;
    var n := FrameLength(py, text);
    DropMeans(text[n..]);
    f, tail := text[..n], DropSeparators(text[n..]);
    gap := text[n..][..|text[n..]| - |tail|];
    assert text[n..] == gap + tail;
    assert text == f + text[n..];
  }

  lemma {:induction false} TakeMeans(py: Python, text: string) returns (gaps: seq<string>, rest: string)
    ensures Consists(py, text, Take(py, text), gaps, rest)
    decreases |text|
  {
    FrameLengthMeans(py, text);
    hide IsFrame, NoFrame, FrameLength, Separators, IsSeparator;
    if NoFrame(py, text) {
      gaps, rest := [], text;
    } else {
      hide Consists, Take;
      var f, gap, tail := TakeFirst(py, text);
      gaps, rest := TakeMeans(py, tail);
      ConsistsCons(py, f, gap, tail, Take(py, tail), gaps, rest);
      gaps := [gap] + gaps;
    }
  }

  lemma {:induction false} StripMeans(message: string) returns (lead: string, trail: string)
    ensures message == lead + Strip(message) + trail && Separators(lead) && Separators(trail)
    ensures var text := Strip(message); text != "" ==> !IsSeparator(text[0]) && !IsSeparator(text[|text| - 1])
  {
    var front, text := DropSeparators(message), Strip(message);
    DropMeans(message);
    DropLastMeans(front);
    lead, trail := message[..|message| - |front|], front[|text|..];
    if text != "" { assert text[0] == front[0]; }
  }

  lemma {:induction false} FramesOfMeans(py: Python, message: string)
    ensures SplitOf(py, message, FramesOf(py, message))
  {
    var text := Strip(message);
    FrameLengthMeans(py, text);
    hide IsFrame, NoFrame, FrameLength, Strip, Separators, IsSeparator, Consists;
    var lead, trail := StripMeans(message);
    var gaps, rest := TakeMeans(py, text);
  }

  /** `_split_fc_frames`: the cursor loop. */
  method SplitFcFrames(py: Python, message: string) returns (frames: seq<string>)
    ensures frames == FramesOf(py, message) && SplitOf(py, message, frames)
  {
    FramesOfMeans(py, message);
    hide Take, Strip, DropSeparators, Digital, SafeInt, SplitOf;
    var text := Strip(message);
    frames := [];
    if text == "" { return; }
    var cursor, size := 0, |text|;
    assert text[0..] == text;
    while cursor + 7 <= size && Digital(py, text[cursor..cursor + 6])
      invariant 0 <= cursor <= size
      invariant frames + Take(py, text[cursor..]) == Take(py, text)
    {
      var length := SafeInt(py, text[cursor..cursor + 6], -1);
      TakeAt(py, text, cursor, length);
      if length <= 0 { break; }
      var end := cursor + 6 + length;
      if end > size { break; }
      frames := frames + [text[cursor..end]];
      cursor := SkipSeparators(text, end);
    }
    if !(cursor + 7 <= size && Digital(py, text[cursor..cursor + 6])) { TakeNone(py, text, cursor); }
    if frames == [] { frames := [text]; }
  }

  // ---------------------------------------------------------------- the framer, and its inverse

  /** A frame: six digits of length, then that many characters. */
  function Frame(payload: string): string { Padded(|payload|, 6) + payload }

  /** One frame and the separators that follow it on the wire. */
  datatype Sent = Sent(payload: string, gap: string)

  predicate Sendable(m: Sent) { 1 <= |m.payload| <= 999999 && Separators(m.gap) }

  predicate AllSendable(ms: seq<Sent>) { forall i :: 0 <= i < |ms| ==> Sendable(ms[i]) }

  function Wire(ms: seq<Sent>): string {
    if ms == [] then "" else Frame(ms[0].payload) + ms[0].gap + Wire(ms[1..])
  }

  function FramesSent(ms: seq<Sent>): seq<string> {
    seq(|ms|, i requires 0 <= i < |ms| => Frame(ms[i].payload))
  }

  lemma {:induction false} FrameHeader(py: Python, payload: string, rest: string)
    requires ReadsDecimal(py)
    requires 1 <= |payload| <= 999999
    ensures var f := Frame(payload);
            FrameLength(py, f + rest) == |f| == 6 + |payload| && (f + rest)[..|f|] == f && (f + rest)[|f|..] == rest
            && !IsSeparator(f[0])
  {
    var f := Frame(payload);
    assert Power10(6) == 1000000 by { SixDigits(); }
    PaddedValue(|payload|, 6);
    DigitsAreDigital(py, Padded(|payload|, 6));
    assert ReadsNumber(py, Padded(|payload|, 6));
    assert (f + rest)[..6] == Padded(|payload|, 6);
  }

  lemma {:induction false} GapDropped(gap: string, rest: string)
    requires Separators(gap) && (rest == "" || !IsSeparator(rest[0]))
    ensures DropSeparators(gap + rest) == rest
  {
    if gap == "" {
      assert gap + rest == rest;
    } else {
      assert (gap + rest)[1..] == gap[1..] + rest;
      GapDropped(gap[1..], rest);
    }
  }

  lemma {:induction false} WireStart(py: Python, ms: seq<Sent>)
    requires ReadsDecimal(py)
    requires AllSendable(ms) && ms != []
    ensures Wire(ms) != "" && !IsSeparator(Wire(ms)[0])
  {
    FrameHeader(py, ms[0].payload, "");
  }

  /** Taking frames off an intact wire text yields the frames sent. */
  lemma {:induction false} TakeWire(py: Python, ms: seq<Sent>, tail: string)
    requires ReadsDecimal(py)
    requires AllSendable(ms) && (tail == "" || (!IsSeparator(tail[0]) && FrameLength(py, tail) == 0))
    ensures Take(py, Wire(ms) + tail) == FramesSent(ms)
    decreases |ms|
  {
    if ms == [] {
      assert Wire(ms) + tail == tail;
    } else {
      hide FrameLength, Frame, IsSeparator;
      var rest := Wire(ms[1..]) + tail;
      assert Wire(ms) + tail == Frame(ms[0].payload) + (ms[0].gap + rest);
      if |ms| > 1 { WireStart(py, ms[1..]); }
      TakeOne(py, ms[0], rest);
      TakeWire(py, ms[1..], tail);
      FirstFrame(ms);
    }
  }

  lemma {:induction false} FirstFrame(ms: seq<Sent>)
    requires ms != []
    ensures FramesSent(ms) == [Frame(ms[0].payload)] + FramesSent(ms[1..])
  {
    hide Frame;
  }

  lemma {:induction false} TakeOne(py: Python, m: Sent, rest: string)
    requires ReadsDecimal(py)
    requires Sendable(m) && (rest == "" || !IsSeparator(rest[0]))
    ensures Take(py, Frame(m.payload) + (m.gap + rest)) == [Frame(m.payload)] + Take(py, rest)
  {
    hide Frame;
    FrameHeader(py, m.payload, m.gap + rest);
    GapDropped(m.gap, rest);
  }

  lemma {:induction false} WireSnoc(ms: seq<Sent>, m: Sent)
    ensures Wire(ms + [m]) == Wire(ms) + (Frame(m.payload) + m.gap)
  {
    hide Frame;
    if ms == [] {
      assert [m][1..] == [] && ms + [m] == [m];
    } else {
      assert (ms + [m])[1..] == ms[1..] + [m];
      WireSnoc(ms[1..], m);
    }
  }

  lemma {:induction false} StripRight(a: string, b: string)
    requires DropLastSeparators(b) != ""
    ensures DropLastSeparators(a + b) == a + DropLastSeparators(b)
  {
    if IsSeparator(b[|b| - 1]) {
      assert (a + b)[..|a + b| - 1] == a + b[..|b| - 1];
      StripRight(a, b[..|b| - 1]);
    }
  }

  lemma {:induction false} StripGap(s: string, gap: string)
    requires Separators(gap)
    ensures DropLastSeparators(s + gap) == DropLastSeparators(s)
  {
    if gap == "" {
      assert s + gap == s;
    } else {
      assert (s + gap)[..|s + gap| - 1] == s + gap[..|gap| - 1];
      StripGap(s, gap[..|gap| - 1]);
    }
  }

  /** The payload's last character would be taken for a separator. */
  predicate EndsInSeparator(payload: string) { payload != "" && IsSeparator(payload[|payload| - 1]) }

  lemma {:induction false} HeaderSurvives(f: string, left: string)
    requires |f| > 6 && |left| <= |f| && Separators(f[|left|..]) && forall i :: 0 <= i < 6 ==> IsDigit(f[i])
    ensures |left| >= 6
  {
    assert |left| < |f| ==> f[|left|..][0] == f[|left|];
  }

  /** What stripping leaves of a last frame: all of it, or a part too short to be a frame. */
  lemma {:induction false} StrippedFrame(py: Python, payload: string)
    requires ReadsDecimal(py)
    requires 1 <= |payload| <= 999999
    ensures var left := DropLastSeparators(Frame(payload));
            left != "" && !IsSeparator(left[0])
            && (if EndsInSeparator(payload) then FrameLength(py, left) == 0 && |left| < |Frame(payload)|
              else left == Frame(payload))
  {
    var f := Frame(payload);
    var left := DropLastSeparators(f);
    FrameHeader(py, payload, "");
    DropLastMeans(f);
    assert f + "" == f && f[|f| - 1] == payload[|payload| - 1];
    if EndsInSeparator(payload) {
      HeaderSurvives(f, left);
      assert left[..6] == Padded(|payload|, 6) == f[..6];
    }
  }

  /** Splitting undoes framing: for any payloads, any separators around them, the frames come back exactly,
      unless the last payload itself ends in a separator, which the splitter strips with the rest. */
  lemma {:induction false} SplitUndoesFraming(py: Python, lead: string, ms: seq<Sent>)
    requires ReadsDecimal(py)
    requires Separators(lead) && AllSendable(ms)
    ensures FramesOf(py, lead + Wire(ms)) == FramesSent(ms) <==> ms == [] || !EndsInSeparator(ms[|ms| - 1].payload)
  {
    if ms == [] {
      GapDropped(lead, "");
      assert lead + Wire(ms) == lead + "";
    } else {
      assert ms == ms[..|ms| - 1] + [ms[|ms| - 1]];
      SplitWithLast(py, lead, ms[..|ms| - 1], ms[|ms| - 1]);
    }
  }

  lemma {:induction false} SplitWithLast(py: Python, lead: string, front: seq<Sent>, last: Sent)
    requires ReadsDecimal(py)
    requires Separators(lead) && AllSendable(front + [last])
    ensures FramesOf(py, lead + Wire(front + [last])) == FramesSent(front + [last]) <==> !EndsInSeparator(last.payload)
  {
    LastSendable(front, last);
    hide Strip, DropLastSeparators, Wire, FramesSent, FrameLength, Take, Separators, Frame, AllSendable, Sendable;
    StrippedFrame(py, last.payload);
    StrippedWire(py, lead, front, last);
    if EndsInSeparator(last.payload) {
      TruncatedLast(py, front, last, DropLastSeparators(Frame(last.payload)));
    } else {
      IntactLast(py, front, last);
    }
  }

  lemma {:induction false} LastSendable(front: seq<Sent>, last: Sent)
    requires AllSendable(front + [last])
    ensures AllSendable(front) && Sendable(last) && 1 <= |last.payload| <= 999999
  {
    assert (front + [last])[|front|] == last;
    assert forall i :: 0 <= i < |front| ==> (front + [last])[i] == front[i];
  }

  lemma {:induction false} StrippedWire(py: Python, lead: string, front: seq<Sent>, last: Sent)
    requires ReadsDecimal(py)
    requires Separators(lead) && AllSendable(front + [last])
    ensures Strip(lead + Wire(front + [last])) == Wire(front) + DropLastSeparators(Frame(last.payload))
  {
    hide Frame, DropLastSeparators, DropSeparators, Wire;
    assert (front + [last])[|front|] == last;
    WireStart(py, front + [last]);
    GapDropped(lead, Wire(front + [last]));
    WireSnoc(front, last);
    StrippedFrame(py, last.payload);
    StripGap(Frame(last.payload), last.gap);
    StripRight(Wire(front), Frame(last.payload) + last.gap);
  }

  lemma {:induction false} IntactLast(py: Python, front: seq<Sent>, last: Sent)
    requires ReadsDecimal(py)
    requires AllSendable(front + [last])
    ensures Take(py, Wire(front) + Frame(last.payload)) == FramesSent(front + [last]) != []
  {
    var bare := Sent(last.payload, "");
    assert forall i :: 0 <= i < |front| ==> (front + [last])[i] == front[i];
    assert (front + [last])[|front|] == last;
    WireSnoc(front, bare);
    assert Frame(last.payload) + "" == Frame(last.payload);
    TakeWire(py, front + [bare], "");
    assert Wire(front + [bare]) + "" == Wire(front) + Frame(last.payload);
    assert FramesSent(front + [bare]) == FramesSent(front + [last]);
  }

  lemma {:induction false} TruncatedLast(py: Python, front: seq<Sent>, last: Sent, left: string)
    requires ReadsDecimal(py)
    requires AllSendable(front) && left != "" && !IsSeparator(left[0]) && FrameLength(py, left) == 0
    requires |left| < |Frame(last.payload)|
    ensures var text := Wire(front) + left;
            text != "" && (if Take(py, text) != [] then Take(py, text) else [text]) != FramesSent(front + [last])
  {
    TakeWire(py, front, left);
    if front == [] {
      assert Wire(front) + left == left;
      assert FramesSent([last])[0] == Frame(last.payload);
      assert front + [last] == [last];
    }
  }

  // ---------------------------------------------------------------- one message

  datatype Fields = Fields(length: int, fctype: int, from: int, to: int, msgType: int, arg: int, payload: string)

  function FirstSpace(s: string): (i: nat)
    ensures i <= |s| && (i < |s| ==> s[i] == ' ')
  {
    if s == "" || s[0] == ' ' then 0 else 1 + FirstSpace(s[1..])
  }

  /** `split(" ", k)`. */
  function SplitSpaces(s: string, k: nat): (parts: seq<string>)
    ensures 1 <= |parts| <= k + 1
  {
    var i := FirstSpace(s);
    if k == 0 || i == |s| then [s] else [s[..i]] + SplitSpaces(s[i + 1..], k - 1)
  }

  /** Python's whitespace. */
  predicate IsSpace(c: char) {
    var n := c as int;
    || 0x09 <= n <= 0x0D || 0x1C <= n <= 0x20 || n == 0x85 || n == 0xA0 || n == 0x1680
    || 0x2000 <= n <= 0x200A || n in {0x2028, 0x2029, 0x202F, 0x205F, 0x3000}
  }

  /** `strip()`. */
  function Trim(s: string): string
    decreases |s|
  {
    if s == "" then s
    else if IsSpace(s[0]) then Trim(s[1..])
    else if IsSpace(s[|s| - 1]) then Trim(s[..|s| - 1])
    else s
  }

  /** `_parse_fc_message`. */
  function ParseFcMessage(py: Python, message: string): Option<Fields> {
    var parts := SplitSpaces(message, 5);
    if |parts| < 5 then None
    else
      var header := parts[0];
      if |header| < 7 || !Digital(py, header[..6]) then None
      else if !Digital(py, header[6..]) then None
      else Some(Fields(SafeInt(py, header[..6], 0), SafeInt(py, header[6..], -1), SafeInt(py, parts[1], 0),
                       SafeInt(py, parts[2], 0), SafeInt(py, parts[3], 0), SafeInt(py, parts[4], 0),
                       if |parts| > 5 then Trim(parts[5]) else ""))
  }

  /** A message as the server composes it: five decimal fields and an optional payload. */
  datatype Message = Message(fctype: nat, from: int, to: int, msgType: int, arg: int, payload: Option<string>)

  /** Five fields and what may follow them. */
  function Spaced(
    header: string, from: string, to: string, msgType: string, arg: string, rest: Option<string>): string
  {
    header + " " + (from + " " + (to + " " + (msgType + " " + Last(arg, rest))))
  }

  function Last(arg: string, rest: Option<string>): string {
    arg + if rest.Some? then " " + rest.value else ""
  }

  function Body(m: Message): string {
    Spaced(Show(m.fctype), ShowInt(m.from), ShowInt(m.to), ShowInt(m.msgType), ShowInt(m.arg), m.payload)
  }

  function FieldsOf(py: Python, m: Message): Fields {
    Fields(|Body(m)|, ReadBack(py, m.fctype, -1), ReadBack(py, m.from, 0), ReadBack(py, m.to, 0),
           ReadBack(py, m.msgType, 0), ReadBack(py, m.arg, 0), if m.payload.Some? then Trim(m.payload.value) else "")
  }

  predicate NoSpace(s: string) { forall i :: 0 <= i < |s| ==> s[i] != ' ' }

  lemma {:induction false} ShowIntNoSpace(i: int)
    ensures NoSpace(ShowInt(i))
  {
  }

  lemma {:induction false} SpaceAfter(a: string, rest: string)
    requires NoSpace(a)
    ensures FirstSpace(a + " " + rest) == |a|
  {
    if a == "" {
      assert a + " " + rest == " " + rest;
    } else {
      assert (a + " " + rest)[1..] == a[1..] + " " + rest;
      SpaceAfter(a[1..], rest);
    }
  }

  lemma {:induction false} NoSpaceAtAll(a: string)
    requires NoSpace(a)
    ensures FirstSpace(a) == |a|
  {
    if a != "" { NoSpaceAtAll(a[1..]); }
  }

  lemma {:induction false} SplitFirst(a: string, rest: string, k: nat)
    requires NoSpace(a) && k > 0
    ensures SplitSpaces(a + " " + rest, k) == [a] + SplitSpaces(rest, k - 1)
  {
    SpaceAfter(a, rest);
    assert (a + " " + rest)[..|a|] == a && (a + " " + rest)[|a| + 1..] == rest;
  }

  lemma {:induction false} SplitLast(arg: string, rest: Option<string>)
    requires NoSpace(arg)
    ensures SplitSpaces(Last(arg, rest), 1) == [arg] + if rest.Some? then [rest.value] else []
  {
    if rest.Some? {
      SplitFirst(arg, rest.value, 1);
      assert arg + (" " + rest.value) == arg + " " + rest.value;
    } else {
      NoSpaceAtAll(arg);
      assert arg + "" == arg;
    }
  }

  lemma {:induction false} SplitSpaced(header: string, from: string, to: string, msgType: string, arg: string,
      rest: Option<string>)
    requires NoSpace(header) && NoSpace(from) && NoSpace(to) && NoSpace(msgType) && NoSpace(arg)
    ensures SplitSpaces(Spaced(header, from, to, msgType, arg, rest), 5)
            == [header, from, to, msgType, arg] + if rest.Some? then [rest.value] else []
  {
    hide SplitSpaces, NoSpace, Last;
    var d := msgType + " " + Last(arg, rest);
    var c := to + " " + d;
    SplitLast(arg, rest);
    SplitFirst(msgType, Last(arg, rest), 2);
    SplitFirst(to, d, 3);
    SplitFirst(from, c, 4);
    SplitFirst(header, from + " " + c, 5);
  }

  /** A message of at least five fields is accepted exactly when its header has more than six characters, all
      digits. A number `int` does not read becomes 0, the type -1, and the payload loses its outer blanks. */
  lemma {:induction false} ParseMeans(py: Python, header: string, from: string, to: string, msgType: string,
      arg: string, rest: Option<string>)
    requires NoSpace(header) && NoSpace(from) && NoSpace(to) && NoSpace(msgType) && NoSpace(arg)
    ensures ParseFcMessage(py, Spaced(header, from, to, msgType, arg, rest)) ==
            if |header| <= 6 || exists c :: c in header && !py.isDigit(c) then None
            else Some(Fields(SafeInt(py, header[..6], 0), SafeInt(py, header[6..], -1), SafeInt(py, from, 0),
                             SafeInt(py, to, 0), SafeInt(py, msgType, 0), SafeInt(py, arg, 0),
                             if rest.Some? then Trim(rest.value) else ""))
  {
    SplitSpaced(header, from, to, msgType, arg, rest);
    hide SplitSpaces, Spaced, NoSpace, Trim, SafeInt;
    if |header| > 6 {
      assert header == header[..6] + header[6..];
      assert forall i :: 6 <= i < |header| ==> header[i] == header[6..][i - 6];
    }
  }

  /** A message of fewer fields is not accepted. */
  lemma {:induction false} TooFewFields(py: Python, header: string, from: string, to: string, msgType: string)
    requires NoSpace(header) && NoSpace(from) && NoSpace(to) && NoSpace(msgType)
    ensures ParseFcMessage(py, header + " " + (from + " " + (to + " " + msgType))) == None
    ensures ParseFcMessage(py, header + " " + (from + " " + to)) == None
    ensures ParseFcMessage(py, header + " " + from) == None && ParseFcMessage(py, header) == None
  {
    NoSpaceAtAll(header);
    NoSpaceAtAll(from);
    NoSpaceAtAll(to);
    NoSpaceAtAll(msgType);
    SplitFirst(to, msgType, 3);
    SplitFirst(from, to, 4);
    SplitFirst(from, to + " " + msgType, 4);
    SplitFirst(header, from, 5);
    SplitFirst(header, from + " " + to, 5);
    SplitFirst(header, from + " " + (to + " " + msgType), 5);
    hide NoSpace, Digital, Trim, SafeInt;
  }

  /** Parsing undoes composing: the integer fields come back exactly, unless they have more digits than
      `int` reads, and the payload trimmed. */
  lemma {:induction false} ParseUndoesComposing(py: Python, m: Message)
    requires ReadsDecimal(py)
    requires 1 <= |Body(m)| <= 999999
    ensures ParseFcMessage(py, Frame(Body(m))) == Some(FieldsOf(py, m))
  {
    var header := Padded(|Body(m)|, 6) + Show(m.fctype);
    HeaderFields(py, |Body(m)|, m.fctype);
    Composed(m);
    SafeIntShow(py, m.from, 0);
    SafeIntShow(py, m.to, 0);
    SafeIntShow(py, m.msgType, 0);
    SafeIntShow(py, m.arg, 0);
    ShowIntNoSpace(m.from);
    ShowIntNoSpace(m.to);
    ShowIntNoSpace(m.msgType);
    ShowIntNoSpace(m.arg);
    hide ShowInt, Show, SplitSpaces, Padded, Value, Trim, Body, Frame, NoSpace, Digital, SafeInt, ReadBack,
      ReadsDecimal, ParseFcMessage, Spaced, Last;
    ParseMeans(py, header, ShowInt(m.from), ShowInt(m.to), ShowInt(m.msgType), ShowInt(m.arg), m.payload);
  }

  lemma {:induction false} HeaderFields(py: Python, length: nat, fctype: nat)
    requires ReadsDecimal(py)
    requires length <= 999999
    ensures var header := Padded(length, 6) + Show(fctype);
            && |header| >= 7 && NoSpace(header) && Digital(py, header[..6]) && Digital(py, header[6..])
            && SafeInt(py, header[..6], 0) == length && SafeInt(py, header[6..], -1) == ReadBack(py, fctype, -1)
  {
    var header := Padded(length, 6) + Show(fctype);
    SixDigits();
    PaddedValue(length, 6);
    ShowValue(fctype);
    DigitsAreDigital(py, Padded(length, 6));
    assert ReadsNumber(py, Padded(length, 6)) && ReadsNumber(py, Show(fctype));
    DigitsAreDigital(py, Show(fctype));
    assert header[..6] == Padded(length, 6) && header[6..] == Show(fctype);
  }

  lemma {:induction false} Composed(m: Message)
    ensures Frame(Body(m)) == Spaced(Padded(|Body(m)|, 6) + Show(m.fctype), ShowInt(m.from), ShowInt(m.to),
                                     ShowInt(m.msgType), ShowInt(m.arg), m.payload)
  {
    hide ShowInt, Show, Last, Padded;
  }

  ghost predicate Blank(s: string) { forall i :: 0 <= i < |s| ==> IsSpace(s[i]) }

  lemma {:induction false} Wider(a: string, before: string, left: string, after: string, b: string)
    requires Blank(a) && Blank(before) && Blank(after) && Blank(b)
    ensures a + (before + left + after) + b == (a + before) + left + (after + b)
    ensures Blank(a + before) && Blank(after + b)
  {
    hide IsSpace;
  }

  lemma {:induction false} TrimStep(s: string)
    ensures Trim(s) == if s != "" && IsSpace(s[0]) then Trim(s[1..])
                       else if s != "" && IsSpace(s[|s| - 1]) then Trim(s[..|s| - 1]) else s
    ensures s != "" ==> s == [s[0]] + s[1..] + "" && s == "" + s[..|s| - 1] + [s[|s| - 1]]
  {
    hide IsSpace;
  }

  /** What trimming takes away is blank, and what it leaves neither starts nor ends in a blank. */
  lemma {:induction false} TrimMeans(s: string) returns (before: string, after: string)
    ensures s == before + Trim(s) + after && Blank(before) && Blank(after)
    ensures var left := Trim(s); left != "" ==> !IsSpace(left[0]) && !IsSpace(left[|left| - 1])
    decreases |s|
  {
    hide IsSpace, Blank, Trim;
    NoBlanks();
    TrimStep(s);
    if s == "" || (!IsSpace(s[0]) && !IsSpace(s[|s| - 1])) {
      before, after := "", "";
      assert s == "" + s + "";
    } else if IsSpace(s[0]) {
      before, after := TrimMeans(s[1..]);
      OneBlank(s[0]);
      Wider([s[0]], before, Trim(s), after, "");
      before, after := [s[0]] + before, after + "";
    } else {
      before, after := TrimMeans(s[..|s| - 1]);
      OneBlank(s[|s| - 1]);
      Wider("", before, Trim(s), after, [s[|s| - 1]]);
      before, after := "" + before, after + [s[|s| - 1]];
    }
  }

  lemma {:induction false} NoBlanks()
    ensures Blank("")
  {
  }

  lemma {:induction false} OneBlank(c: char)
    ensures IsSpace(c) ==> Blank([c])
  {
  }

  /** A payload without outer blanks is recovered unchanged. */
  lemma {:induction false} TrimKeeps(s: string)
    requires s == "" || (!IsSpace(s[0]) && !IsSpace(s[|s| - 1]))
    ensures Trim(s) == s
  {
  }

  function Sendings(ms: seq<Message>, gaps: seq<string>): seq<Sent>
    requires |ms| == |gaps|
  {
    seq(|ms|, i requires 0 <= i < |ms| => Sent(Body(ms[i]), gaps[i]))
  }

  /** End to end: messages sent as frames, with any separators around them, are all received. */
  lemma {:induction false} MessagesReceived(py: Python, lead: string, ms: seq<Message>, gaps: seq<string>)
    requires ReadsDecimal(py)
    requires Separators(lead) && |ms| == |gaps| && forall i :: 0 <= i < |gaps| ==> Separators(gaps[i])
    requires forall i :: 0 <= i < |ms| ==> 1 <= |Body(ms[i])| <= 999999
    requires ms != [] ==> !EndsInSeparator(Body(ms[|ms| - 1]))
    ensures var frames := FramesOf(py, lead + Wire(Sendings(ms, gaps)));
            |frames| == |ms| && forall i :: 0 <= i < |ms| ==> ParseFcMessage(py, frames[i]) == Some(FieldsOf(py, ms[i]))
  {
    hide Body, Wire, ParseFcMessage, FieldsOf, FramesOf, Frame, EndsInSeparator;
    var sent := Sendings(ms, gaps);
    SplitUndoesFraming(py, lead, sent);
    forall i | 0 <= i < |ms| ensures ParseFcMessage(py, Frame(sent[i].payload)) == Some(FieldsOf(py, ms[i])) {
      ParseUndoesComposing(py, ms[i]);
    }
  }
}
