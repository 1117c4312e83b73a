/** `format_timestamp` and `generate_html_transcript` of the transcript module. */
module Transcript {
  import opened Wrappers
  import opened Text

  /** A transcript snippet as the transcript API hands it over: a dictionary
      that normally has a `text` and a `start` key (seconds, a float). A key
      the dictionary lacks is `None` here. */
  datatype Snippet = Snippet(text: Option<string>, start: Option<real>)

  // ---------------------------------------------------------------------
  // Decimal numerals
  // ---------------------------------------------------------------------

  predicate IsDigit(c: char)
  {
    '0' <= c <= '9'
  }

  function DigitChar(d: nat): (c: char)
    requires d < 10
    ensures IsDigit(c)
  {
    "0123456789"[d]
  }

  function DigitValue(c: char): nat
  {
    if IsDigit(c) then (c as int - '0' as int) as nat else 0
  }

  /** Python's `str(n)` for a non-negative int. */
  function Decimal(n: nat): (r: string)
    ensures r != []
    ensures n < 10 <==> |r| == 1
    ensures n < 100 ==> |r| <= 2
  {
    if n < 10 then [DigitChar(n)] else Decimal(n / 10) + [DigitChar(n % 10)]
  }

  /** The value of a string of digits, most significant first. */
  function ParseDecimal(s: string): nat
  {
    PrefixValue(s, |s|)
  }

  /** The value of the first `n` digits of `s`. */
  function PrefixValue(s: string, n: nat): nat
    requires n <= |s|
  {
    if n == 0 then 0 else PrefixValue(s, n - 1) * 10 + DigitValue(s[n - 1])
  }

  /** Python's `f"{n}"` for any int. */
  function IntString(n: int): string
  {
    if n < 0 then "-" + Decimal(-n) else Decimal(n)
  }

  /** `f"{n:02d}"` for a non-negative int: zero-padded to two digits. */
  function Pad2(n: nat): (r: string)
    ensures 2 <= |r|
    ensures n < 100 <==> |r| == 2
  {
    if n < 10 then "0" + Decimal(n) else Decimal(n)
  }

  predicate AllDigits(s: string)
  {
    forall i | 0 <= i < |s| :: IsDigit(s[i])
  }

  /** Numerals are made of digits only. */
  lemma {:induction false} DecimalDigits(n: nat)
    ensures AllDigits(Decimal(n))
  {
    if 10 <= n {
      DecimalDigits(n / 10);
    }
  }

  lemma Pad2Digits(n: nat)
    ensures AllDigits(Pad2(n))
  {
    DecimalDigits(n);
  }

  lemma {:induction false} DecimalRoundTrip(n: nat)
    ensures ParseDecimal(Decimal(n)) == n
  {
    if 10 <= n {
      var d := Decimal(n / 10);
      DecimalRoundTrip(n / 10);
      PrefixValueAppend(d, [DigitChar(n % 10)], |d|);
      assert Decimal(n) == d + [DigitChar(n % 10)];
      DigitRoundTrip(n % 10);
    } else {
      DigitRoundTrip(n);
      assert PrefixValue(Decimal(n), 1) == DigitValue(DigitChar(n));
    }
  }

  lemma DigitRoundTrip(d: nat)
    requires d < 10
    ensures DigitValue(DigitChar(d)) == d
  {
  }

  /** Digits appended after the first `n` do not change their value. */
  lemma {:induction false} PrefixValueAppend(s: string, u: string, n: nat)
    requires n <= |s|
    ensures PrefixValue(s + u, n) == PrefixValue(s, n)
  {
    if n > 0 {
      PrefixValueAppend(s, u, n - 1);
    }
  }

  /** A leading zero does not change a numeral's value. */
  lemma {:induction false} LeadingZero(s: string, n: nat)
    requires n <= |s|
    ensures PrefixValue("0" + s, n + 1) == PrefixValue(s, n)
  {
    if n > 0 {
      LeadingZero(s, n - 1);
    }
  }

  lemma Pad2RoundTrip(n: nat)
    ensures ParseDecimal(Pad2(n)) == n
  {
    DecimalRoundTrip(n);
    if n < 10 {
      LeadingZero(Decimal(n), |Decimal(n)|);
    }
  }

  // ---------------------------------------------------------------------
  // format_timestamp
  // ---------------------------------------------------------------------

  /** Python's `int(x)` on a float: truncation toward zero. */
  function TruncToInt(x: real): (n: int)
    ensures 0.0 <= x ==> n as real <= x < n as real + 1.0
    ensures x < 0.0 ==> n as real - 1.0 < x <= n as real
  {
    if 0.0 <= x then x.Floor else -((-x).Floor)
  }

  /** The hour, minute and second fields that `format_timestamp` computes.
      Python's `//` and `%` floor; with a positive divisor they agree with
      Dafny's Euclidean `/` and `%`, negative dividends included. */
  function Hours(n: int): int { n / 3600 }
  function Minutes(n: int): int { (n % 3600) / 60 }
  function Seconds(n: int): int { n % 60 }

  /** The fields decompose the whole number of seconds, minutes and seconds
      are below 60, and the hour field is positive exactly from one hour on. */
  lemma ClockFields(n: int)
    ensures Hours(n) * 3600 + Minutes(n) * 60 + Seconds(n) == n
    ensures 0 <= Minutes(n) < 60 && 0 <= Seconds(n) < 60
    ensures Hours(n) > 0 <==> n >= 3600
  {
    var r := n % 3600;
    assert n == Hours(n) * 3600 + r;
    assert r == Minutes(n) * 60 + r % 60;
    assert r % 60 == n % 60 by {
      assert n == (Hours(n) * 60 + Minutes(n)) * 60 + r % 60;
    }
  }

  /** `format_timestamp` after the `int(...)` conversion: `HH:MM:SS` when the
      hour field is positive, `MM:SS` otherwise. */
  function Clock(n: int): string
  {
    var h, m, s := Hours(n), Minutes(n), Seconds(n);
    if h > 0 then Pad2(h) + ":" + Pad2(m) + ":" + Pad2(s) else Pad2(m) + ":" + Pad2(s)
  }

  /** `format_timestamp(seconds)`: only `int(seconds)` matters, so any
      fractional part is truncated away. */
  function FormatTimestamp(seconds: real): string
  {
    Clock(TruncToInt(seconds))
  }

  /** The label has the five characters of `MM:SS` exactly below one hour
      (negative inputs included), and at least eight from one hour on. */
  lemma ClockLength(n: int)
    ensures n < 3600 <==> |Clock(n)| == 5
    ensures 3600 <= n ==> 8 <= |Clock(n)|
  {
    ClockFields(n);
  }

  /** Reads a `MM:SS` or `H..H:MM:SS` label back into seconds. */
  function ParseClock(t: string): Option<int>
  {
    if |t| == 5 && t[2] == ':' then
      Some(ParseDecimal(t[..2]) * 60 + ParseDecimal(t[3..]))
    else if 8 <= |t| && t[|t| - 6] == ':' && t[|t| - 3] == ':' then
      Some(ParseDecimal(t[..|t| - 6]) * 3600 + ParseDecimal(t[|t| - 5..|t| - 3]) * 60 + ParseDecimal(t[|t| - 2..]))
    else
      None
  }

  /** The label of a non-negative number of seconds reads back as that
      number: the fields are separated by colons, the minute and second
      fields take exactly two digits and the hour field at least two. */
  lemma ClockRoundTrip(n: nat)
    ensures ParseClock(Clock(n)) == Some(n)
  {
    ClockFields(n);
    var h, m, s := Hours(n), Minutes(n), Seconds(n);
    Pad2RoundTrip(m);
    Pad2RoundTrip(s);
    if h > 0 {
      Pad2RoundTrip(h);
      ParseThreeFields(Clock(n), Pad2(h), Pad2(m), Pad2(s));
    } else {
      ParseTwoFields(Clock(n), Pad2(m), Pad2(s));
    }
  }

  lemma ParseTwoFields(t: string, a: string, b: string)
    requires |a| == 2 && |b| == 2
    requires t == a + ":" + b
    ensures ParseClock(t) == Some(ParseDecimal(a) * 60 + ParseDecimal(b))
  {
    assert t[..2] == a && t[3..] == b;
  }

  lemma ParseThreeFields(t: string, a: string, b: string, c: string)
    requires 2 <= |a| && |b| == 2 && |c| == 2
    requires t == a + ":" + b + ":" + c
    ensures ParseClock(t) == Some(ParseDecimal(a) * 3600 + ParseDecimal(b) * 60 + ParseDecimal(c))
  {
    ThreeFieldSlices(t, a, b, c);
    ParseLongClock(t);
  }

  lemma ThreeFieldSlices(t: string, a: string, b: string, c: string)
    requires |b| == 2 && |c| == 2
    requires t == a + ":" + b + ":" + c
    ensures |t| == |a| + 6 && t[|t| - 6] == ':' && t[|t| - 3] == ':'
    ensures t[..|t| - 6] == a && t[|t| - 5..|t| - 3] == b && t[|t| - 2..] == c
  {
    assert t[..|t| - 6] == a;
    assert t[|t| - 5..|t| - 3] == b;
    assert t[|t| - 2..] == c;
  }

  lemma ParseLongClock(t: string)
    requires 8 <= |t| && t[|t| - 6] == ':' && t[|t| - 3] == ':'
    ensures ParseClock(t)
         == Some(ParseDecimal(t[..|t| - 6]) * 3600 + ParseDecimal(t[|t| - 5..|t| - 3]) * 60 + ParseDecimal(t[|t| - 2..]))
  {
  }

  /** Every character of a label is a digit except the field separators. */
  lemma ClockCharacters(n: int)
    ensures forall i | 0 <= i < |Clock(n)| :: IsDigit(Clock(n)[i]) || Clock(n)[i] == ':'
  {
    ClockFields(n);
    if Hours(n) > 0 {
      Pad2Digits(Hours(n));
    }
    Pad2Digits(Minutes(n));
    Pad2Digits(Seconds(n));
  }

  // ---------------------------------------------------------------------
  // generate_html_transcript
  // ---------------------------------------------------------------------

  /** The fixed text before the transcript lines, one source line per
      element. */
  const HeaderLines: seq<string> := [
    "<!DOCTYPE html>\n",
    "<html lang=\"en\">\n",
    "<head>\n",
    "<meta charset=\"UTF-8\" />\n",
    "<title>YouTube Transcript</title>\n",
    "<style>\n",
    "  body {\n",
    "    font-family: Arial, sans-serif;\n",
    "    margin: 20px;\n",
    "  }\n",
    "  .container {\n",
    "    display: flex;\n",
    "    gap: 20px;\n",
    "  }\n",
    "  .transcript {\n",
    "    flex: 1;\n",
    "    overflow-y: auto;\n",
    "    max-height: 90vh;\n",
    "  }\n",
    "  .video {\n",
    "    flex: 1;\n",
    "  }\n",
    "  a.timestamp {\n",
    "    color: #007bff;\n",
    "    text-decoration: none;\n",
    "    margin-right: 8px;\n",
    "    cursor: pointer;\n",
    "  }\n",
    "  a.timestamp:hover {\n",
    "    text-decoration: underline;\n",
    "  }\n",
    "  .transcript-line {\n",
    "    margin-bottom: 10px;\n",
    "  }\n",
    "</style>\n",
    "</head>\n",
    "<body>\n",
    "<h1>Transcript for Video</h1>\n",
    "<div class=\"container\">\n",
    "  <div class=\"transcript\">\n"
  ]

  function Header(): string
  {
    Join(HeaderLines)
  }

  /** The fixed text after the transcript lines, up to the video id. */
  const FooterStartLines: seq<string> := [
    "\n",
    "  </div>\n",
    "  <div class=\"video\">\n",
    "    <div id=\"player\"></div>\n",
    "  </div>\n",
    "</div>\n",
    "\n",
    "<script>\n",
    "  var player;\n",
    "\n",
    "  function onYouTubeIframeAPIReady() {\n",
    "    player = new YT.Player('player', {\n",
    "      height: '315',\n",
    "      width: '560',\n",
    "      videoId: '"
  ]

  function FooterStart(): string
  {
    Join(FooterStartLines)
  }

  /** The fixed text after the video id. */
  const FooterEndLines: seq<string> := [
    "',\n",
    "      playerVars: {\n",
    "        'playsinline': 1\n",
    "      }\n",
    "    });\n",
    "  }\n",
    "\n",
    "  function seekTo(seconds) {\n",
    "    if (player && player.seekTo) {\n",
    "      player.seekTo(seconds, true);\n",
    "    }\n",
    "  }\n",
    "\n",
    "  // Load YouTube IFrame Player API\n",
    "  var tag = document.createElement('script');\n",
    "  tag.src = \"https://www.youtube.com/iframe_api\";\n",
    "  var firstScriptTag = document.getElementsByTagName('script')[0];\n",
    "  firstScriptTag.parentNode.insertBefore(tag, firstScriptTag);\n",
    "</script>\n",
    "\n",
    "</body>\n",
    "</html>\n"
  ]

  function FooterEnd(): string
  {
    Join(FooterEndLines)
  }

  function Footer(videoId: string): string
  {
    FooterStart() + videoId + FooterEnd()
  }

  const LineOpen: string := "<div class=\"transcript-line\"><a class=\"timestamp\" onclick=\"seekTo("
  const LineClose: string := "</div>\n"

  /** A snippet has both keys the HTML generator indexes. */
  predicate Complete(sn: Snippet)
  {
    sn.text.Some? && sn.start.Some?
  }

  /** The `transcript-line` div of one snippet: `seekTo` gets the whole
      seconds of its start, the label is their timestamp, and the text goes
      in unescaped. */
  function Line(sn: Snippet): string
    requires Complete(sn)
  {
    var start := TruncToInt(sn.start.value);
    LineOpen + IntString(start) + ")\">[" + Clock(start) + "]</a>" + sn.text.value + LineClose
  }

  /** The lines of a transcript, one per snippet, in transcript order. */
  function Lines(t: seq<Snippet>): string
    requires AllComplete(t)
  {
    if t == [] then "" else Lines(t[..|t| - 1]) + Line(t[|t| - 1])
  }

  predicate AllComplete(t: seq<Snippet>)
  {
    forall i | 0 <= i < |t| :: Complete(t[i])
  }

  /** `generate_html_transcript(transcript, video_id)`. A snippet without a
      `text` or `start` key makes the lookup raise. */
  method GenerateHtmlTranscript(transcript: seq<Snippet>, videoId: string) returns (r: Result<string>)
    ensures r.Ok? <==> AllComplete(transcript)
    ensures r.Ok? ==> r.value == Header() + Lines(transcript) + Footer(videoId)
  {
    var html := AppendLines(Header(), transcript);
    if html.Raised? {
      return Raised;
    }
    return Ok(html.value + Footer(videoId));
  }

  /** The loop of `generate_html_transcript`: appends one line per snippet
      to `html`, raising at the first snippet that lacks a key. */
  method AppendLines(html: string, transcript: seq<Snippet>) returns (r: Result<string>)
    ensures r.Ok? <==> AllComplete(transcript)
    ensures r.Ok? ==> r.value == html + Lines(transcript)
  {
    var acc := html;
    for i := 0 to |transcript|
      invariant forall k | 0 <= k < i :: Complete(transcript[k])
      invariant acc == html + Lines(transcript[..i])
    {
      if !Complete(transcript[i]) {
        return Raised;
      }
      LinesSnoc(html, transcript, i);
      acc := acc + Line(transcript[i]);
    }
    assert transcript[..|transcript|] == transcript;
    return Ok(acc);
  }

  lemma LinesSnoc(h: string, t: seq<Snippet>, i: nat)
    requires i < |t|
    requires forall k | 0 <= k <= i :: Complete(t[k])
    ensures h + Lines(t[..i + 1]) == h + Lines(t[..i]) + Line(t[i])
  {
    assert t[..i + 1][..i] == t[..i];
  }

  /** Each line opens the `transcript-line` div and carries the snippet's
      text verbatim just before the closing tag. */
  lemma LineText(sn: Snippet)
    requires Complete(sn)
    ensures Line(sn)[..|LineOpen|] == LineOpen
    ensures Line(sn)[|Line(sn)| - |LineClose| - |sn.text.value|..] == sn.text.value + LineClose
  {
    var start := TruncToInt(sn.start.value);
    var middle := IntString(start) + ")\">[" + Clock(start) + "]</a>";
    assert Line(sn) == LineOpen + middle + (sn.text.value + LineClose);
    Slot(LineOpen, middle, sn.text.value + LineClose);
  }

  /** For a non-negative start, `seekTo`'s argument reads back as the whole
      seconds of the start. */
  lemma LineSeekArgument(sn: Snippet)
    requires Complete(sn) && 0.0 <= sn.start.value
    ensures var n := TruncToInt(sn.start.value);
      |LineOpen| + |Decimal(n)| <= |Line(sn)|
      && ParseDecimal(Line(sn)[|LineOpen|..|LineOpen| + |Decimal(n)|]) == n
  {
    var n := TruncToInt(sn.start.value);
    var rest := ")\">[" + Clock(n) + "]</a>" + sn.text.value + LineClose;
    assert Line(sn) == LineOpen + Decimal(n) + rest;
    Slot(LineOpen, Decimal(n), rest);
    DecimalRoundTrip(n);
  }

  /** For a non-negative start, the bracketed label, four characters after
      `seekTo`'s argument, reads back as the same whole seconds. */
  lemma LineLabel(sn: Snippet)
    requires Complete(sn) && 0.0 <= sn.start.value
    ensures var n := TruncToInt(sn.start.value);
      var k := |LineOpen| + |Decimal(n)| + 4;
      k + 5 <= |Line(sn)| && ParseClock(Line(sn)[k..k + |Clock(n)|]) == Some(n)
  {
    var n := TruncToInt(sn.start.value);
    var before := LineOpen + IntString(n) + ")\">[";
    var after := "]</a>" + sn.text.value + LineClose;
    assert Line(sn) == before + Clock(n) + after;
    LabelSlot(Line(sn), before, after, n);
  }

  /** A clock text framed by two other texts reads back from its place. */
  lemma LabelSlot(t: string, before: string, after: string, n: nat)
    requires t == before + Clock(n) + after
    ensures |before| + 5 <= |t|
    ensures ParseClock(t[|before|..|before| + |Clock(n)|]) == Some(n)
  {
    Slot(before, Clock(n), after);
    ClockLength(n);
    ClockRoundTrip(n);
  }

  /** The middle part of a three-part concatenation sits right after the
      first part. */
  lemma Slot(a: string, b: string, c: string)
    ensures (a + b + c)[..|a|] == a
    ensures (a + b + c)[|a|..|a| + |b|] == b
    ensures (a + b + c)[|a| + |b|..] == c
  {
    assert (a + b + c)[..|a|] == a;
    assert (a + b + c)[|a|..|a| + |b|] == b;
    assert (a + b + c)[|a| + |b|..] == c;
  }
}
