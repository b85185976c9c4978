/** Writing the VOD playlist, adding the stream token to it, and reading it back
    (internal/streaming/manifest.go, internal/handler/hls_handler.go). */
module Playlist {
  import opened SegmentTable
  import opened SegmentNames

  // ----- Lines -----

  function Upto(s: string, c: char): (n: nat)
    ensures n <= |s|
    ensures forall i :: 0 <= i < n ==> s[i] != c
    ensures n < |s| ==> s[n] == c
  {
    if s == [] || s[0] == c then 0 else 1 + Upto(s[1..], c)
  }

  /** The lines, each ended by a newline. */
  function Unlines(lines: seq<string>): string {
    if lines == [] then [] else lines[0] + "\n" + Unlines(lines[1..])
  }

  const MAX_TOKEN := 65536

  function DropCr(line: string): string {
    if line != [] && line[|line| - 1] == '\r' then line[..|line| - 1] else line
  }

  /** The lines a line scanner with a buffer of max bytes yields: it gives up, silently, at the
      first line that does not fit together with its newline. */
  function Scan(text: string, max: nat): seq<string>
    decreases |text|
  {
    if text == [] then []
    else
      var n := Upto(text, '\n');
      if n >= max then []
      else [DropCr(text[..n])] + Scan(if n < |text| then text[n + 1..] else [], max)
  }

  /** A line that the scanner gives back as it was written. */
  ghost predicate Clean(line: string, max: nat) {
    && '\n' !in line && |line| < max
    && (line != [] ==> line[|line| - 1] != '\r')
  }

  lemma UptoNewline(line: string, more: string)
    requires '\n' !in line
    ensures Upto(line + ['\n'] + more, '\n') == |line|
  {
    var text := line + ['\n'] + more;
    assert text[|line|] == '\n';
    forall i | 0 <= i < |line| ensures text[i] != '\n' {
      assert text[i] == line[i];
    }
  }

  lemma SplitAtNewline(line: string, more: string)
    ensures var (text, n) := (line + ['\n'] + more, |line|);
            text[..n] == line && text[n + 1..] == more
  {
  }

  lemma ScanLine(line: string, more: string, max: nat)
    requires Clean(line, max)
    ensures Scan(line + ['\n'] + more, max) == [line] + Scan(more, max)
  {
    UptoNewline(line, more);
    SplitAtNewline(line, more);
  }

  lemma {:induction false} ScanOfUnlines(lines: seq<string>, max: nat)
    requires forall l :: l in lines ==> Clean(l, max)
    ensures Scan(Unlines(lines), max) == lines
  {
    if lines != [] {
      ScanOfUnlines(lines[1..], max);
      assert lines[0] in lines;
      ScanLine(lines[0], Unlines(lines[1..]), max);
    }
  }

  lemma {:induction false} UnlinesConcat(a: seq<string>, b: seq<string>)
    ensures Unlines(a + b) == Unlines(a) + Unlines(b)
  {
    if a == [] {
      assert a + b == b;
    } else {
      UnlinesConcat(a[1..], b);
      assert (a + b)[1..] == a[1..] + b;
    }
  }

  // ----- Durations -----

  const MICROS := 1000000

  /** The nearest integer to x, ties to the even one. */
  function RoundHalfEven(x: real): (n: int)
    ensures -0.5 <= n as real - x <= 0.5
  {
    var f := x.Floor;
    var part := x - f as real;
    if part < 0.5 || (part == 0.5 && f % 2 == 0) then f else f + 1
  }

  function Abs(x: real): real {
    if x < 0.0 then -x else x
  }

  function InSeconds(micros: nat): real {
    micros as real / 1000000.0
  }

  /** A duration in whole microseconds, without its sign. */
  function Micros(d: real): nat {
    RoundHalfEven(Abs(d) * 1000000.0)
  }

  /** d with six decimals, as by the verb %.6f. */
  function FormatSeconds(d: real): string {
    FormatSigned(d < 0.0, Micros(d))
  }

  function FormatSigned(negative: bool, m: nat): string {
    (if negative then ['-'] else []) + FormatMicros(m)
  }

  function FormatMicros(m: nat): string {
    Digits(m / MICROS) + ['.'] + Padded(m % MICROS, 6)
  }

  /** What FormatSeconds keeps of d. */
  function SixDecimals(d: real): real {
    Signed(d < 0.0, Micros(d))
  }

  function Signed(negative: bool, m: nat): real {
    if negative then -InSeconds(m) else InSeconds(m)
  }

  /** What digits after the point stand for. */
  function Fraction(digits: string): real
    requires AllDigits(digits)
  {
    Value(digits) as real / Pow10(|digits|) as real
  }

  /** The number written as digits and a point followed by more digits. */
  function ReadDecimal(body: string): Option<real> {
    var n := Upto(body, '.');
    if n == 0 || n == |body| || !AllDigits(body[..n]) || !AllDigits(body[n + 1..]) then None
    else Some(Value(body[..n]) as real + Fraction(body[n + 1..]))
  }

  /** A decimal number with an optional sign. */
  function ReadSeconds(text: string): Option<real> {
    if text != [] && text[0] == '-' then Negate(ReadDecimal(text[1..])) else ReadDecimal(text)
  }

  function Negate(r: Option<real>): Option<real> {
    match r
    case None => None
    case Some(x) => Some(-x)
  }

  lemma SecondsReadBack(d: real)
    ensures ReadSeconds(FormatSeconds(d)) == Some(SixDecimals(d))
  {
    SignedReadBack(d < 0.0, Micros(d));
  }

  lemma SignedReadBack(negative: bool, m: nat)
    ensures ReadSeconds(FormatSigned(negative, m)) == Some(Signed(negative, m))
  {
    DecimalReadBack(m);
    SignReadBack(negative, FormatMicros(m), InSeconds(m));
  }

  lemma SignReadBack(negative: bool, body: string, x: real)
    requires body != [] && body[0] != '-' && ReadDecimal(body) == Some(x)
    ensures ReadSeconds((if negative then ['-'] else []) + body) == Some(if negative then -x else x)
  {
    if negative {
      MinusReadBack(body);
    } else {
      PlusReadBack(body);
    }
  }

  lemma PlusReadBack(body: string)
    requires body != [] && body[0] != '-'
    ensures ReadSeconds([] + body) == ReadDecimal(body)
  {
    assert [] + body == body;
  }

  lemma MinusReadBack(body: string)
    ensures ReadSeconds(['-'] + body) == Negate(ReadDecimal(body))
  {
    assert (['-'] + body)[1..] == body;
  }

  lemma DecimalReadBack(m: nat)
    ensures ReadDecimal(FormatMicros(m)) == Some(InSeconds(m))
    ensures FormatMicros(m) != [] && FormatMicros(m)[0] != '-'
  {
    var (w, p) := (m / MICROS, m % MICROS);
    SixDigits(p);
    ValueOfDigits(w);
    ValueOfPadded(p, 6);
    DecimalOf(Digits(w), Padded(p, 6), w, p);
    WholeAndPart(m);
  }

  lemma DecimalOf(whole: string, part: string, w: nat, p: nat)
    requires whole != [] && AllDigits(whole) && AllDigits(part) && |part| == 6 && Pow10(6) == MICROS
    requires Value(whole) == w && Value(part) == p
    ensures var body := whole + ['.'] + part;
            ReadDecimal(body) == Some(w as real + InSeconds(p)) && body[0] != '-'
  {
    ReadParts(whole, part);
    FractionOfSix(part);
    assert (whole + ['.'] + part)[0] == whole[0];
  }

  lemma ReadParts(whole: string, part: string)
    requires whole != [] && AllDigits(whole) && AllDigits(part)
    ensures ReadDecimal(whole + ['.'] + part) == Some(Value(whole) as real + Fraction(part))
  {
    PointAfter(whole, part);
  }

  lemma FractionOfSix(part: string)
    requires AllDigits(part) && |part| == 6 && Pow10(6) == MICROS
    ensures Fraction(part) == InSeconds(Value(part))
  {
    assert Pow10(|part|) as real == 1000000.0;
  }

  lemma PointAfter(whole: string, part: string)
    requires AllDigits(whole)
    ensures var body := whole + ['.'] + part;
            Upto(body, '.') == |whole| && body[..|whole|] == whole && body[|whole| + 1..] == part
  {
    var body := whole + ['.'] + part;
    assert body[|whole|] == '.';
    assert forall i :: 0 <= i < |whole| ==> body[i] == whole[i] && IsDigit(whole[i]);
  }

  lemma SixDigits(n: nat)
    requires n < MICROS
    ensures |Padded(n, 6)| == 6 && Pow10(6) == MICROS
  {
    assert Pow10(6) == 1000000 by {
      assert Pow10(1) == 10 && Pow10(2) == 100 && Pow10(3) == 1000 && Pow10(4) == 10000;
    }
    DigitCount(n, 6);
  }

  lemma WholeAndPart(m: nat)
    ensures (m / MICROS) as real + InSeconds(m % MICROS) == InSeconds(m)
  {
    assert m == m / MICROS * MICROS + m % MICROS;
    assert m as real == (m / MICROS) as real * 1000000.0 + (m % MICROS) as real;
  }

  /** Six decimals are within half a microsecond. */
  lemma NearestMicro(d: real)
    ensures Abs(SixDecimals(d) - d) * 1000000.0 <= 0.5
  {
    var x := Abs(d) * 1000000.0;
    var m := Micros(d) as real;
    assert -0.5 <= m - x <= 0.5;
    assert SixDecimals(d) * 1000000.0 == if d < 0.0 then -m else m;
  }

  // ----- Writing the manifest -----

  function Ceil(x: real): (n: int)
    ensures n as real - 1.0 < x <= n as real
  {
    -((-x).Floor)
  }

  /** The longest duration, 0 when none is positive. */
  function Longest(segs: seq<SegmentBoundary>): (max: real)
    ensures max >= 0.0
    ensures forall i :: 0 <= i < |segs| ==> segs[i].duration <= max
    ensures max > 0.0 ==> exists i :: 0 <= i < |segs| && segs[i].duration == max
  {
    if segs == [] then 0.0
    else
      var n := |segs| - 1;
      var max := Longest(segs[..n]);
      if segs[n].duration > max then segs[n].duration else max
  }

  function Target(segs: seq<SegmentBoundary>): nat {
    Ceil(Longest(segs))
  }

  function Extinf(d: real): string {
    "#EXTINF:" + FormatSeconds(d) + ","
  }

  function TargetLine(target: nat): string {
    "#EXT-X-TARGETDURATION:" + Digits(target)
  }

  function Header(target: nat): seq<string> {
    ["#EXTM3U", "#EXT-X-VERSION:3", "#EXT-X-PLAYLIST-TYPE:VOD", TargetLine(target), "#EXT-X-MEDIA-SEQUENCE:0"]
  }

  const END_LINE := "#EXT-X-ENDLIST"

  /** The lines of the segments from the i-th on. */
  function EntryLines(segs: seq<SegmentBoundary>, i: nat): seq<string>
    requires i <= |segs|
    decreases |segs| - i
  {
    if i == |segs| then [] else [Extinf(segs[i].duration), SegmentName(i)] + EntryLines(segs, i + 1)
  }

  function ManifestLines(segs: seq<SegmentBoundary>): seq<string> {
    Header(Target(segs)) + EntryLines(segs, 0) + [END_LINE]
  }

  method BuildVODManifest(segs: seq<SegmentBoundary>) returns (text: string)
    ensures text == Unlines(ManifestLines(segs))
  {
    var maxDur := LongestDuration(segs);
    ghost var done;
    text, done := WriteHeader(Ceil(maxDur));
    for i := 0 to |segs|
      invariant text == Unlines(done)
      invariant Header(Target(segs)) + EntryLines(segs, 0) == done + EntryLines(segs, i)
    {
      Shift(done, Extinf(segs[i].duration), SegmentName(i), EntryLines(segs, i + 1));
      text, done := WriteLine(text, done, Extinf(segs[i].duration));
      text, done := WriteLine(text, done, SegmentName(i));
    }
    assert done + [] == done;
    text, done := WriteLine(text, done, END_LINE);
  }

  method LongestDuration(segs: seq<SegmentBoundary>) returns (maxDur: real)
    ensures maxDur == Longest(segs)
  {
    maxDur := 0.0;
    for i := 0 to |segs|
      invariant maxDur == Longest(segs[..i])
    {
      assert segs[..i + 1][..i] == segs[..i];
      if segs[i].duration > maxDur {
        maxDur := segs[i].duration;
      }
    }
    assert segs[..|segs|] == segs;
  }

  method WriteHeader(target: nat) returns (text: string, ghost done: seq<string>)
    ensures done == Header(target) && text == Unlines(done)
  {
    text, done := "", [];
    text, done := WriteLine(text, done, "#EXTM3U");
    text, done := WriteLine(text, done, "#EXT-X-VERSION:3");
    text, done := WriteLine(text, done, "#EXT-X-PLAYLIST-TYPE:VOD");
    text, done := WriteLine(text, done, TargetLine(target));
    text, done := WriteLine(text, done, "#EXT-X-MEDIA-SEQUENCE:0");
  }

  lemma Shift<T>(done: seq<T>, a: T, b: T, rest: seq<T>)
    ensures done + ([a, b] + rest) == done + [a] + [b] + rest
  {
  }

  /** Append one line to the text of the lines done so far. */
  method WriteLine(b: string, ghost done: seq<string>, line: string) returns (text: string, ghost lines: seq<string>)
    requires b == Unlines(done)
    ensures lines == done + [line] && text == Unlines(lines)
  {
    UnlinesConcat(done, [line]);
    assert [line][1..] == [];
    text := b + line + "\n";
    lines := done + [line];
  }

  /** The manifest of a table, line by line: five lines of a header, two for each segment, its rounded-up
      maximum as the target duration, and the end. */
  lemma ManifestIsFramed(segs: seq<SegmentBoundary>, i: nat)
    requires i < |segs|
    ensures var lines := ManifestLines(segs);
            && |lines| == 2 * |segs| + 6
            && lines[0] == "#EXTM3U" && lines[1] == "#EXT-X-VERSION:3" && lines[2] == "#EXT-X-PLAYLIST-TYPE:VOD"
            && lines[3] == "#EXT-X-TARGETDURATION:" + Digits(Target(segs)) && lines[4] == "#EXT-X-MEDIA-SEQUENCE:0"
            && lines[2 * i + 5] == "#EXTINF:" + FormatSeconds(segs[i].duration) + ","
            && lines[2 * i + 6] == SegmentName(i) && lines[2 * |segs| + 5] == "#EXT-X-ENDLIST"
  {
    EntryLinesAt(segs, 0, i);
  }

  lemma {:induction false} EntryLinesAt(segs: seq<SegmentBoundary>, from: nat, i: nat)
    requires from <= i < |segs|
    ensures var lines := EntryLines(segs, from);
            && |lines| == 2 * (|segs| - from)
            && lines[2 * (i - from)] == Extinf(segs[i].duration) && lines[2 * (i - from) + 1] == SegmentName(i)
    decreases |segs| - from
  {
    if from + 1 < |segs| { EntryLinesAt(segs, from + 1, if from < i then i else from + 1); }
  }

  // ----- Adding the token -----

  type Byte = b: int | 0 <= b < 256

  function HexDigit(d: int): char
    requires 0 <= d < 16
  {
    if d < 10 then Digit(d) else (55 + d) as char
  }

  /** One byte of a query value: unreserved characters as they are, a space as plus, others as
      a percent sign and two upper-case hexadecimal digits. */
  function EscapeByte(b: Byte): string {
    var c := b as char;
    if IsDigit(c) || 'A' <= c <= 'Z' || 'a' <= c <= 'z' || c in "-_.~" then [c]
    else if c == ' ' then "+"
    else ['%', HexDigit(b / 16), HexDigit(b % 16)]
  }

  function QueryEscape(token: seq<Byte>): string {
    if token == [] then [] else EscapeByte(token[0]) + QueryEscape(token[1..])
  }

  /** A line of the playlist with the token on it, if it is a URI. */
  function TokenLine(line: string, token: seq<Byte>): string {
    if line == [] || line[0] == '#' then line
    else line + (if '?' in line then "&token=" else "?token=") + QueryEscape(token)
  }

  function TokenLines(lines: seq<string>, token: seq<Byte>): (r: seq<string>)
    ensures |r| == |lines|
    ensures forall i :: 0 <= i < |r| ==> r[i] == TokenLine(lines[i], token)
  {
    seq(|lines|, i requires 0 <= i < |lines| => TokenLine(lines[i], token))
  }

  lemma TokenLinesCons(line: string, lines: seq<string>, token: seq<Byte>)
    ensures TokenLines([line] + lines, token) == [TokenLine(line, token)] + TokenLines(lines, token)
  {
    forall i | 0 < i <= |lines|
      ensures TokenLines([line] + lines, token)[i] == TokenLines(lines, token)[i - 1]
    {
      assert ([line] + lines)[i] == lines[i - 1];
    }
  }

  function Tokenised(raw: string, token: seq<Byte>): string {
    if token == [] then raw else Unlines(TokenLines(Scan(raw, MAX_TOKEN), token))
  }

  method RewritePlaylistTokens(raw: string, token: seq<Byte>) returns (buf: string)
    ensures buf == Tokenised(raw, token)
  {
    if token == [] {
      return raw;
    }
    var escaped := QueryEscape(token);
    buf := "";
    var rest := raw;
    ghost var done: seq<string> := [];
    while rest != []
      invariant buf == Unlines(done)
      invariant TokenLines(Scan(raw, MAX_TOKEN), token) == done + TokenLines(Scan(rest, MAX_TOKEN), token)
      decreases |rest|
    {
      var n := Upto(rest, '\n');
      if n >= MAX_TOKEN {
        break;
      }
      ScanStep(rest, done, token);
      var line := DropCr(rest[..n]);
      rest := if n < |rest| then rest[n + 1..] else [];
      var out := AppendToken(line, token, escaped);
      buf, done := WriteLine(buf, done, out);
    }
    assert done + [] == done;
  }

  method AppendToken(line: string, ghost token: seq<Byte>, escaped: string) returns (out: string)
    requires escaped == QueryEscape(token)
    ensures out == TokenLine(line, token)
  {
    if line == "" || HasPrefix(line, "#") {
      out := line;
    } else if '?' in line {
      out := line + "&token=" + escaped;
    } else {
      out := line + "?token=" + escaped;
    }
  }

  lemma ScanStep(text: string, done: seq<string>, token: seq<Byte>)
    requires text != [] && Upto(text, '\n') < MAX_TOKEN
    ensures var n := Upto(text, '\n');
            var rest := if n < |text| then text[n + 1..] else [];
            done + TokenLines(Scan(text, MAX_TOKEN), token) ==
            done + [TokenLine(DropCr(text[..n]), token)] + TokenLines(Scan(rest, MAX_TOKEN), token)
  {
    var n := Upto(text, '\n');
    var rest := if n < |text| then text[n + 1..] else [];
    TokenLinesCons(DropCr(text[..n]), Scan(rest, MAX_TOKEN), token);
  }

  /** The rewriting goes line by line, and a carriage return before the newline is dropped. */
  lemma RewritingGoesByLines(line: string, cr: bool, more: string, token: seq<Byte>)
    requires token != [] && '\n' !in line && (line != [] ==> line[|line| - 1] != '\r') && |line| + 1 < 65536
    ensures var raw := line + if cr then "\r" else "";
            Tokenised(raw + "\n" + more, token) == TokenLine(line, token) + "\n" + Tokenised(more, token)
  {
    var raw := line + if cr then "\r" else "";
    RawLine(line, cr);
    UptoNewline(raw, more);
    SplitAtNewline(raw, more);
    assert Scan(raw + ['\n'] + more, MAX_TOKEN) == [line] + Scan(more, MAX_TOKEN);
    TokenLinesCons(line, Scan(more, MAX_TOKEN), token);
    OneLine(TokenLine(line, token), TokenLines(Scan(more, MAX_TOKEN), token));
  }

  lemma RawLine(line: string, cr: bool)
    requires '\n' !in line && (line != [] ==> line[|line| - 1] != '\r')
    ensures var raw := line + if cr then "\r" else "";
            '\n' !in raw && |raw| <= |line| + 1 && DropCr(raw) == line
  {
    assert (line + "\r")[..|line|] == line && line + "" == line;
  }

  /** A last line without a newline is rewritten too, and gets one. */
  lemma LastLineGetsANewline(line: string, token: seq<Byte>)
    requires token != [] && '\n' !in line && line != [] && line[|line| - 1] != '\r' && |line| < 65536
    ensures Tokenised(line, token) == TokenLine(line, token) + "\n"
  {
    assert Upto(line, '\n') == |line| && line[..|line|] == line;
    assert Scan(line, MAX_TOKEN) == [line] + Scan([], MAX_TOKEN);
    TokenLinesCons(line, [], token);
    OneLine(TokenLine(line, token), TokenLines([], token));
  }

  lemma OneLine(line: string, lines: seq<string>)
    ensures Unlines([line] + lines) == line + "\n" + Unlines(lines)
  {
    assert ([line] + lines)[1..] == lines;
  }

  /** From the first line on that the scanner cannot hold, nothing is left; without a token all is. */
  lemma LongLinesEndTheRewriting(text: string, token: seq<Byte>)
    requires 65536 <= |text| && forall i :: 0 <= i < 65536 ==> text[i] != '\n'
    ensures Tokenised(text, token) == if token == [] then text else []
  {
  }

  // ----- Reading it back -----

  datatype Entry = Entry(seconds: real, uri: string)

  datatype Vod = Vod(target: nat, entries: seq<Entry>, ended: bool)

  datatype Line = ExtinfTag(value: string) | TargetTag(value: string) | EndTag | Ignored | UriLine

  function Classify(line: string): Line {
    if line == [] then Ignored
    else if line[0] != '#' then UriLine
    else if HasPrefix(line, "#EXTINF:") then ExtinfTag(line[8..])
    else if HasPrefix(line, "#EXT-X-TARGETDURATION:") then TargetTag(line[22..])
    else if line == END_LINE then EndTag
    else Ignored
  }

  /** What a player makes of the lines after the first, given the duration announced for the
      next URI: entries and tags per sections 4.3.2.1 and 4.3.3.1 of RFC 8216; other tags and
      empty lines are ignored. None for a URI without a duration or an unreadable number. */
  function ReadLines(lines: seq<string>, announced: Option<real>): Option<Vod> {
    if lines == [] then (if announced.None? then Some(Vod(0, [], false)) else None)
    else
      match Classify(lines[0])
      case ExtinfTag(value) =>
        var seconds := ReadSeconds(value[..Upto(value, ',')]);
        if seconds.None? then None else ReadLines(lines[1..], seconds)
      case TargetTag(value) =>
        var more := ReadLines(lines[1..], announced);
        if !AllDigits(value) || more.None? then None else Some(more.value.(target := Value(value)))
      case EndTag =>
        var more := ReadLines(lines[1..], announced);
        if more.None? then None else Some(more.value.(ended := true))
      case Ignored => ReadLines(lines[1..], announced)
      case UriLine =>
        var more := ReadLines(lines[1..], None);
        if announced.None? || more.None? then None
        else Some(more.value.(entries := [Entry(announced.value, lines[0])] + more.value.entries))
  }

  function ReadPlaylist(text: string): Option<Vod> {
    var lines := Scan(text, |text| + 1);
    if lines == [] || lines[0] != "#EXTM3U" then None else ReadLines(lines[1..], None)
  }

  /** The listed URI of a segment, with the token on it. */
  function Uri(i: nat, token: seq<Byte>): string {
    if token == [] then SegmentName(i) else SegmentName(i) + ("?token=" + QueryEscape(token))
  }

  /** What the entries from the i-th on must read as. */
  function Entries(segs: seq<SegmentBoundary>, i: nat, token: seq<Byte>): seq<Entry>
    requires i <= |segs|
  {
    seq(|segs| - i, k requires 0 <= k < |segs| - i => EntryOf(segs, i + k, token))
  }

  function EntryOf(segs: seq<SegmentBoundary>, i: nat, token: seq<Byte>): Entry
    requires i < |segs|
  {
    Entry(SixDecimals(segs[i].duration), Uri(i, token))
  }

  // ----- The round trip -----

  /** No character of s ends a line. */
  predicate Unbroken(s: string) {
    forall i :: 0 <= i < |s| ==> s[i] != '\n' && s[i] != '\r'
  }

  lemma UnbrokenConcat(a: string, b: string)
    requires Unbroken(a) && Unbroken(b)
    ensures Unbroken(a + b)
  {
  }

  lemma EscapedByteIsUnbroken(b: Byte)
    ensures Unbroken(EscapeByte(b))
  {
  }

  lemma {:induction false} EscapedIsUnbroken(token: seq<Byte>)
    ensures Unbroken(QueryEscape(token))
  {
    if token != [] {
      EscapedByteIsUnbroken(token[0]);
      EscapedIsUnbroken(token[1..]);
      UnbrokenConcat(EscapeByte(token[0]), QueryEscape(token[1..]));
    }
  }

  lemma NameIsPlain(i: nat)
    ensures var name := SegmentName(i);
            |name| > 0 && name[0] == 's' && name[|name| - 1] == 's' &&
            forall k :: 0 <= k < |name| ==> name[k] !in "\n\r?#"
  {
    var name := SegmentName(i);
    var digits := Padded(i, 5);
    forall k | 0 <= k < |name| ensures name[k] !in "\n\r?#" {
      if 3 <= k < 3 + |digits| { assert name[k] == digits[k - 3]; }
    }
  }

  lemma TokenOnName(i: nat, token: seq<Byte>)
    requires token != []
    ensures TokenLine(SegmentName(i), token) == Uri(i, token)
  {
    NameIsPlain(i);
  }

  lemma UriIsClean(i: nat, token: seq<Byte>)
    ensures var uri := Uri(i, token);
            '\n' !in uri && uri != [] && uri[0] == 's' && uri[|uri| - 1] != '\r'
  {
    NameIsPlain(i);
    var (name, query) := (SegmentName(i), "?token=" + QueryEscape(token));
    assert Unbroken(name);
    EscapedIsUnbroken(token);
    UnbrokenConcat("?token=", QueryEscape(token));
    UnbrokenConcat(name, query);
    assert Unbroken(Uri(i, token));
    assert (name + query)[0] == name[0];
  }

  lemma ExtinfIsClean(d: real)
    ensures var line := Extinf(d);
            '\n' !in line && line[|line| - 1] == ',' && |line| == |FormatSeconds(d)| + 9
    ensures Upto(FormatSeconds(d) + [','], ',') == |FormatSeconds(d)|
  {
    var text := FormatSeconds(d);
    FormatIsPlain(d);
    assert Extinf(d) == "#EXTINF:" + text + [','];
    assert forall k :: 0 <= k < |text| ==> (text + [','])[k] == text[k];
    assert (text + [','])[|text|] == ',';
  }

  lemma FormatIsPlain(d: real)
    ensures forall k :: 0 <= k < |FormatSeconds(d)| ==> FormatSeconds(d)[k] !in "\n,"
  {
  }

  /** The tokenised entry lines, tag lines as they were. */
  lemma EntryTokenLines(segs: seq<SegmentBoundary>, i: nat, token: seq<Byte>)
    requires i < |segs| && token != []
    ensures TokenLines(EntryLines(segs, i), token) ==
            [Extinf(segs[i].duration), Uri(i, token)] + TokenLines(EntryLines(segs, i + 1), token)
  {
    var rest := EntryLines(segs, i + 1);
    var ext, name := Extinf(segs[i].duration), SegmentName(i);
    PairSplit(ext, name, rest);
    TokenLinesCons(ext, [name] + rest, token);
    TokenLinesCons(name, rest, token);
    TokenOnName(i, token);
    PairSplit(ext, Uri(i, token), TokenLines(rest, token));
  }

  /** The lines of the served entries from the i-th on. */
  function ServedEntries(segs: seq<SegmentBoundary>, i: nat, token: seq<Byte>): seq<string>
    requires i <= |segs|
    decreases |segs| - i
  {
    if i == |segs| then [END_LINE]
    else [Extinf(segs[i].duration), Uri(i, token)] + ServedEntries(segs, i + 1, token)
  }

  /** The playlist as served: the manifest's lines, each URI with the token on it. */
  function ServedLines(segs: seq<SegmentBoundary>, token: seq<Byte>): seq<string> {
    Header(Target(segs)) + ServedEntries(segs, 0, token)
  }

  lemma {:induction false} ReadEntries(segs: seq<SegmentBoundary>, i: nat, token: seq<Byte>)
    requires i <= |segs|
    ensures ReadLines(ServedEntries(segs, i, token), None) == Some(Vod(0, Entries(segs, i, token), true))
    decreases |segs| - i
  {
    if i == |segs| {
      assert Entries(segs, i, token) == [];
      ReadEnd();
    } else {
      ReadEntries(segs, i + 1, token);
      ReadEntry(segs, i, token);
    }
  }

  lemma ReadEntry(segs: seq<SegmentBoundary>, i: nat, token: seq<Byte>)
    requires i < |segs|
    requires ReadLines(ServedEntries(segs, i + 1, token), None) == Some(Vod(0, Entries(segs, i + 1, token), true))
    ensures ReadLines(ServedEntries(segs, i, token), None) == Some(Vod(0, Entries(segs, i, token), true))
  {
    ReadPair(segs[i].duration, i, token, ServedEntries(segs, i + 1, token), Entries(segs, i + 1, token));
    OneMoreEntry(segs, i, token);
  }

  lemma EntryAt(segs: seq<SegmentBoundary>, i: nat, token: seq<Byte>, k: nat)
    requires i + k < |segs|
    ensures Entries(segs, i, token)[k] == EntryOf(segs, i + k, token)
  {
  }

  lemma ConsByElements<T>(all: seq<T>, head: T, rest: seq<T>)
    requires |all| == |rest| + 1 && all[0] == head && forall k :: 0 <= k < |rest| ==> all[k + 1] == rest[k]
    ensures all == [head] + rest
  {
  }

  lemma OneMoreEntry(segs: seq<SegmentBoundary>, i: nat, token: seq<Byte>)
    requires i < |segs|
    ensures Entries(segs, i, token) == [EntryOf(segs, i, token)] + Entries(segs, i + 1, token)
  {
    var (all, rest) := (Entries(segs, i, token), Entries(segs, i + 1, token));
    EntryAt(segs, i, token, 0);
    forall k | 0 <= k < |rest| ensures all[k + 1] == rest[k] {
      EntryAt(segs, i, token, k + 1);
      EntryAt(segs, i + 1, token, k);
    }
    ConsByElements(all, EntryOf(segs, i, token), rest);
  }

  lemma ReadEnd()
    ensures ReadLines([END_LINE], None) == Some(Vod(0, [], true))
  {
    ClassifyEnd();
    assert [END_LINE][1..] == [];
  }

  lemma ClassifyEnd()
    ensures Classify(END_LINE) == EndTag
  {
    assert END_LINE[..8][4] == '-' && "#EXTINF:"[4] == 'I';
  }

  lemma ReadPair(d: real, i: nat, token: seq<Byte>, rest: seq<string>, entries: seq<Entry>)
    requires ReadLines(rest, None) == Some(Vod(0, entries, true))
    ensures ReadLines([Extinf(d), Uri(i, token)] + rest, None) ==
            Some(Vod(0, [Entry(SixDecimals(d), Uri(i, token))] + entries, true))
  {
    ReadUri(i, token, SixDecimals(d), rest);
    ReadExtinf(d, [Uri(i, token)] + rest);
    PairSplit(Extinf(d), Uri(i, token), rest);
  }

  lemma PairSplit<T>(a: T, b: T, rest: seq<T>)
    ensures [a, b] + rest == [a] + ([b] + rest)
  {
  }

  lemma ReadExtinf(d: real, rest: seq<string>)
    ensures ReadLines([Extinf(d)] + rest, None) == ReadLines(rest, Some(SixDecimals(d)))
  {
    SecondsReadBack(d);
    ExtinfIsClean(d);
    ClassifyExtinf(FormatSeconds(d));
    assert ([Extinf(d)] + rest)[1..] == rest;
  }

  lemma ClassifyExtinf(text: string)
    ensures Classify("#EXTINF:" + text + ",") == ExtinfTag(text + [','])
    ensures (text + [','])[..|text|] == text
  {
    var line := "#EXTINF:" + text + ",";
    assert line == "#EXTINF:" + (text + [',']);
    assert line[8..] == text + [','];
  }

  lemma ReadUri(i: nat, token: seq<Byte>, seconds: real, rest: seq<string>)
    requires ReadLines(rest, None).Some?
    ensures var more := ReadLines(rest, None).value;
            ReadLines([Uri(i, token)] + rest, Some(seconds)) ==
            Some(more.(entries := [Entry(seconds, Uri(i, token))] + more.entries))
  {
    UriIsClean(i, token);
    ReadUriLine(Uri(i, token), seconds, rest);
  }

  lemma ReadUriLine(line: string, seconds: real, rest: seq<string>)
    requires ReadLines(rest, None).Some? && line != [] && line[0] != '#'
    ensures var more := ReadLines(rest, None).value;
            ReadLines([line] + rest, Some(seconds)) == Some(more.(entries := [Entry(seconds, line)] + more.entries))
  {
    assert ([line] + rest)[1..] == rest;
  }

  lemma ReadHeader(target: nat, rest: seq<string>)
    requires ReadLines(rest, None).Some?
    ensures ReadLines(Header(target)[1..] + rest, None) == Some(ReadLines(rest, None).value.(target := target))
  {
    var h := Header(target);
    ClassifyHeader(target);
    ReadIgnored(h[4], rest);
    var three := [h[4]] + rest;
    assert ([h[3]] + three)[1..] == three;
    ValueOfDigits(target);
    var two := [h[3]] + three;
    ReadIgnored(h[2], two);
    ReadIgnored(h[1], [h[2]] + two);
    assert h[1..] + rest == [h[1]] + ([h[2]] + two);
  }

  lemma ReadIgnored(line: string, rest: seq<string>)
    requires Classify(line) == Ignored
    ensures ReadLines([line] + rest, None) == ReadLines(rest, None)
  {
    assert ([line] + rest)[1..] == rest;
  }

  lemma ClassifyHeader(target: nat)
    ensures var h := Header(target);
            Classify(h[1]) == Ignored && Classify(h[2]) == Ignored && Classify(h[4]) == Ignored &&
            Classify(h[3]) == TargetTag(Digits(target))
  {
    var line := TargetLine(target);
    assert "#EXTINF:"[4] == 'I' && "#EXT-X-TARGETDURATION:"[7] == 'T';
    assert "#EXT-X-VERSION:3"[4] == '-' && "#EXT-X-PLAYLIST-TYPE:VOD"[4] == '-' && "#EXT-X-MEDIA-SEQUENCE:0"[4] == '-';
    assert "#EXT-X-PLAYLIST-TYPE:VOD"[7] == 'P' && "#EXT-X-MEDIA-SEQUENCE:0"[7] == 'M';
    assert line[4] == '-' && line[..22] == "#EXT-X-TARGETDURATION:" && line[22..] == Digits(target);
  }

  /** Every line of the manifest survives the scanner: names below the limit are short, and so
      are durations (a finite 64-bit float prints in under 400 characters). */
  ghost predicate Printable(segs: seq<SegmentBoundary>) {
    && |segs| <= NAME_LIMIT
    && |Digits(Target(segs))| <= 400
    && forall i :: 0 <= i < |segs| ==> |FormatSeconds(segs[i].duration)| <= 400
  }

  lemma {:induction false} EntryLinesClean(segs: seq<SegmentBoundary>, i: nat)
    requires Printable(segs) && i <= |segs|
    ensures forall l :: l in EntryLines(segs, i) ==> Clean(l, MAX_TOKEN)
    decreases |segs| - i
  {
    if i < |segs| {
      EntryLinesClean(segs, i + 1);
      ExtinfIsClean(segs[i].duration);
      NameIsPlain(i);
      FiveDigits(i);
      assert |SegmentName(i)| == 11;
      assert Clean(SegmentName(i), MAX_TOKEN) && Clean(Extinf(segs[i].duration), MAX_TOKEN);
    }
  }

  lemma HeaderIsClean(target: nat)
    requires |Digits(target)| <= 400
    ensures forall l :: l in Header(target) ==> Clean(l, MAX_TOKEN)
    ensures Clean(END_LINE, MAX_TOKEN)
  {
    var line := TargetLine(target);
    assert forall k :: 22 <= k < |line| ==> line[k] == Digits(target)[k - 22];
    assert Clean(line, MAX_TOKEN);
  }

  lemma TokenLinesConcat(a: seq<string>, b: seq<string>, token: seq<Byte>)
    ensures TokenLines(a + b, token) == TokenLines(a, token) + TokenLines(b, token)
  {
    assert forall i :: |a| <= i < |a + b| ==> (a + b)[i] == b[i - |a|];
  }

  lemma TagsUntouched(lines: seq<string>, token: seq<Byte>)
    requires forall l :: l in lines ==> l != [] && l[0] == '#'
    ensures TokenLines(lines, token) == lines
  {
  }

  lemma {:induction false} ServedEntryLines(segs: seq<SegmentBoundary>, i: nat, token: seq<Byte>)
    requires i <= |segs|
    ensures token != [] ==> TokenLines(EntryLines(segs, i), token) + [END_LINE] == ServedEntries(segs, i, token)
    ensures token == [] ==> EntryLines(segs, i) + [END_LINE] == ServedEntries(segs, i, token)
    decreases |segs| - i
  {
    if i < |segs| {
      ServedEntryLines(segs, i + 1, token);
      if token != [] {
        EntryTokenLines(segs, i, token);
      }
    }
  }

  /** Tokenising lines of which the first and the last are tags. */
  lemma TokenisedLines(header: seq<string>, entries: seq<string>, last: string, token: seq<Byte>)
    requires token != []
    requires forall l :: l in header ==> l != [] && l[0] == '#'
    requires last != [] && last[0] == '#'
    requires forall l :: l in header + (entries + [last]) ==> Clean(l, MAX_TOKEN)
    ensures Tokenised(Unlines(header + (entries + [last])), token) ==
            Unlines(header + (TokenLines(entries, token) + [last]))
  {
    ScanOfUnlines(header + (entries + [last]), MAX_TOKEN);
    TokenLinesConcat(header, entries + [last], token);
    TokenLinesConcat(entries, [last], token);
    TagsUntouched(header, token);
    TagsUntouched([last], token);
  }

  /** The handler serves the manifest's lines with the token on every URI and on nothing else. */
  lemma TokenisedManifest(segs: seq<SegmentBoundary>, token: seq<Byte>)
    requires Printable(segs)
    ensures Tokenised(Unlines(ManifestLines(segs)), token) == Unlines(ServedLines(segs, token))
  {
    var header, entries := Header(Target(segs)), EntryLines(segs, 0);
    ServedEntryLines(segs, 0, token);
    assert ManifestLines(segs) == header + (entries + [END_LINE]);
    if token != [] {
      ManifestIsClean(segs);
      HeaderIsTags(Target(segs));
      TokenisedLines(header, entries, END_LINE, token);
    }
  }

  lemma HeaderIsTags(target: nat)
    ensures forall l :: l in Header(target) ==> l != [] && l[0] == '#'
  {
  }

  lemma ManifestIsClean(segs: seq<SegmentBoundary>)
    requires Printable(segs)
    ensures forall l :: l in ManifestLines(segs) ==> Clean(l, MAX_TOKEN)
  {
    HeaderIsClean(Target(segs));
    EntryLinesClean(segs, 0);
  }

  lemma {:induction false} LinesFit(lines: seq<string>)
    ensures forall l :: l in lines ==> |l| < |Unlines(lines)|
  {
    if lines != [] {
      LinesFit(lines[1..]);
      assert lines == [lines[0]] + lines[1..];
    }
  }

  ghost predicate Tame(line: string) {
    '\n' !in line && (line != [] ==> line[|line| - 1] != '\r')
  }

  lemma EntryIsTame(d: real, i: nat, token: seq<Byte>)
    ensures Tame(Extinf(d)) && Tame(Uri(i, token))
  {
    ExtinfIsClean(d);
    UriIsClean(i, token);
  }

  lemma {:induction false} ServedEntriesTame(segs: seq<SegmentBoundary>, i: nat, token: seq<Byte>)
    requires i <= |segs|
    ensures forall l :: l in ServedEntries(segs, i, token) ==> Tame(l)
    decreases |segs| - i
  {
    if i < |segs| {
      ServedEntriesTame(segs, i + 1, token);
      EntryIsTame(segs[i].duration, i, token);
      TameConcat([Extinf(segs[i].duration), Uri(i, token)], ServedEntries(segs, i + 1, token));
    }
  }

  /** Reading back the tokenised manifest recovers the segments: their number and order, the
      durations to six decimals, the target duration, and for each a URI that is its name with
      the token behind a question mark. */
  lemma PlaylistReadsBack(segs: seq<SegmentBoundary>, token: seq<Byte>)
    requires Printable(segs)
    ensures ReadPlaylist(Tokenised(Unlines(ManifestLines(segs)), token)) ==
            Some(Vod(Target(segs), Entries(segs, 0, token), true))
  {
    TokenisedManifest(segs, token);
    var header, entries := Header(Target(segs)), ServedEntries(segs, 0, token);
    HeaderIsClean(Target(segs));
    ServedEntriesTame(segs, 0, token);
    TameConcat(header, entries);
    TameLinesRead(header + entries);
    ReadEntries(segs, 0, token);
    ReadHeader(Target(segs), entries);
    TailOfConcat(header, entries);
  }

  lemma TailOfConcat<T>(a: seq<T>, b: seq<T>)
    requires a != []
    ensures (a + b)[1..] == a[1..] + b
  {
  }

  lemma TameConcat(a: seq<string>, b: seq<string>)
    requires forall l :: l in a ==> Tame(l)
    requires forall l :: l in b ==> Tame(l)
    ensures forall l :: l in a + b ==> Tame(l)
  {
  }

  lemma TameLinesRead(lines: seq<string>)
    requires forall l :: l in lines ==> Tame(l)
    requires lines != [] && lines[0] == "#EXTM3U"
    ensures ReadPlaylist(Unlines(lines)) == ReadLines(lines[1..], None)
  {
    LinesFit(lines);
    ScanOfUnlines(lines, |Unlines(lines)| + 1);
  }

  /** Section 4.3.3.1 of RFC 8216: each EXTINF, as printed and rounded to a whole number of
      seconds, is at most the target duration. */
  lemma {:induction false} TargetBoundsEveryEntry(segs: seq<SegmentBoundary>, i: nat)
    requires i < |segs|
    ensures SixDecimals(segs[i].duration) <= Target(segs) as real
    ensures RoundHalfEven(SixDecimals(segs[i].duration)) <= Target(segs)
  {
    var d := segs[i].duration;
    assert d <= Longest(segs) <= Target(segs) as real;
    if d >= 0.0 {
      MicrosBelow(d, Target(segs));
    }
  }

  /** Rounding to a microsecond does not cross a whole second. */
  lemma MicrosBelow(d: real, t: nat)
    requires 0.0 <= d <= t as real
    ensures InSeconds(Micros(d)) <= t as real
  {
    RoundBelow(d * 1000000.0, t * 1000000);
  }

  lemma RoundBelow(x: real, n: int)
    requires x <= n as real
    ensures RoundHalfEven(x) <= n
  {
    var f := x.Floor;
    assert f <= n;
  }
}
