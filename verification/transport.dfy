/** The transport base class's debugging hex dump and its two static
    trampolines. The dump prints a header line and then the bytes in lines
    of at most 25: a hex column of two-digit fields padded to a fixed width,
    then the bytes again as text with unprintable ones shown as `.`. Its
    output is modelled as the text it prints. */
module Transport {
  import opened Base

  /** Bytes per dump line. */
  const DEBUG_LINE: nat := 25

  /** Width of the hex column: three characters per byte of a full line. */
  const HEX_WIDTH: nat := 3 * DEBUG_LINE

  /** The upper-case hex digit for a value below 16. */
  function HexDigit(v: nat): (c: char)
    requires v < 16
    ensures '0' <= c <= '9' || 'A' <= c <= 'F'
  {
    if v < 10 then '0' + v as char else 'A' + (v - 10) as char
  }

  /** The value of an upper-case hex digit, read independently of `HexDigit`. */
  function HexValue(c: char): Option<nat> {
    if '0' <= c <= '9' then Some(c as int - '0' as int)
    else if 'A' <= c <= 'F' then Some(c as int - 'A' as int + 10)
    else None
  }

  /** Each digit reads back as its value. */
  lemma HexDigitReadsBack(v: nat)
    requires v < 16
    ensures HexValue(HexDigit(v)) == Some(v)
  {
  }

  /** What `%X` prints for a byte: upper-case hex without leading zeros. */
  function PercentX(b: byte): (r: string)
    ensures |r| == (if b < 16 then 1 else 2)
  {
    if b < 16 then [HexDigit(b)] else [HexDigit(b / 16), HexDigit(b % 16)]
  }

  /** The hex field as the dump prints it: `0%X ` up to 0x0F, `%X ` above.
      Whatever the byte, that is two upper-case hex digits, most significant
      first, and a space. */
  function HexField(b: byte): (r: string)
    ensures |r| == 3 && r[2] == ' '
    ensures HexValue(r[0]).Some? && HexValue(r[1]).Some?
    ensures HexValue(r[0]).value * 16 + HexValue(r[1]).value == b
  {
    var r := (if b <= 0x0F then "0" + PercentX(b) else PercentX(b)) + " ";
    HexDigitReadsBack(b / 16);
    HexDigitReadsBack(b % 16);
    assert r == [HexDigit(b / 16), HexDigit(b % 16), ' '];
    r
  }

  /** The text column's character for a byte: itself when printable
      (0x20 to 0x7E), otherwise `.`. */
  function Shown(b: byte): (c: char)
    ensures 0x20 <= b <= 0x7E ==> c as int == b
    ensures !(0x20 <= b <= 0x7E) ==> c == '.'
    ensures c != '\n'
  {
    if 0x20 <= b <= 0x7E then b as char else '.'
  }

  /** The hex fields of `s`, in order. */
  function HexColumn(s: seq<byte>): (r: string)
    ensures |r| == 3 * |s|
    decreases |s|
  {
    if s == [] then "" else HexColumn(s[..|s| - 1]) + HexField(s[|s| - 1])
  }

  /** The text column of `s`. */
  function TextColumn(s: seq<byte>): (r: string)
    ensures |r| == |s|
    ensures forall i :: 0 <= i < |s| ==> r[i] == Shown(s[i])
    decreases |s|
  {
    if s == [] then "" else TextColumn(s[..|s| - 1]) + [Shown(s[|s| - 1])]
  }

  /** `n` spaces. */
  function Spaces(n: nat): (r: string)
    ensures |r| == n && forall i :: 0 <= i < n ==> r[i] == ' '
    decreases n
  {
    if n == 0 then "" else Spaces(n - 1) + " "
  }

  /** One dump line: the hex fields, three spaces per byte short of a full
      line, the text column, and a newline. */
  function Line(chunk: seq<byte>): (r: string)
    requires 1 <= |chunk| <= DEBUG_LINE
    ensures |r| == HEX_WIDTH + |chunk| + 1
  {
    HexColumn(chunk) + Spaces((DEBUG_LINE - |chunk|) * 3) + TextColumn(chunk) + "\n"
  }

  /** The layout of a line: the hex column padded to HEX_WIDTH characters
      whatever the line's length, then one text character per byte, then the
      newline. */
  lemma LineLayout(chunk: seq<byte>)
    requires 1 <= |chunk| <= DEBUG_LINE
    ensures var r := Line(chunk);
      && r[..HEX_WIDTH] == HexColumn(chunk) + Spaces((DEBUG_LINE - |chunk|) * 3)
      && r[HEX_WIDTH..HEX_WIDTH + |chunk|] == TextColumn(chunk)
      && r[|r| - 1] == '\n'
  {
    var hex := HexColumn(chunk) + Spaces((DEBUG_LINE - |chunk|) * 3);
    var r := Line(chunk);
    assert r == hex + TextColumn(chunk) + "\n";
    assert r[..HEX_WIDTH] == hex;
    assert r[HEX_WIDTH..HEX_WIDTH + |chunk|] == TextColumn(chunk);
  }

  /** The lines for `bytes`, 25 bytes to a line, the last possibly shorter. */
  function Lines(bytes: seq<byte>): string
    decreases |bytes|
  {
    if bytes == [] then ""
    else
      var n := if |bytes| < DEBUG_LINE then |bytes| else DEBUG_LINE;
      Line(bytes[..n]) + Lines(bytes[n..])
  }

  /** The decimal digits of `n`, as `%d` prints it. */
  function Decimal(n: nat): (r: string)
    ensures |r| >= 1 && forall i :: 0 <= i < |r| ==> '0' <= r[i] <= '9'
    decreases n
  {
    var last := ['0' + (n % 10) as char];
    if n < 10 then last else Decimal(n / 10) + last
  }

  /** The value of a string of decimal digits, read from the right. */
  function DecimalValue(s: string): nat
    decreases |s|
  {
    if s == [] then 0
    else
      var d := s[|s| - 1] as int - '0' as int;
      DecimalValue(s[..|s| - 1]) * 10 + (if 0 <= d then d else 0)
  }

  /** The size printed in the header reads back as the size. */
  lemma {:induction false} DecimalReadsBack(n: nat)
    ensures DecimalValue(Decimal(n)) == n
    decreases n
  {
    if n >= 10 {
      DecimalReadsBack(n / 10);
      var r := Decimal(n);
      assert r[..|r| - 1] == Decimal(n / 10);
    }
  }

  /** The header line `DEBUG: <title> of size <bytes>`. */
  function Header(title: string, size: nat): string {
    "DEBUG: " + title + " of size " + Decimal(size) + "\n"
  }

  /** The whole dump, defined line by line. */
  function Dump(title: string, bytes: seq<byte>): string {
    Header(title, |bytes|) + Lines(bytes)
  }

  /** `debugPrintBuffer`, as the source's loops print it: the header, then
      for each line the hex fields, the padding, the text column and the
      newline. */
  method DebugPrintBuffer(title: string, bytes: seq<byte>) returns (out: string)
    ensures out == Dump(title, bytes)
  {
    out := Header(title, |bytes|);
    var count := 0;
    while count < |bytes|
      invariant count <= |bytes|
      invariant out + Lines(bytes[count..]) == Dump(title, bytes)
      decreases |bytes| - count
    {
      var lineEnd := count + DEBUG_LINE;
      if lineEnd > |bytes| {
        lineEnd := |bytes|;
      }
      var line := PrintLine(bytes[count..lineEnd]);
      DumpAdvances(title, bytes, out, line, count, lineEnd);
      out := out + line;
      count := lineEnd;
    }
  }

  /** Printing the line for `count..lineEnd` keeps the outer loop's account:
      what is printed plus the lines still to come is the whole dump. */
  lemma DumpAdvances(title: string, bytes: seq<byte>, out: string, line: string, count: nat, lineEnd: nat)
    requires count < lineEnd <= |bytes|
    requires lineEnd == (if count + DEBUG_LINE > |bytes| then |bytes| else count + DEBUG_LINE)
    requires out + Lines(bytes[count..]) == Dump(title, bytes)
    requires line == Line(bytes[count..lineEnd])
    ensures (out + line) + Lines(bytes[lineEnd..]) == Dump(title, bytes)
  {
    LinesStep(bytes, count, lineEnd);
    assert (out + line) + Lines(bytes[lineEnd..]) == out + (line + Lines(bytes[lineEnd..]));
  }

  /** The lines from `count` on are the line for `count..lineEnd` followed by
      the lines from `lineEnd` on. */
  lemma LinesStep(bytes: seq<byte>, count: nat, lineEnd: nat)
    requires count < lineEnd <= |bytes|
    requires lineEnd == (if count + DEBUG_LINE > |bytes| then |bytes| else count + DEBUG_LINE)
    ensures Lines(bytes[count..]) == Line(bytes[count..lineEnd]) + Lines(bytes[lineEnd..])
  {
    var rest := bytes[count..];
    var n := lineEnd - count;
    assert n == (if |rest| < DEBUG_LINE then |rest| else DEBUG_LINE);
    assert Lines(rest) == Line(rest[..n]) + Lines(rest[n..]);
    assert rest[..n] == bytes[count..lineEnd];
    assert rest[n..] == bytes[lineEnd..];
  }

  /** The body of the dump's outer loop for one line's bytes. */
  method PrintLine(chunk: seq<byte>) returns (line: string)
    requires 1 <= |chunk| <= DEBUG_LINE
    ensures line == Line(chunk)
  {
    var hex := "";
    var i := 0;
    while i < |chunk|
      invariant i <= |chunk|
      invariant hex == HexColumn(chunk[..i])
    {
      assert chunk[..i + 1][..i] == chunk[..i];
      hex := hex + HexField(chunk[i]);
      i := i + 1;
    }
    assert chunk[..i] == chunk;

    var pad := (DEBUG_LINE - |chunk|) * 3;
    var spaces := "";
    var j := 0;
    while j < pad
      invariant j <= pad
      invariant spaces == Spaces(j)
    {
      spaces := spaces + " ";
      j := j + 1;
    }

    var text := "";
    i := 0;
    while i < |chunk|
      invariant i <= |chunk|
      invariant text == TextColumn(chunk[..i])
    {
      assert chunk[..i + 1][..i] == chunk[..i];
      text := text + [Shown(chunk[i])];
      i := i + 1;
    }
    assert chunk[..i] == chunk;
    line := hex + spaces + text + "\n";
  }

  /** With no bytes the dump is the header line alone. */
  lemma EmptyDumpIsHeader(title: string)
    ensures Dump(title, []) == Header(title, 0)
    ensures DebugPrintBufferLines(0) == 0
  {
  }

  /** How many lines the dump prints after its header for `n` bytes: `n / 25`
      rounded up. */
  function DebugPrintBufferLines(n: nat): nat {
    (n + DEBUG_LINE - 1) / DEBUG_LINE
  }

  /** The number of newlines in a text. */
  function Newlines(s: string): nat
    decreases |s|
  {
    if s == [] then 0 else Newlines(s[..|s| - 1]) + (if s[|s| - 1] == '\n' then 1 else 0)
  }

  lemma {:induction false} NewlinesAppend(x: string, y: string)
    ensures Newlines(x + y) == Newlines(x) + Newlines(y)
    decreases |y|
  {
    if y == [] {
      assert x + y == x;
    } else {
      assert (x + y)[..|x + y| - 1] == x + y[..|y| - 1];
      assert (x + y)[|x + y| - 1] == y[|y| - 1];
      NewlinesAppend(x, y[..|y| - 1]);
    }
  }

  lemma {:induction false} NewlinesNone(s: string)
    requires forall i :: 0 <= i < |s| ==> s[i] != '\n'
    ensures Newlines(s) == 0
    decreases |s|
  {
    if s != [] {
      NewlinesNone(s[..|s| - 1]);
    }
  }

  /** Each dump line holds exactly one newline, at its end. */
  lemma LineHasOneNewline(chunk: seq<byte>)
    requires 1 <= |chunk| <= DEBUG_LINE
    ensures Newlines(Line(chunk)) == 1
  {
    var hex := HexColumn(chunk) + Spaces((DEBUG_LINE - |chunk|) * 3);
    var body := hex + TextColumn(chunk);
    HexColumnHasNoNewline(chunk);
    NewlinesNone(Spaces((DEBUG_LINE - |chunk|) * 3));
    NewlinesNone(TextColumn(chunk));
    NewlinesAppend(HexColumn(chunk), Spaces((DEBUG_LINE - |chunk|) * 3));
    NewlinesAppend(hex, TextColumn(chunk));
    NewlinesAppend(body, "\n");
  }

  lemma {:induction false} HexColumnHasNoNewline(s: seq<byte>)
    ensures Newlines(HexColumn(s)) == 0
    decreases |s|
  {
    if s != [] {
      HexColumnHasNoNewline(s[..|s| - 1]);
      var f := HexField(s[|s| - 1]);
      assert f[0] != '\n' && f[1] != '\n' by {
        assert HexValue(f[0]).Some? && HexValue(f[1]).Some?;
      }
      NewlinesNone(f);
      NewlinesAppend(HexColumn(s[..|s| - 1]), f);
    }
  }

  /** A dump of `n` bytes prints `n / 25` rounded up lines after the header. */
  lemma {:induction false} LineCount(bytes: seq<byte>)
    ensures Newlines(Lines(bytes)) == DebugPrintBufferLines(|bytes|)
    decreases |bytes|
  {
    if bytes != [] {
      var n := if |bytes| < DEBUG_LINE then |bytes| else DEBUG_LINE;
      LineHasOneNewline(bytes[..n]);
      LineCount(bytes[n..]);
      NewlinesAppend(Line(bytes[..n]), Lines(bytes[n..]));
    }
  }

  /** Reads the hex column back: `n` three-character fields. */
  function ReadHexColumn(s: string, n: nat): Option<seq<byte>>
    requires 3 * n <= |s|
    decreases n
  {
    if n == 0 then Some([])
    else
      match ReadHexColumn(s, n - 1)
      case None => None
      case Some(prefix) =>
        var hi, lo := HexValue(s[3 * n - 3]), HexValue(s[3 * n - 2]);
        if hi.Some? && lo.Some? && hi.value * 16 + lo.value < 0x100 then Some(prefix + [hi.value * 16 + lo.value])
        else None
  }

  /** Reads a dump line back: its length tells how many bytes it shows, and
      the hex column gives them. */
  function ReadLine(line: string): Option<seq<byte>> {
    if |line| < HEX_WIDTH + 2 || |line| > HEX_WIDTH + DEBUG_LINE + 1 then None
    else ReadHexColumn(line, |line| - HEX_WIDTH - 1)
  }

  lemma {:induction false} HexColumnReadsBack(s: seq<byte>, rest: string)
    ensures ReadHexColumn(HexColumn(s) + rest, |s|) == Some(s)
    decreases |s|
  {
    if s != [] {
      var init := s[..|s| - 1];
      var f := HexField(s[|s| - 1]);
      assert HexColumn(s) + rest == HexColumn(init) + (f + rest);
      HexColumnReadsBack(init, f + rest);
      var t := HexColumn(s) + rest;
      assert t[3 * |s| - 3] == f[0] && t[3 * |s| - 2] == f[1];
      assert init + [s[|s| - 1]] == s;
    }
  }

  /** Every byte of a line can be recovered from its hex column: each line
      shows exactly its bytes, in order. */
  lemma LineReadsBack(chunk: seq<byte>)
    requires 1 <= |chunk| <= DEBUG_LINE
    ensures ReadLine(Line(chunk)) == Some(chunk)
  {
    var pad := Spaces((DEBUG_LINE - |chunk|) * 3);
    HexColumnReadsBack(chunk, pad + TextColumn(chunk) + "\n");
    Regroup(HexColumn(chunk), pad, TextColumn(chunk), "\n");
  }

  /** The bytes shown by a run of dump lines, read back line by line. */
  function ReadLines(lines: seq<string>): Option<seq<byte>>
    decreases |lines|
  {
    if lines == [] then Some([])
    else
      match ReadLine(lines[0])
      case None => None
      case Some(first) =>
        match ReadLines(lines[1..])
        case None => None
        case Some(rest) => Some(first + rest)
  }

  /** The dump lines for `bytes`, one string per line. */
  function LineList(bytes: seq<byte>): (r: seq<string>)
    ensures |r| == DebugPrintBufferLines(|bytes|)
    decreases |bytes|
  {
    if bytes == [] then []
    else
      var n := if |bytes| < DEBUG_LINE then |bytes| else DEBUG_LINE;
      [Line(bytes[..n])] + LineList(bytes[n..])
  }

  /** The lines of a list printed one after another. */
  function Join(lines: seq<string>): string
    decreases |lines|
  {
    if lines == [] then "" else lines[0] + Join(lines[1..])
  }

  /** The printed lines are the line list joined: what `Dump` prints after
      its header is exactly the lines `LineList` separates. */
  lemma {:induction false} LinesJoinLineList(bytes: seq<byte>)
    ensures Lines(bytes) == Join(LineList(bytes))
    decreases |bytes|
  {
    if bytes != [] {
      var n := if |bytes| < DEBUG_LINE then |bytes| else DEBUG_LINE;
      LinesJoinLineList(bytes[n..]);
      var l := LineList(bytes);
      assert l[0] == Line(bytes[..n]) && l[1..] == LineList(bytes[n..]);
    }
  }

  /** Every byte is shown exactly once and in order: the dump is the header
      followed by lines that read back as the bytes. */
  lemma {:induction false} DumpReadsBack(title: string, bytes: seq<byte>)
    ensures Dump(title, bytes) == Header(title, |bytes|) + Join(LineList(bytes))
    ensures ReadLines(LineList(bytes)) == Some(bytes)
  {
    LinesJoinLineList(bytes);
    LineListReadsBack(bytes);
  }

  /** Reading the line list back gives the bytes. */
  lemma {:induction false} LineListReadsBack(bytes: seq<byte>)
    ensures ReadLines(LineList(bytes)) == Some(bytes)
    decreases |bytes|
  {
    if bytes != [] {
      var n := if |bytes| < DEBUG_LINE then |bytes| else DEBUG_LINE;
      LineReadsBack(bytes[..n]);
      LineListReadsBack(bytes[n..]);
      var l := LineList(bytes);
      assert l[0] == Line(bytes[..n]) && l[1..] == LineList(bytes[n..]);
      assert bytes[..n] + bytes[n..] == bytes;
    }
  }

  // ---------------------------------------------------------------------
  // The static trampolines

  type int32 = x: int | -0x8000_0000 <= x < 0x8000_0000

  /** What a transport's read returns: a byte count (negative on error) and
      the bytes it delivered. */
  datatype ReadResult = ReadResult(status: int32, data: seq<byte>)

  /** A concrete transport's send and read. */
  datatype TransportOps = TransportOps(send: seq<byte> -> int32, read: nat -> ReadResult)

  /** The network context the MQTT library passes back; it locates the transport. */
  datatype NetworkContext = NetworkContext(transport: TransportOps)

  /** The documented result of a send asked to send `asked` bytes: the number
      of bytes sent, never more than asked, or a negative error. */
  predicate SendResultOk(r: int32, asked: nat) {
    r <= asked
  }

  /** The documented result of a read of at most `asked` bytes: the number of
      bytes delivered, never more than asked and possibly 0 because the read
      does not block, with exactly that many bytes; or a negative error with
      none. */
  predicate ReadResultOk(r: ReadResult, asked: nat) {
    && r.status <= asked
    && (r.status >= 0 ==> |r.data| == r.status)
    && (r.status < 0 ==> r.data == [])
  }

  /** A transport that keeps the documented result contract on every call. */
  ghost predicate Honours(ops: TransportOps) {
    && (forall b :: SendResultOk(ops.send(b), |b|))
    && (forall n :: ReadResultOk(ops.read(n), n))
  }

  /** `staticSend`: the context's transport sends the first `bytesToSend`
      bytes. A transport that keeps its contract makes the trampoline keep
      it: never more than `bytesToSend` bytes reported sent. */
  function StaticSend(ctx: NetworkContext, buffer: seq<byte>, bytesToSend: nat): (r: int32)
    requires bytesToSend <= |buffer|
    ensures r == ctx.transport.send(buffer[..bytesToSend])
    ensures Honours(ctx.transport) ==> SendResultOk(r, bytesToSend)
  {
    ctx.transport.send(buffer[..bytesToSend])
  }

  /** `staticRead`: the context's transport reads at most `bytesToRecv` bytes.
      A transport that keeps its contract makes the trampoline keep it: at
      most `bytesToRecv` bytes, 0 allowed, or a negative error. */
  function StaticRead(ctx: NetworkContext, bytesToRecv: nat): (r: ReadResult)
    ensures r == ctx.transport.read(bytesToRecv)
    ensures Honours(ctx.transport) ==> ReadResultOk(r, bytesToRecv)
  {
    ctx.transport.read(bytesToRecv)
  }

  /** The trampolines add nothing of their own: a send offers the transport
      only the first `bytesToSend` bytes, so what lies past them cannot affect
      the result, and two contexts holding the same transport answer alike. */
  lemma TrampolinesDelegate(c1: NetworkContext, c2: NetworkContext, b1: seq<byte>, b2: seq<byte>, n: nat)
    requires n <= |b1| && n <= |b2| && b1[..n] == b2[..n]
    requires c1.transport == c2.transport
    ensures StaticSend(c1, b1, n) == StaticSend(c2, b2, n)
    ensures StaticRead(c1, n) == StaticRead(c2, n)
  {
  }
}
