/**
 Log records: bounded physical lines of printable ASCII, with quoted fields whose escaping can be undone.
 */
module LogEscaping {
  import opened Wrappers

  type bytes = seq<byte>

  const QUOTE: byte := 34
  const BACKSLASH: byte := 92
  const SPACE: byte := 32
  const DASH: byte := 45
  const LF: byte := 10
  const CR: byte := 13
  const LOWER_X: byte := 120

  predicate IsControl(b: byte) {
    b < 32 || b == 127
  }

  predicate IsAscii(b: byte) {
    b < 128
  }

  predicate Printable(b: byte) {
    IsAscii(b) && !IsControl(b)
  }

  predicate AllPrintable(s: bytes) {
    forall i | 0 <= i < |s| :: Printable(s[i])
  }

  function HexDigit(n: int): byte
    requires 0 <= n < 16
  {
    if n < 10 then 48 + n else 97 + n - 10
  }

  function Escape(b: byte): bytes {
    if b == QUOTE then [BACKSLASH, QUOTE]
    else if b == BACKSLASH then [BACKSLASH, BACKSLASH]
    else if IsControl(b) || !IsAscii(b) then [BACKSLASH, LOWER_X, HexDigit(b / 16), HexDigit(b % 16)]
    else [b]
  }

  function EscapeAll(s: bytes): bytes {
    if s == [] then [] else Escape(s[0]) + EscapeAll(s[1..])
  }

  function EscapedLength(b: byte): nat {
    if b == QUOTE || b == BACKSLASH then 2 else if IsControl(b) || !IsAscii(b) then 4 else 1
  }

  // ----- undoing it

  function HexValue(b: byte): Option<int> {
    if 48 <= b <= 57 then Some(b - 48) else if 97 <= b <= 102 then Some(b - 97 + 10) else None
  }

  /** One escaped byte at the front, and how long its escape is; None at a bare quote or a malformed escape. */
  function Unescape(t: bytes): Option<(byte, nat)> {
    if t == [] || t[0] == QUOTE then None
    else if t[0] != BACKSLASH then Some((t[0], 1))
    else if |t| < 2 then None
    else if t[1] == QUOTE || t[1] == BACKSLASH then Some((t[1], 2))
    else if |t| < 4 || t[1] != LOWER_X || HexValue(t[2]).None? || HexValue(t[3]).None? then None
    else Some((16 * HexValue(t[2]).value + HexValue(t[3]).value, 4))
  }

  /** A quoted field from after its opening quote: its bytes, and what follows its closing quote. */
  function ReadQuoted(t: bytes): Option<(bytes, bytes)>
    decreases |t|
  {
    if t == [] then None
    else if t[0] == QUOTE then Some(([], t[1..]))
    else
      match Unescape(t)
      case None => None
      case Some((b, n)) =>
        if n > |t| || n == 0 then None
        else
          match ReadQuoted(t[n..])
          case None => None
          case Some((rest, after)) => Some(([b] + rest, after))
  }

  lemma UnescapeEscape(b: byte, rest: bytes)
    ensures Unescape(Escape(b) + rest) == Some((b, |Escape(b)|))
    ensures Escape(b) != [] && Escape(b)[0] != QUOTE && |Escape(b)| == EscapedLength(b) && AllPrintable(Escape(b))
  {
    if b != QUOTE && b != BACKSLASH && (IsControl(b) || !IsAscii(b)) {
      var t := Escape(b) + rest;
      assert t[2] == HexDigit(b / 16) && t[3] == HexDigit(b % 16);
      assert HexValue(HexDigit(b / 16)) == Some(b / 16) && HexValue(HexDigit(b % 16)) == Some(b % 16);
    }
  }

  lemma ReadEscaped(b: byte, rest: bytes)
    requires ReadQuoted(rest).Some?
    ensures ReadQuoted(Escape(b) + rest) == Some(([b] + ReadQuoted(rest).value.0, ReadQuoted(rest).value.1))
  {
    hide Escape, Unescape;
    UnescapeEscape(b, rest);
    var t := Escape(b) + rest;
    assert t[0] == Escape(b)[0] && t[|Escape(b)|..] == rest;
  }

  /** Whatever the bytes, the quoted text reads back to them, up to its closing quote and not further. */
  lemma {:induction false} QuotedReadsBack(s: bytes, after: bytes)
    ensures ReadQuoted(EscapeAll(s) + [QUOTE] + after) == Some((s, after))
    decreases |s|
  {
    if s == [] {
      assert EscapeAll(s) + [QUOTE] + after == [QUOTE] + after;
      assert ([QUOTE] + after)[1..] == after;
    } else {
      hide Escape, ReadQuoted;
      var rest := EscapeAll(s[1..]) + [QUOTE] + after;
      assert EscapeAll(s) + [QUOTE] + after == Escape(s[0]) + rest by {
        assert Escape(s[0]) + EscapeAll(s[1..]) + [QUOTE] + after == Escape(s[0]) + rest;
      }
      hide EscapeAll;
      QuotedReadsBack(s[1..], after);
      ReadEscaped(s[0], rest);
      assert [s[0]] + s[1..] == s;
    }
  }

  lemma EscapeInjective(s: bytes, t: bytes)
    requires EscapeAll(s) == EscapeAll(t)
    ensures s == t
  {
    QuotedReadsBack(s, []);
    QuotedReadsBack(t, []);
  }

  function LengthOf(s: bytes): nat {
    if s == [] then 0 else EscapedLength(s[0]) + LengthOf(s[1..])
  }

  lemma EscapeFrom(s: bytes, i: nat)
    requires i < |s|
    ensures EscapeAll(s[i..]) == Escape(s[i]) + EscapeAll(s[i + 1..])
    ensures LengthOf(s[i..]) == EscapedLength(s[i]) + LengthOf(s[i + 1..])
  {
    assert s[i..][1..] == s[i + 1..];
  }

  lemma NothingToEscape()
    ensures EscapeAll([]) == [] && LengthOf([]) == 0
  {
  }

  /** The length is known before anything is written, and the text is printable. */
  lemma {:induction false} EscapedText(s: bytes)
    ensures |EscapeAll(s)| == LengthOf(s) && AllPrintable(EscapeAll(s))
  {
    if s != [] {
      UnescapeEscape(s[0], []);
      EscapedText(s[1..]);
    }
  }

  lemma {:induction false} EscapeAppend(s: bytes, t: bytes)
    ensures EscapeAll(s + t) == EscapeAll(s) + EscapeAll(t) && LengthOf(s + t) == LengthOf(s) + LengthOf(t)
  {
    if s == [] {
      assert s + t == t;
    } else {
      assert (s + t)[1..] == s[1..] + t;
      EscapeAppend(s[1..], t);
    }
  }

  /** Every quote stands right behind a backslash. */
  ghost predicate NoBareQuote(t: bytes) {
    forall i | 0 <= i < |t| && t[i] == QUOTE :: i > 0 && t[i - 1] == BACKSLASH
  }

  lemma {:induction false} EscapedHasNoBareQuote(s: bytes)
    ensures NoBareQuote(EscapeAll(s))
  {
    if s != [] {
      var e, rest := Escape(s[0]), EscapeAll(s[1..]);
      EscapedHasNoBareQuote(s[1..]);
      forall i | 0 <= i < |e + rest| && (e + rest)[i] == QUOTE ensures i > 0 && (e + rest)[i - 1] == BACKSLASH {
        if i >= |e| {
          assert rest[i - |e|] == QUOTE;
        }
      }
    }
  }

  /** A quoted field at the end of a text, behind a space, can be told from what is before it. */
  lemma QuotedSuffix(p: bytes, s: bytes, q: bytes, t: bytes)
    requires p + [SPACE, QUOTE] + EscapeAll(s) == q + [SPACE, QUOTE] + EscapeAll(t)
    ensures p == q && s == t
  {
    EscapedHasNoBareQuote(s);
    EscapedHasNoBareQuote(t);
    if |p| < |q| {
      ShorterPrefix(p, EscapeAll(s), q, EscapeAll(t));
    } else if |q| < |p| {
      ShorterPrefix(q, EscapeAll(t), p, EscapeAll(s));
    } else {
      var x, y := p + [SPACE, QUOTE] + EscapeAll(s), q + [SPACE, QUOTE] + EscapeAll(t);
      assert x[..|p|] == p && y[..|p|] == q;
      assert x[|p| + 2..] == EscapeAll(s) && y[|p| + 2..] == EscapeAll(t);
      EscapeInjective(s, t);
    }
  }

  lemma ShorterPrefix(p: bytes, e: bytes, q: bytes, f: bytes)
    requires NoBareQuote(e) && |p| < |q|
    ensures p + [SPACE, QUOTE] + e != q + [SPACE, QUOTE] + f
  {
    var x, y := p + [SPACE, QUOTE] + e, q + [SPACE, QUOTE] + f;
    if |x| == |y| {
      var i, j := |q| + 1, |q| - |p| - 1;
      assert y[i] == QUOTE && y[i - 1] == SPACE;
      assert x[i] == e[j];
      assert e[j] == QUOTE ==> j > 0 && x[i - 1] == e[j - 1] == BACKSLASH;
    }
  }
}

/** Records are built piece by piece; each piece is checked or escaped, and must fit. */
module LogRecords {
  import opened Wrappers
  import opened LogEscaping

  const MAX_RECORD_LEN := 64 * 1024

  datatype FormatError = NestedQuoted | CarriageReturn | LineFeed | InvalidByte(b: byte) | UnsupportedHttpVersion | TooLong

  type Built = Result<bytes, FormatError>

  /** One more byte, the line feed, must always find room. */
  predicate Fits(current: bytes, additional: nat) {
    |current| + additional < MAX_RECORD_LEN
  }

  /** Why a byte cannot stand in plain text. */
  function Refused(b: byte): Option<FormatError> {
    if b == CR then Some(CarriageReturn) else if b == LF then Some(LineFeed) else if !Printable(b) then Some(InvalidByte(b)) else None
  }

  function FirstRefused(value: bytes): (r: Option<FormatError>)
    ensures r.None? <==> AllPrintable(value)
  {
    if value == [] then None else if Refused(value[0]).Some? then Refused(value[0]) else FirstRefused(value[1..])
  }

  function Plain(current: bytes, value: bytes): Built {
    if FirstRefused(value).Some? then Err(FirstRefused(value).value)
    else if Fits(current, |value|) then Ok(current + value) else Err(TooLong)
  }

  function Escaped(current: bytes, value: bytes): Built {
    if Fits(current, LengthOf(value)) then Ok(current + EscapeAll(value)) else Err(TooLong)
  }

  function Delimited(current: bytes): Built {
    if Fits(current, 1) then Ok(current + [QUOTE]) else Err(TooLong)
  }

  class RecordBuilder {
    var content: bytes

    constructor ()
      ensures content == []
    {
      content := [];
    }

    method EnsureFits(additional: nat) returns (r: Result<(), FormatError>)
      ensures r == if Fits(content, additional) then Ok(()) else Err(TooLong)
    {
      if |content| + additional >= MAX_RECORD_LEN {
        return Err(TooLong);
      }
      return Ok(());
    }

    method AppendPlain(value: bytes) returns (r: Result<(), FormatError>)
      modifies this
      ensures match Plain(old(content), value)
              case Ok(longer) => r.Ok? && content == longer
              case Err(error) => r == Err(error) && content == old(content)
    {
      var i := 0;
      while i < |value|
        invariant i <= |value| && FirstRefused(value[i..]) == FirstRefused(value)
      {
        assert value[i..][1..] == value[i + 1..];
        if value[i] == CR {
          return Err(CarriageReturn);
        }
        if value[i] == LF {
          return Err(LineFeed);
        }
        if !Printable(value[i]) {
          return Err(InvalidByte(value[i]));
        }
        i := i + 1;
      }
      r := EnsureFits(|value|);
      if r.Ok? {
        content := content + value;
      }
    }

    /** The length is added up first, so that nothing is written unless all of it fits. */
    method AppendQuoted(value: bytes) returns (r: Result<(), FormatError>)
      modifies this
      ensures match Escaped(old(content), value)
              case Ok(longer) => r.Ok? && content == longer
              case Err(error) => r == Err(error) && content == old(content)
    {
      hide EscapeAll, LengthOf;
      var additional, i := 0, 0;
      NothingToEscape();
      assert value[0..] == value;
      while i < |value|
        invariant i <= |value| && content == old(content) && additional >= 0 && additional + LengthOf(value[i..]) == LengthOf(value)
      {
        EscapeFrom(value, i);
        additional := additional + EscapedLength(value[i]);
        i := i + 1;
      }
      assert value[i..] == [];
      r := EnsureFits(additional);
      if r.Err? {
        return;
      }
      i := 0;
      while i < |value|
        invariant i <= |value| && content + EscapeAll(value[i..]) == old(content) + EscapeAll(value)
      {
        EscapeFrom(value, i);
        AppendEscaped(value[i]);
        i := i + 1;
      }
      assert value[i..] == [];
    }

    /** One byte, as it stands in quoted text. */
    method AppendEscaped(b: byte)
      modifies this
      ensures content == old(content) + Escape(b)
    {
      if b == QUOTE {
        content := content + [BACKSLASH, QUOTE];
      } else if b == BACKSLASH {
        content := content + [BACKSLASH, BACKSLASH];
      } else if IsControl(b) || !IsAscii(b) {
        content := content + [BACKSLASH, LOWER_X];
        content := content + [HexDigit(b / 16)] + [HexDigit(b % 16)];
      } else {
        content := content + [b];
      }
    }

    method AppendQuoteDelimiter() returns (r: Result<(), FormatError>)
      modifies this
      ensures match Delimited(old(content))
              case Ok(longer) => r.Ok? && content == longer
              case Err(error) => r == Err(error) && content == old(content)
    {
      r := EnsureFits(1);
      if r.Ok? {
        content := content + [QUOTE];
      }
    }

    method Finish() returns (r: Built)
      modifies this
      ensures r == if Fits(old(content), 0) then Ok(old(content) + [LF]) else Err(TooLong)
    {
      var fits := EnsureFits(0);
      if fits.Err? {
        return Err(fits.error);
      }
      content := content + [LF];
      return Ok(content);
    }
  }

  // ----- elements

  /** What formatting an element writes: bytes for the mode it is in, a quoted element, two in a row, or a refusal. */
  datatype Element = Raw(value: bytes) | Refusal(error: FormatError) | Quoted(inner: Element) | Both(first: Element, second: Element)

  /** The record after an element, in plain or in quoted mode. */
  function Rendered(current: bytes, e: Element, quoted: bool): Built
    decreases e
  {
    match e
    case Raw(value) => if quoted then Escaped(current, value) else Plain(current, value)
    case Refusal(error) => Err(error)
    case Quoted(inner) =>
      if quoted then Err(NestedQuoted)
      else if Delimited(current).Err? then Delimited(current)
      else
        var written := Rendered(Delimited(current).value, inner, true);
        if written.Err? then written else Delimited(written.value)
    case Both(first, second) =>
      var longer := Rendered(current, first, quoted);
      if longer.Err? then longer else Rendered(longer.value, second, quoted)
  }

  /** Elements write through a restricted writer with a presentation mode. */
  class ElementWriter {
    const builder: RecordBuilder
    const quoted: bool

    constructor (builder: RecordBuilder, quoted: bool)
      ensures this.builder == builder && this.quoted == quoted
    {
      this.builder, this.quoted := builder, quoted;
    }

    method Write(e: Element) returns (r: Result<(), FormatError>)
      modifies builder
      ensures match Rendered(old(builder.content), e, quoted)
              case Ok(longer) => r.Ok? && builder.content == longer
              case Err(error) => r == Err(error)
      decreases e
    {
      match e
      case Raw(value) =>
        if quoted {
          r := builder.AppendQuoted(value);
        } else {
          r := builder.AppendPlain(value);
        }
      case Refusal(error) => r := Err(error);
      case Quoted(inner) =>
        if quoted {
          return Err(NestedQuoted);
        }
        r := builder.AppendQuoteDelimiter();
        if r.Err? {
          return;
        }
        var writer := new ElementWriter(builder, true);
        r := writer.Write(inner);
        if r.Err? {
          return;
        }
        r := builder.AppendQuoteDelimiter();
      case Both(first, second) =>
        r := Write(first);
        if r.Err? {
          return;
        }
        r := Write(second);
    }
  }

  // ----- what is written, without the checks

  function Output(e: Element, quoted: bool): bytes
    decreases e
  {
    match e
    case Raw(value) => if quoted then EscapeAll(value) else value
    case Refusal(_) => []
    case Quoted(inner) => [QUOTE] + Output(inner, true) + [QUOTE]
    case Both(first, second) => Output(first, quoted) + Output(second, quoted)
  }

  predicate Sound(e: Element, quoted: bool)
    decreases e
  {
    match e
    case Raw(value) => quoted || AllPrintable(value)
    case Refusal(_) => false
    case Quoted(inner) => !quoted && Sound(inner, true)
    case Both(first, second) => Sound(first, quoted) && Sound(second, quoted)
  }

  /** An element is written exactly when all of it is sound and fits, and then it is its output that is written. */
  lemma {:induction false} RenderedExactly(current: bytes, e: Element, quoted: bool)
    requires Fits(current, 0)
    ensures Rendered(current, e, quoted).Ok? <==> Sound(e, quoted) && Fits(current, |Output(e, quoted)|)
    ensures Rendered(current, e, quoted).Ok? ==> Rendered(current, e, quoted).value == current + Output(e, quoted)
    decreases e
  {
    hide Escaped, Plain, EscapeAll;
    match e
    case Raw(value) => RawRendered(current, value, quoted);
    case Refusal(_) =>
    case Quoted(inner) =>
      if Fits(current, 1) {
        RenderedExactly(current + [QUOTE], inner, true);
      }
      assert current + [QUOTE] + Output(inner, true) + [QUOTE] == current + Output(e, false);
    case Both(first, second) =>
      RenderedExactly(current, first, quoted);
      if Rendered(current, first, quoted).Ok? {
        RenderedExactly(current + Output(first, quoted), second, quoted);
        assert current + Output(first, quoted) + Output(second, quoted) == current + Output(e, quoted);
      }
  }

  lemma RawRendered(current: bytes, value: bytes, quoted: bool)
    ensures Rendered(current, Raw(value), quoted).Ok? <==>
            Sound(Raw(value), quoted) && Fits(current, |Output(Raw(value), quoted)|)
    ensures Rendered(current, Raw(value), quoted).Ok? ==>
            Rendered(current, Raw(value), quoted).value == current + Output(Raw(value), quoted)
  {
    EscapedText(value);
  }

  lemma {:induction false} OutputPrintable(e: Element, quoted: bool)
    requires Sound(e, quoted)
    ensures AllPrintable(Output(e, quoted))
    decreases e
  {
    match e
    case Raw(value) => EscapedText(value);
    case Quoted(inner) => OutputPrintable(inner, true);
    case Both(first, second) => OutputPrintable(first, quoted); OutputPrintable(second, quoted);
  }

  /** A whole record of one element. */
  function RecordOf(e: Element): Built {
    match Rendered([], e, false)
    case Err(error) => Err(error)
    case Ok(content) => if Fits(content, 0) then Ok(content + [LF]) else Err(TooLong)
  }

  /** A physical record: printable ASCII, one line feed at its end, and at most 65536 bytes. */
  ghost predicate Physical(line: bytes) {
    && 1 <= |line| <= 65536 && line[|line| - 1] == LF
    && forall i | 0 <= i < |line| - 1 :: 32 <= line[i] <= 126
  }

  lemma RecordsArePhysical(e: Element)
    ensures RecordOf(e).Ok? <==> Sound(e, false) && |Output(e, false)| < 65536
    ensures RecordOf(e).Ok? ==> Physical(RecordOf(e).value) && RecordOf(e).value == Output(e, false) + [LF]
  {
    RenderedExactly([], e, false);
    assert [] + Output(e, false) == Output(e, false);
    if Sound(e, false) {
      OutputPrintable(e, false);
    }
  }
}

/** Access lines: `client - - [time] "METHOD target VERSION" status bytes "referer" "user agent"`. */
module AccessLines {
  import opened Wrappers
  import opened LogEscaping
  import opened LogRecords

  datatype Version = Http09 | Http10 | Http11 | Http2 | Http3 | OtherVersion

  /** `time` is the timestamp as formatted; an address that is not known, or no identity, is a client of None. */
  datatype AccessRecord = AccessRecord(
    time: bytes, client: Option<bytes>, verb: bytes, target: Option<bytes>, version: Version, status: nat, body: nat,
    referer: Option<bytes>, userAgent: Option<bytes>)

  datatype Client = Address | Identity(name: Option<bytes>)

  function VersionText(v: Version): Option<bytes> {
    match v
    case Http09 => Some([72, 84, 84, 80, 47, 48, 46, 57])
    case Http10 => Some([72, 84, 84, 80, 47, 49, 46, 48])
    case Http11 => Some([72, 84, 84, 80, 47, 49, 46, 49])
    case Http2 => Some([72, 84, 84, 80, 47, 50])
    case Http3 => Some([72, 84, 84, 80, 47, 51])
    case OtherVersion => None
  }

  function Decimal(n: nat): bytes {
    if n < 10 then [48 + n] else Decimal(n / 10) + [48 + n % 10]
  }

  /** What is missing is written like a single dash. */
  function Text(value: Option<bytes>): bytes {
    if value.Some? then value.value else [DASH]
  }

  function ClientText(r: AccessRecord, client: Client): bytes {
    if client.Address? then Text(r.client) else Text(client.name)
  }

  function VersionElement(v: Version): Element {
    if VersionText(v).Some? then Raw(VersionText(v).value) else Refusal(UnsupportedHttpVersion)
  }

  function RequestLine(r: AccessRecord): Element {
    Both(Both(Both(Both(Raw(r.verb), Raw([SPACE])), Raw(Text(r.target))), Raw([SPACE])), VersionElement(r.version))
  }

  function Words(e: Element, next: Element): Element {
    Both(Both(e, Raw([SPACE])), next)
  }

  function Head(r: AccessRecord, client: Client): Element {
    Words(Words(Words(Raw(ClientText(r, client)), Raw([DASH])), Raw([DASH])), Raw(r.time))
  }

  function Counted(r: AccessRecord, client: Client): Element {
    Words(Words(Words(Head(r, client), Quoted(RequestLine(r))), Raw(Decimal(r.status))), Raw(Decimal(r.body)))
  }

  function Line(r: AccessRecord, client: Client): Element {
    Words(Words(Counted(r, client), Quoted(Raw(Text(r.referer)))), Quoted(Raw(Text(r.userAgent))))
  }

  /** Where a builder has got to, unless a piece was refused. */
  function Now(r: Result<(), FormatError>, builder: RecordBuilder): Built
    reads builder
  {
    if r.Ok? then Ok(builder.content) else Err(r.error)
  }

  /** The next piece, behind a space, unless an earlier one was refused. */
  method Next(builder: RecordBuilder, r: Result<(), FormatError>, ghost line: Element, e: Element)
    returns (next: Result<(), FormatError>)
    requires Now(r, builder) == Rendered([], line, false)
    modifies builder
    ensures Now(next, builder) == Rendered([], Words(line, e), false)
  {
    if r.Err? {
      return r;
    }
    assert Rendered([], Both(line, Raw([SPACE])), false) == Plain(builder.content, [SPACE]);
    var separator := builder.AppendPlain([SPACE]);
    assert Now(separator, builder) == Rendered([], Both(line, Raw([SPACE])), false);
    if separator.Err? {
      return separator;
    }
    var writer := new ElementWriter(builder, false);
    next := writer.Write(e);
  }

  method FormatWithClient(record: AccessRecord, client: Client) returns (line: Built)
    ensures line == RecordOf(Line(record, client))
  {
    hide Rendered, RequestLine, Words, Decimal;
    var builder := new RecordBuilder();
    var writer := new ElementWriter(builder, false);
    var c := Raw(ClientText(record, client));
    var r := writer.Write(c);
    r := Next(builder, r, c, Raw([DASH]));
    r := Next(builder, r, Words(c, Raw([DASH])), Raw([DASH]));
    r := Next(builder, r, Words(Words(c, Raw([DASH])), Raw([DASH])), Raw(record.time));
    ghost var h := Head(record, client);
    r := Next(builder, r, h, Quoted(RequestLine(record)));
    r := Next(builder, r, Words(h, Quoted(RequestLine(record))), Raw(Decimal(record.status)));
    r := Next(builder, r, Words(Words(h, Quoted(RequestLine(record))), Raw(Decimal(record.status))), Raw(Decimal(record.body)));
    ghost var counted := Counted(record, client);
    r := Next(builder, r, counted, Quoted(Raw(Text(record.referer))));
    r := Next(builder, r, Words(counted, Quoted(Raw(Text(record.referer)))), Quoted(Raw(Text(record.userAgent))));
    if r.Err? {
      return Err(r.error);
    }
    line := builder.Finish();
  }

  // ----- reading a line from its end

  predicate NoSpace(s: bytes) {
    forall i | 0 <= i < |s| :: s[i] != SPACE
  }

  lemma LongerWord(p: bytes, u: bytes, q: bytes, v: bytes)
    requires NoSpace(u) && |p| < |q|
    ensures p + [SPACE] + u != q + [SPACE] + v
  {
    var x, y := p + [SPACE] + u, q + [SPACE] + v;
    if |x| == |y| {
      assert y[|q|] == SPACE;
      assert x[|q|] == u[|q| - |p| - 1];
    }
  }

  /** The last word of a text is its own. */
  lemma LastWord(p: bytes, u: bytes, q: bytes, v: bytes)
    requires p + [SPACE] + u == q + [SPACE] + v && NoSpace(u) && NoSpace(v)
    ensures p == q && u == v
  {
    if |p| < |q| {
      LongerWord(p, u, q, v);
    } else if |q| < |p| {
      LongerWord(q, v, p, u);
    } else {
      var x, y := p + [SPACE] + u, q + [SPACE] + v;
      assert x[..|p|] == p && y[..|p|] == q && x[|p| + 1..] == u && y[|p| + 1..] == v;
    }
  }

  lemma ShorterWord(u: bytes, p: bytes, v: bytes, q: bytes)
    requires NoSpace(v) && |u| < |v|
    ensures u + [SPACE] + p != v + [SPACE] + q
  {
    var x, y := u + [SPACE] + p, v + [SPACE] + q;
    if |x| == |y| {
      assert x[|u|] == SPACE;
      assert y[|u|] == v[|u|];
    }
  }

  lemma FirstWord(u: bytes, p: bytes, v: bytes, q: bytes)
    requires u + [SPACE] + p == v + [SPACE] + q && NoSpace(u) && NoSpace(v)
    ensures u == v && p == q
  {
    if |u| < |v| {
      ShorterWord(u, p, v, q);
    } else if |v| < |u| {
      ShorterWord(v, q, u, p);
    } else {
      var x, y := u + [SPACE] + p, v + [SPACE] + q;
      assert x[..|u|] == u && y[..|v|] == v && x[|u| + 1..] == p && y[|v| + 1..] == q;
    }
  }

  lemma {:induction false} DecimalDigits(n: nat)
    ensures Decimal(n) != [] && forall i | 0 <= i < |Decimal(n)| :: 48 <= Decimal(n)[i] <= 57
  {
    if n >= 10 {
      DecimalDigits(n / 10);
    }
  }

  lemma {:induction false} DecimalInjective(m: nat, n: nat)
    requires Decimal(m) == Decimal(n)
    ensures m == n
  {
    DecimalDigits(m / 10);
    DecimalDigits(n / 10);
    var d, e := Decimal(m), Decimal(n);
    assert d[|d| - 1] == 48 + m % 10 && e[|e| - 1] == 48 + n % 10;
    if m >= 10 && n >= 10 {
      assert d[..|d| - 1] == Decimal(m / 10) && e[..|e| - 1] == Decimal(n / 10);
      DecimalInjective(m / 10, n / 10);
    }
  }

  /** All but the last byte. */
  function AllButLast(line: bytes): bytes {
    if line == [] then [] else line[..|line| - 1]
  }

  lemma Unquoted(p: bytes, e: bytes)
    ensures AllButLast(p + [SPACE] + ([QUOTE] + e + [QUOTE])) == p + [SPACE, QUOTE] + e
  {
  }

  lemma SuffixQuoted(p: bytes, s: bytes, q: bytes, t: bytes)
    requires p + [SPACE] + ([QUOTE] + EscapeAll(s) + [QUOTE]) == q + [SPACE] + ([QUOTE] + EscapeAll(t) + [QUOTE])
    ensures p == q && s == t
  {
    hide EscapeAll, AllButLast;
    Unquoted(p, EscapeAll(s));
    Unquoted(q, EscapeAll(t));
    QuotedSuffix(p, s, q, t);
  }

  lemma SuffixNumber(p: bytes, m: nat, q: bytes, n: nat)
    requires p + [SPACE] + Decimal(m) == q + [SPACE] + Decimal(n)
    ensures p == q && m == n
  {
    DecimalDigits(m);
    DecimalDigits(n);
    LastWord(p, Decimal(m), q, Decimal(n));
    DecimalInjective(m, n);
  }

  /** The text of the request line before it is escaped. */
  function RequestText(r: AccessRecord): bytes {
    r.verb + [SPACE] + Text(r.target) + [SPACE] + Text(VersionText(r.version))
  }

  lemma RequestOutput(r: AccessRecord)
    requires VersionText(r.version).Some?
    ensures Output(RequestLine(r), true) == EscapeAll(RequestText(r))
  {
    hide EscapeAll, VersionText;
    var m, t, v := r.verb, Text(r.target), VersionText(r.version).value;
    assert RequestText(r) == m + [SPACE] + t + [SPACE] + v;
    EscapeAppend(m, [SPACE]);
    EscapeAppend(m + [SPACE], t);
    EscapeAppend(m + [SPACE] + t, [SPACE]);
    EscapeAppend(m + [SPACE] + t + [SPACE], v);
    var e1 := Both(Raw(m), Raw([SPACE]));
    var e2 := Both(e1, Raw(t));
    var e3 := Both(e2, Raw([SPACE]));
    assert Output(e1, true) == EscapeAll(m) + EscapeAll([SPACE]);
    assert Output(e2, true) == Output(e1, true) + EscapeAll(t);
    assert Output(e3, true) == Output(e2, true) + EscapeAll([SPACE]);
    assert Output(Both(e3, Raw(v)), true) == Output(e3, true) + EscapeAll(v);
    assert RequestLine(r) == Both(e3, Raw(v));
  }

  lemma RequestSound(r: AccessRecord)
    ensures Sound(Quoted(RequestLine(r)), false) <==> VersionText(r.version).Some?
  {
    var m, sp, t, v := Raw(r.verb), Raw([SPACE]), Raw(Text(r.target)), VersionElement(r.version);
    assert Sound(m, true) && Sound(sp, true) && Sound(t, true);
    SoundBoth(m, sp);
    SoundBoth(Both(m, sp), t);
    SoundBoth(Both(Both(m, sp), t), sp);
    SoundBoth(Both(Both(Both(m, sp), t), sp), v);
    assert Sound(v, true) <==> VersionText(r.version).Some?;
  }

  lemma SoundBoth(first: Element, second: Element)
    ensures Sound(Both(first, second), true) <==> Sound(first, true) && Sound(second, true)
  {
  }

  lemma WordsOutput(e: Element, next: Element)
    ensures Output(Words(e, next), false) == Output(e, false) + [SPACE] + Output(next, false)
  {
    assert Output(Both(e, Raw([SPACE])), false) == Output(e, false) + Output(Raw([SPACE]), false);
  }

  /** The fields behind the client and the time. */
  lemma FieldsDetermined(r: AccessRecord, client: Client, s: AccessRecord, other: Client)
    requires VersionText(r.version).Some? && VersionText(s.version).Some?
    requires Output(Line(r, client), false) == Output(Line(s, other), false)
    ensures Text(r.userAgent) == Text(s.userAgent) && Text(r.referer) == Text(s.referer)
    ensures r.body == s.body && r.status == s.status && RequestText(r) == RequestText(s)
    ensures Output(Head(r, client), false) == Output(Head(s, other), false)
  {
    hide Words, Head, EscapeAll, Decimal, RequestText, RequestLine;
    var a, b := Counted(r, client), Counted(s, other);
    var ar, br := Words(a, Quoted(Raw(Text(r.referer)))), Words(b, Quoted(Raw(Text(s.referer))));
    WordsOutput(ar, Quoted(Raw(Text(r.userAgent))));
    WordsOutput(br, Quoted(Raw(Text(s.userAgent))));
    SuffixQuoted(Output(ar, false), Text(r.userAgent), Output(br, false), Text(s.userAgent));
    WordsOutput(a, Quoted(Raw(Text(r.referer))));
    WordsOutput(b, Quoted(Raw(Text(s.referer))));
    SuffixQuoted(Output(a, false), Text(r.referer), Output(b, false), Text(s.referer));
    CountsDetermined(r, client, s, other);
  }

  lemma CountsDetermined(r: AccessRecord, client: Client, s: AccessRecord, other: Client)
    requires VersionText(r.version).Some? && VersionText(s.version).Some?
    requires Output(Counted(r, client), false) == Output(Counted(s, other), false)
    ensures r.body == s.body && r.status == s.status && RequestText(r) == RequestText(s)
    ensures Output(Head(r, client), false) == Output(Head(s, other), false)
  {
    hide Words, Head, EscapeAll, Decimal, RequestText, RequestLine;
    var h, k := Head(r, client), Head(s, other);
    var hq, kq := Words(h, Quoted(RequestLine(r))), Words(k, Quoted(RequestLine(s)));
    var hs, ks := Words(hq, Raw(Decimal(r.status))), Words(kq, Raw(Decimal(s.status)));
    WordsOutput(hs, Raw(Decimal(r.body)));
    WordsOutput(ks, Raw(Decimal(s.body)));
    SuffixNumber(Output(hs, false), r.body, Output(ks, false), s.body);
    WordsOutput(hq, Raw(Decimal(r.status)));
    WordsOutput(kq, Raw(Decimal(s.status)));
    SuffixNumber(Output(hq, false), r.status, Output(kq, false), s.status);
    WordsOutput(h, Quoted(RequestLine(r)));
    WordsOutput(k, Quoted(RequestLine(s)));
    RequestOutput(r);
    RequestOutput(s);
    SuffixQuoted(Output(h, false), RequestText(r), Output(k, false), RequestText(s));
  }

  lemma SupportedWhenFormatted(r: AccessRecord, client: Client)
    requires RecordOf(Line(r, client)).Ok?
    ensures VersionText(r.version).Some?
  {
    RecordsArePhysical(Line(r, client));
    SoundLine(r, client);
  }

  /** What a line needs: plain client and time, and a version with a name. */
  lemma SoundLine(r: AccessRecord, client: Client)
    ensures Sound(Line(r, client), false) <==>
            AllPrintable(ClientText(r, client)) && AllPrintable(r.time) && VersionText(r.version).Some?
  {
    hide Decimal;
    WordsSound(Words(Counted(r, client), Quoted(Raw(Text(r.referer)))), Quoted(Raw(Text(r.userAgent))));
    WordsSound(Counted(r, client), Quoted(Raw(Text(r.referer))));
    var hq := Words(Head(r, client), Quoted(RequestLine(r)));
    WordsSound(Words(hq, Raw(Decimal(r.status))), Raw(Decimal(r.body)));
    WordsSound(hq, Raw(Decimal(r.status)));
    WordsSound(Head(r, client), Quoted(RequestLine(r)));
    DecimalDigits(r.status);
    DecimalDigits(r.body);
    RequestSound(r);
    HeadSound(r, client);
    hide Head, Words, RequestLine;
  }

  lemma WordsSound(e: Element, next: Element)
    ensures Sound(Words(e, next), false) <==> Sound(e, false) && Sound(next, false)
  {
    assert Sound(Raw([SPACE]), false);
  }

  lemma HeadSound(r: AccessRecord, client: Client)
    ensures Sound(Head(r, client), false) <==> AllPrintable(ClientText(r, client)) && AllPrintable(r.time)
  {
    var c := Raw(ClientText(r, client));
    WordsSound(c, Raw([DASH]));
    WordsSound(Words(c, Raw([DASH])), Raw([DASH]));
    WordsSound(Words(Words(c, Raw([DASH])), Raw([DASH])), Raw(r.time));
    hide Words;
  }

  /**
   A line is formatted exactly when client and time are plain, the version has a name, and it fits; then it is a physical
   record.
   */
  lemma FormattedExactly(r: AccessRecord, client: Client)
    ensures RecordOf(Line(r, client)).Ok? <==>
            AllPrintable(ClientText(r, client)) && AllPrintable(r.time) && VersionText(r.version).Some?
            && |Output(Line(r, client), false)| < 65536
    ensures RecordOf(Line(r, client)).Ok? ==> Physical(RecordOf(Line(r, client)).value)
  {
    RecordsArePhysical(Line(r, client));
    SoundLine(r, client);
    hide Line, RecordOf;
  }

  /**
   A line determines method, target, version, status, byte count, referer and user agent, whatever client and time are,
   up to what is missing being the same as "-". Methods are tokens, without spaces.
   */
  lemma LineDeterminesFields(r: AccessRecord, client: Client, s: AccessRecord, other: Client)
    requires RecordOf(Line(r, client)).Ok? && RecordOf(Line(r, client)) == RecordOf(Line(s, other))
    requires NoSpace(r.verb) && NoSpace(s.verb)
    ensures r.verb == s.verb && Text(r.target) == Text(s.target) && r.version == s.version
    ensures r.status == s.status && r.body == s.body
    ensures Text(r.referer) == Text(s.referer) && Text(r.userAgent) == Text(s.userAgent)
    ensures NoSpace(ClientText(r, client)) && NoSpace(ClientText(s, other)) ==>
              ClientText(r, client) == ClientText(s, other) && r.time == s.time
  {
    SupportedWhenFormatted(r, client);
    SupportedWhenFormatted(s, other);
    SameOutput(r, client, s, other);
    FieldsDetermined(r, client, s, other);
    RequestWords(r, s);
    if NoSpace(ClientText(r, client)) && NoSpace(ClientText(s, other)) {
      HeadWords(r, client, s, other);
    }
    hide Line, Head, RecordOf;
  }

  lemma SameOutput(r: AccessRecord, client: Client, s: AccessRecord, other: Client)
    requires RecordOf(Line(r, client)).Ok? && RecordOf(Line(r, client)) == RecordOf(Line(s, other))
    ensures Output(Line(r, client), false) == Output(Line(s, other), false)
  {
    hide Line, RecordOf;
    RecordsArePhysical(Line(r, client));
    RecordsArePhysical(Line(s, other));
    assert AllButLast(Output(Line(r, client), false) + [LF]) == Output(Line(r, client), false);
    assert AllButLast(Output(Line(s, other), false) + [LF]) == Output(Line(s, other), false);
  }

  lemma RequestWords(r: AccessRecord, s: AccessRecord)
    requires RequestText(r) == RequestText(s) && NoSpace(r.verb) && NoSpace(s.verb)
    requires VersionText(r.version).Some? && VersionText(s.version).Some?
    ensures r.verb == s.verb && Text(r.target) == Text(s.target) && r.version == s.version
  {
    var v, w := VersionText(r.version).value, VersionText(s.version).value;
    LastWord(r.verb + [SPACE] + Text(r.target), v, s.verb + [SPACE] + Text(s.target), w);
    FirstWord(r.verb, Text(r.target), s.verb, Text(s.target));
    assert v[|v| - 1] == w[|w| - 1] && |v| == |w| && v[5] == w[5];
  }

  lemma HeadWords(r: AccessRecord, client: Client, s: AccessRecord, other: Client)
    requires Output(Head(r, client), false) == Output(Head(s, other), false)
    requires NoSpace(ClientText(r, client)) && NoSpace(ClientText(s, other))
    ensures ClientText(r, client) == ClientText(s, other) && r.time == s.time
  {
    HeadOutput(r, client);
    HeadOutput(s, other);
    FirstWord(ClientText(r, client), [DASH, SPACE, DASH, SPACE] + r.time, ClientText(s, other), [DASH, SPACE, DASH, SPACE] + s.time);
    assert ([DASH, SPACE, DASH, SPACE] + r.time)[4..] == r.time;
    assert ([DASH, SPACE, DASH, SPACE] + s.time)[4..] == s.time;
  }

  lemma HeadOutput(r: AccessRecord, client: Client)
    ensures Output(Head(r, client), false) == ClientText(r, client) + [SPACE] + ([DASH, SPACE, DASH, SPACE] + r.time)
  {
    var c := Raw(ClientText(r, client));
    WordsOutput(c, Raw([DASH]));
    WordsOutput(Words(c, Raw([DASH])), Raw([DASH]));
    WordsOutput(Words(Words(c, Raw([DASH])), Raw([DASH])), Raw(r.time));
    hide Words;
  }

  /** "Missing" and a dash are the one thing a line does not tell apart. */
  lemma MissingLooksLikeADash(r: AccessRecord, client: Client)
    ensures RecordOf(Line(r.(referer := None), client)) == RecordOf(Line(r.(referer := Some([DASH])), client))
    ensures RecordOf(Line(r.(userAgent := None), client)) == RecordOf(Line(r.(userAgent := Some([DASH])), client))
    ensures RecordOf(Line(r.(target := None), client)) == RecordOf(Line(r.(target := Some([DASH])), client))
    ensures RecordOf(Line(r.(client := None), client)) == RecordOf(Line(r.(client := Some([DASH])), client))
    ensures RecordOf(Line(r, Identity(None))) == RecordOf(Line(r, Identity(Some([DASH]))))
  {
    hide RecordOf;
    SameTexts(r.(referer := None), client, r.(referer := Some([DASH])), client);
    SameTexts(r.(userAgent := None), client, r.(userAgent := Some([DASH])), client);
    SameTexts(r.(target := None), client, r.(target := Some([DASH])), client);
    SameTexts(r.(client := None), client, r.(client := Some([DASH])), client);
    SameTexts(r, Identity(None), r, Identity(Some([DASH])));
  }

  /** A line depends on its record through the texts of the fields alone. */
  lemma SameTexts(r: AccessRecord, client: Client, s: AccessRecord, other: Client)
    requires ClientText(r, client) == ClientText(s, other) && r.time == s.time && r.verb == s.verb
    requires Text(r.target) == Text(s.target) && r.version == s.version && r.status == s.status && r.body == s.body
    requires Text(r.referer) == Text(s.referer) && Text(r.userAgent) == Text(s.userAgent)
    ensures Line(r, client) == Line(s, other)
  {
    hide ClientText, Text, Decimal, VersionElement;
  }
}
