/** The text form of an ICE candidate (section 15.1 of RFC 5245): printing with `Sprintf`
    and reading back with `Sscanf`, whose scanning rules for spaces, `%s` and `%d` are
    those of Go's fmt package. */
module CandidateText {
  import opened Decimal

  type Int64 = x: int | -0x8000_0000_0000_0000 <= x < 0x8000_0000_0000_0000
  type UInt32 = x: int | 0 <= x < 0x1_0000_0000

  datatype Candidate = Candidate(
    typ: string,
    foundation: string,
    component: Int64,
    protocol: string,
    priority: UInt32,
    ip: string,
    port: Int64,
    base: string
  )

  // ---------- The scanner ----------

  /** A scan either yields a value and the rest of the input, or fails. */
  datatype Scan<+T> = Got(value: T, rest: string) | Bad {
    predicate IsFailure() { Bad? }

    function PropagateFailure<U>(): Scan<U>
      requires Bad?
    {
      Bad
    }

    function Extract(): (T, string)
      requires Got?
    {
      (value, rest)
    }
  }

  predicate IsSpace(c: char) {
    var n := c as int;
    || 0x9 <= n <= 0xD || n == 0x20 || n == 0x85 || n == 0xA0 || n == 0x1680
    || 0x2000 <= n <= 0x200A || n == 0x2028 || n == 0x2029 || n == 0x202F || n == 0x205F || n == 0x3000
  }

  /** The white space of Go's fmt, character by character. */
  lemma WhiteSpace(c: char)
    ensures IsSpace(c) <==>
      c in ['\t', '\n', '\U{0B}', '\U{0C}', '\r', ' ', '\U{85}', '\U{A0}', '\U{1680}',
            '\U{2000}', '\U{2001}', '\U{2002}', '\U{2003}', '\U{2004}', '\U{2005}', '\U{2006}', '\U{2007}',
            '\U{2008}', '\U{2009}', '\U{200A}', '\U{2028}', '\U{2029}', '\U{202F}', '\U{205F}', '\U{3000}']
  {
  }

  /** Leading space before a verb; a newline there is an error. */
  function SkipSpace(s: string): Scan<()> {
    if s == [] then Got((), s)
    else if s[0] == '\n' then Bad
    else if IsSpace(s[0]) then SkipSpace(s[1..])
    else Got((), s)
  }

  function DropBlanks(s: string): string {
    if s != [] && IsSpace(s[0]) && s[0] != '\n' then DropBlanks(s[1..]) else s
  }

  /** A space in the format: at least one space that is not a newline, or the end of the input. */
  function MatchSpace(s: string): Scan<()> {
    if s == [] then Got((), s)
    else if !IsSpace(s[0]) || s[0] == '\n' then Bad
    else Got((), DropBlanks(s))
  }

  function MatchLiteral(lit: string, s: string): Scan<()> {
    if lit <= s then Got((), s[|lit|..]) else Bad
  }

  function TokenLength(s: string): (n: nat)
    ensures n <= |s|
  {
    if s == [] || IsSpace(s[0]) then 0 else 1 + TokenLength(s[1..])
  }

  /** `%s`: skip space, then everything up to the next space; the end of the input is an error. */
  function ScanToken(s: string): Scan<string> {
    var (_, s) :- SkipSpace(s);
    if s == [] then Bad
    else var n := TokenLength(s); Got(s[..n], s[n..])
  }

  function DigitCount(s: string): (n: nat)
    ensures n <= |s| && AllDigits(s[..n])
  {
    if s == [] || !IsDigit(s[0]) then 0
    else
      var n := DigitCount(s[1..]);
      assert s[..n + 1] == [s[0]] + s[1..][..n];
      n + 1
  }

  function ScanDigits(s: string): Scan<nat> {
    var n := DigitCount(s);
    if n == 0 then Bad else Got(Value(s[..n]), s[n..])
  }

  function ToInt64(negative: bool, n: nat, rest: string): Scan<Int64> {
    var i: int := n;
    if negative then
      if i <= 0x8000_0000_0000_0000 then Got(0 - i, rest) else Bad
    else if i < 0x8000_0000_0000_0000 then Got(i, rest) else Bad
  }

  function ScanSigned(s: string): Scan<Int64> {
    var signed := s != [] && (s[0] == '-' || s[0] == '+');
    var (n, rest) :- ScanDigits(if signed then s[1..] else s);
    ToInt64(s != [] && s[0] == '-', n, rest)
  }

  /** `%d` into an `int` (64 bits): an optional sign, digits, no overflow. */
  function ScanInt(s: string): Scan<Int64> {
    var (_, s) :- SkipSpace(s);
    ScanSigned(s)
  }

  /** `%d` into a `uint32`: digits, no overflow. */
  function ScanUint32(s: string): Scan<UInt32> {
    var (_, s) :- SkipSpace(s);
    var (n, rest) :- ScanDigits(s);
    if n < 0x1_0000_0000 then Got(n, rest) else Bad
  }

  const PREFIX := "candidate:"
  const TYP := "typ"

  /** The format up to and including the protocol. */
  function ParseHead(s: string): Scan<(string, Int64, string)> {
    var (_, s) :- MatchLiteral(PREFIX, s);
    var (foundation, s) :- ScanToken(s);
    var (_, s) :- MatchSpace(s);
    var (component, s) :- ScanInt(s);
    var (_, s) :- MatchSpace(s);
    var (protocol, s) :- ScanToken(s);
    var (_, s) :- MatchSpace(s);
    Got((foundation, component, protocol), s)
  }

  /** The format from the literal on. */
  function ParseType(s: string): Scan<string> {
    var (_, s) :- MatchLiteral(TYP, s);
    var (_, s) :- MatchSpace(s);
    ScanToken(s)
  }

  /** The format from the priority on. */
  function ParseTail(s: string): Scan<(UInt32, string, Int64, string)> {
    var (priority, s) :- ScanUint32(s);
    var (_, s) :- MatchSpace(s);
    var (ip, s) :- ScanToken(s);
    var (_, s) :- MatchSpace(s);
    var (port, s) :- ScanInt(s);
    var (_, s) :- MatchSpace(s);
    var (typ, s) :- ParseType(s);
    Got((priority, ip, port, typ), s)
  }

  /** `ParseCandidate`: the format is consumed verb by verb; input after the last token is ignored. */
  function Parse(s: string): Scan<Candidate> {
    var ((foundation, component, protocol), s) :- ParseHead(s);
    var ((priority, ip, port, typ), s) :- ParseTail(s);
    Got(Candidate(typ, foundation, component, protocol, priority, ip, port, ""), s)
  }

  // ---------- The printer ----------

  function Spaced(s: string): string {
    " " + s
  }

  function AfterPort(c: Candidate): string { Spaced(TYP + Spaced(c.typ)) }
  function AfterIp(c: Candidate): string { Spaced(Print(c.port) + AfterPort(c)) }
  function AfterPriority(c: Candidate): string { Spaced(c.ip + AfterIp(c)) }
  function AfterProtocol(c: Candidate): string { Spaced(Print(c.priority) + AfterPriority(c)) }
  function AfterComponent(c: Candidate): string { Spaced(c.protocol + AfterProtocol(c)) }
  function AfterFoundation(c: Candidate): string { Spaced(Print(c.component) + AfterComponent(c)) }

  /** `Candidate.String` */
  function Text(c: Candidate): string {
    PREFIX + (c.foundation + AfterFoundation(c))
  }

  lemma Shift(p: string, q: string, r: string)
    ensures p + Spaced(q + r) == ((p + " ") + q) + r
  {
    assert p + (" " + (q + r)) == ((p + " ") + q) + r;
  }

  /** The text in the layout of the standard. */
  lemma TextLayout(c: Candidate)
    ensures Text(c) == "candidate:" + c.foundation + " " + Print(c.component) + " " + c.protocol + " " +
                       Print(c.priority) + " " + c.ip + " " + Print(c.port) + " typ " + c.typ
  {
    var p0 := "candidate:" + c.foundation;
    var p1 := p0 + " " + Print(c.component);
    var p2 := p1 + " " + c.protocol;
    var p3 := p2 + " " + Print(c.priority);
    var p4 := p3 + " " + c.ip;
    var p5 := p4 + " " + Print(c.port);
    assert Text(c) == p0 + AfterFoundation(c) by { Assoc(PREFIX, c.foundation, AfterFoundation(c)); }
    assert Text(c) == p1 + AfterComponent(c) by { Shift(p0, Print(c.component), AfterComponent(c)); }
    assert Text(c) == p2 + AfterProtocol(c) by { Shift(p1, c.protocol, AfterProtocol(c)); }
    assert Text(c) == p3 + AfterPriority(c) by { Shift(p2, Print(c.priority), AfterPriority(c)); }
    assert Text(c) == p4 + AfterIp(c) by { Shift(p3, c.ip, AfterIp(c)); }
    assert Text(c) == p5 + AfterPort(c) by { Shift(p4, Print(c.port), AfterPort(c)); }
    TypLayout(p5, c.typ);
  }

  lemma Assoc(a: string, b: string, c: string)
    ensures a + (b + c) == (a + b) + c
  {
  }

  lemma TypLayout(p: string, typ: string)
    ensures p + Spaced(TYP + Spaced(typ)) == p + " typ " + typ
  {
    assert Spaced(TYP + Spaced(typ)) == " typ " + typ;
    Assoc(p, " typ ", typ);
  }

  // ---------- Round trip ----------

  /** A string that `%s` reads back whole: not empty, no space in it. */
  predicate IsToken(s: string) {
    s != [] && forall i :: 0 <= i < |s| ==> !IsSpace(s[i])
  }

  predicate Printable(c: Candidate) {
    IsToken(c.foundation) && IsToken(c.protocol) && IsToken(c.ip) && IsToken(c.typ)
  }

  predicate EndsToken(rest: string) {
    rest == [] || IsSpace(rest[0])
  }

  lemma {:induction false} TokenLengthOf(tok: string, rest: string)
    requires forall i :: 0 <= i < |tok| ==> !IsSpace(tok[i])
    requires EndsToken(rest)
    ensures TokenLength(tok + rest) == |tok|
  {
    if tok == [] {
      assert tok + rest == rest;
    } else {
      assert (tok + rest)[1..] == tok[1..] + rest;
      TokenLengthOf(tok[1..], rest);
    }
  }

  lemma ReadToken(tok: string, rest: string)
    requires IsToken(tok) && EndsToken(rest)
    ensures ScanToken(tok + rest) == Got(tok, rest)
  {
    var s := tok + rest;
    assert s[0] == tok[0];
    assert SkipSpace(s) == Got((), s);
    TokenLengthOf(tok, rest);
    assert s[..|tok|] == tok && s[|tok|..] == rest;
  }

  lemma {:induction false} DigitCountOf(ds: string, rest: string)
    requires AllDigits(ds) && (rest == [] || !IsDigit(rest[0]))
    ensures DigitCount(ds + rest) == |ds|
  {
    if ds == [] {
      assert ds + rest == rest;
    } else {
      assert (ds + rest)[1..] == ds[1..] + rest;
      DigitCountOf(ds[1..], rest);
    }
  }

  lemma ReadDigits(n: nat, rest: string)
    requires EndsToken(rest)
    ensures ScanDigits(Digits(n) + rest) == Got(n, rest)
  {
    var s := Digits(n) + rest;
    DigitCountOf(Digits(n), rest);
    ValueOfDigits(n);
    assert s[..|Digits(n)|] == Digits(n) && s[|Digits(n)|..] == rest;
  }

  lemma SkipNothing(s: string)
    requires s != [] && !IsSpace(s[0])
    ensures SkipSpace(s) == Got((), s)
  {
  }

  lemma ReadSigned(i: Int64, rest: string)
    requires EndsToken(rest)
    ensures ScanSigned(Print(i) + rest) == Got(i, rest)
  {
    var s := Print(i) + rest;
    PrintParts(i);
    if i < 0 {
      var n: nat := 0 - i;
      assert s[0] == '-' && s[1..] == Digits(n) + rest;
      ReadDigits(n, rest);
    } else {
      assert IsDigit(s[0]);
      ReadDigits(i, rest);
    }
  }

  lemma ReadInt(i: Int64, rest: string)
    requires EndsToken(rest)
    ensures ScanInt(Print(i) + rest) == Got(i, rest)
  {
    PrintStart(i, rest);
    SkipNothing(Print(i) + rest);
    ReadSigned(i, rest);
  }

  lemma ReadUint32(n: UInt32, rest: string)
    requires EndsToken(rest)
    ensures ScanUint32(Print(n) + rest) == Got(n, rest)
  {
    PrintStart(n, rest);
    SkipNothing(Print(n) + rest);
    ReadDigits(n, rest);
  }

  lemma ReadSpace(s: string)
    requires s != [] && !IsSpace(s[0])
    ensures MatchSpace(Spaced(s)) == Got((), s)
  {
    assert Spaced(s)[1..] == s && Spaced(s)[0] == ' ';
    assert IsSpace(' ');
    assert DropBlanks(s) == s;
  }

  lemma ReadLiteral(lit: string, s: string)
    ensures MatchLiteral(lit, lit + s) == Got((), s)
  {
    assert (lit + s)[|lit|..] == s;
  }

  lemma PrintStart(i: int, rest: string)
    ensures Print(i) + rest != [] && !IsSpace((Print(i) + rest)[0])
  {
    PrintParts(i);
  }

  lemma ReadTail(c: Candidate)
    requires Printable(c)
    ensures ParseTail(Print(c.priority) + AfterPriority(c)) == Got((c.priority, c.ip, c.port, c.typ), [])
  {
    ReadUint32(c.priority, AfterPriority(c));
    ReadSpace(c.ip + AfterIp(c));
    ReadToken(c.ip, AfterIp(c));
    PrintStart(c.port, AfterPort(c));
    ReadSpace(Print(c.port) + AfterPort(c));
    ReadInt(c.port, AfterPort(c));
    ReadSpace(TYP + Spaced(c.typ));
    ReadType(c.typ);
  }

  lemma ReadType(typ: string)
    requires IsToken(typ)
    ensures ParseType(TYP + Spaced(typ)) == Got(typ, [])
  {
    ReadLiteral(TYP, Spaced(typ));
    ReadSpace(typ);
    ReadToken(typ, []);
    assert typ + [] == typ;
  }

  lemma ReadHead(c: Candidate)
    requires Printable(c)
    ensures ParseHead(Text(c)) ==
            Got((c.foundation, c.component, c.protocol), Print(c.priority) + AfterPriority(c))
  {
    ReadLiteral(PREFIX, c.foundation + AfterFoundation(c));
    ReadToken(c.foundation, AfterFoundation(c));
    PrintStart(c.component, AfterComponent(c));
    ReadSpace(Print(c.component) + AfterComponent(c));
    ReadInt(c.component, AfterComponent(c));
    ReadSpace(c.protocol + AfterProtocol(c));
    ReadToken(c.protocol, AfterProtocol(c));
    PrintStart(c.priority, AfterPriority(c));
    ReadSpace(Print(c.priority) + AfterPriority(c));
  }

  /** What `%s` reads is always a token. */
  lemma {:induction false} SkipSpaceStops(s: string)
    ensures SkipSpace(s).Got? && SkipSpace(s).rest != [] ==> !IsSpace(SkipSpace(s).rest[0])
  {
    if s != [] && s[0] != '\n' && IsSpace(s[0]) {
      SkipSpaceStops(s[1..]);
    }
  }

  lemma {:induction false} TokenHasNoSpace(s: string)
    ensures forall i :: 0 <= i < TokenLength(s) ==> !IsSpace(s[i])
  {
    if s != [] && !IsSpace(s[0]) {
      TokenHasNoSpace(s[1..]);
      assert forall i :: 0 < i < TokenLength(s) ==> s[i] == s[1..][i - 1];
    }
  }

  lemma ScannedIsToken(s: string)
    ensures ScanToken(s).Got? ==> IsToken(ScanToken(s).value)
  {
    SkipSpaceStops(s);
    if SkipSpace(s).Got? {
      TokenHasNoSpace(SkipSpace(s).rest);
    }
  }

  /** Whatever text is accepted, the candidate read has four tokens and no base. */
  lemma ParsedIsPrintable(s: string)
    ensures Parse(s).Got? ==> Printable(Parse(s).value) && Parse(s).value.base == ""
  {
    forall t
      ensures ScanToken(t).Got? ==> IsToken(ScanToken(t).value)
    {
      ScannedIsToken(t);
    }
    HeadTokens(s);
    if ParseHead(s).Got? {
      TailTokens(ParseHead(s).rest);
    }
  }

  lemma HeadTokens(s: string)
    requires forall t :: ScanToken(t).Got? ==> IsToken(ScanToken(t).value)
    ensures ParseHead(s).Got? ==> IsToken(ParseHead(s).value.0) && IsToken(ParseHead(s).value.2)
  {
  }

  lemma TailTokens(s: string)
    requires forall t :: ScanToken(t).Got? ==> IsToken(ScanToken(t).value)
    ensures ParseTail(s).Got? ==> IsToken(ParseTail(s).value.1) && IsToken(ParseTail(s).value.3)
  {
  }

  /** Text round trip, exactly: parsing the printed form returns the candidate with its base cleared
      if and only if its four string fields are non-empty and free of white space. */
  lemma RoundTrip(c: Candidate)
    ensures Parse(Text(c)) == Got(c.(base := ""), []) <==> Printable(c)
    ensures Parse(Text(c)).Got? && Parse(Text(c)).value == c.(base := "") <==> Printable(c)
  {
    if Printable(c) {
      ReadHead(c);
      ReadTail(c);
    }
    ParsedIsPrintable(Text(c));
  }

  /** Printing loses nothing but the base. */
  lemma PrintingInjective(c: Candidate, d: Candidate)
    requires Printable(c) && Printable(d) && Text(c) == Text(d)
    ensures c.(base := "") == d.(base := "")
  {
    RoundTrip(c);
    RoundTrip(d);
  }

  /** Printing what was parsed is a normal form: it parses to the same candidate. */
  lemma ParseNormalises(s: string)
    ensures Parse(s).Got? ==> Parse(Text(Parse(s).value)) == Got(Parse(s).value, [])
  {
    ParsedIsPrintable(s);
    if Parse(s).Got? {
      RoundTrip(Parse(s).value);
    }
  }
}
