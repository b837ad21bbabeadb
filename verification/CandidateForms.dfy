/** The language that `ParseCandidate` accepts, described by its texts and not by the scanner. */
module CandidateForms {
  import opened Decimal
  import opened CandidateText

  /** The parts of an accepted text, in order, with the spaces between them. */
  datatype Form = Form(
    lead: string, foundation: string,
    gap1: string, component: string,
    gap2: string, protocol: string,
    gap3: string, priority: string,
    gap4: string, ip: string,
    gap5: string, port: string,
    gap6: string, gap7: string, typ: string,
    rest: string
  )

  predicate Blanks(s: string) {
    forall i :: 0 <= i < |s| ==> IsSpace(s[i]) && s[i] != '\n'
  }

  predicate IsGap(s: string) {
    s != [] && Blanks(s)
  }

  function Unsigned(s: string): string {
    if s != [] && (s[0] == '-' || s[0] == '+') then s[1..] else s
  }

  predicate IsNumeral(s: string) {
    s != [] && AllDigits(s)
  }

  function SignedValue(s: string): int
    requires IsNumeral(Unsigned(s))
  {
    if s[0] == '-' then 0 - Value(Unsigned(s)) else Value(Unsigned(s))
  }

  /** An optional sign and digits, leading zeros allowed, within 64 bits. */
  predicate IsInt64(s: string) {
    IsNumeral(Unsigned(s)) && -0x8000_0000_0000_0000 <= SignedValue(s) < 0x8000_0000_0000_0000
  }

  predicate IsUint32(s: string) {
    IsNumeral(s) && Value(s) < 0x1_0000_0000
  }

  function HeadText(f: Form, tail: string): string {
    PREFIX + (f.lead + (f.foundation + (f.gap1 + (f.component + (f.gap2 + (f.protocol + (f.gap3 + tail)))))))
  }

  function TypeText(f: Form): string {
    TYP + (f.gap7 + (f.typ + f.rest))
  }

  function TailText(f: Form): string {
    f.priority + (f.gap4 + (f.ip + (f.gap5 + (f.port + (f.gap6 + TypeText(f))))))
  }

  function FormText(f: Form): string {
    HeadText(f, TailText(f))
  }

  predicate HeadFormed(f: Form) {
    && Blanks(f.lead) && IsToken(f.foundation)
    && IsGap(f.gap1) && IsInt64(f.component)
    && IsGap(f.gap2) && IsToken(f.protocol)
    && IsGap(f.gap3)
  }

  predicate TypeFormed(f: Form) {
    IsGap(f.gap7) && IsToken(f.typ) && EndsToken(f.rest)
  }

  predicate TailFormed(f: Form) {
    && IsUint32(f.priority)
    && IsGap(f.gap4) && IsToken(f.ip)
    && IsGap(f.gap5) && IsInt64(f.port)
    && IsGap(f.gap6) && TypeFormed(f)
  }

  predicate WellFormed(f: Form) {
    HeadFormed(f) && TailFormed(f)
  }

  function FormCandidate(f: Form): Candidate
    requires WellFormed(f)
  {
    Candidate(f.typ, f.foundation, SignedValue(f.component), f.protocol, Value(f.priority), f.ip,
              SignedValue(f.port), "")
  }

  // ---------- Every such text is accepted ----------

  /** s starts with something that is not a space. */
  predicate Starts(s: string) {
    s != [] && !IsSpace(s[0])
  }

  lemma {:induction false} SkipsBlanks(b: string, s: string)
    requires Blanks(b) && Starts(s)
    ensures SkipSpace(b + s) == Got((), s)
  {
    if b == [] {
      assert b + s == s;
    } else {
      assert (b + s)[0] == b[0] && (b + s)[1..] == b[1..] + s;
      SkipsBlanks(b[1..], s);
    }
  }

  lemma {:induction false} DropsBlanks(b: string, s: string)
    requires Blanks(b) && Starts(s)
    ensures DropBlanks(b + s) == s
  {
    if b == [] {
      assert b + s == s;
    } else {
      assert (b + s)[0] == b[0] && (b + s)[1..] == b[1..] + s;
      DropsBlanks(b[1..], s);
    }
  }

  lemma GapRead(b: string, s: string)
    requires IsGap(b) && Starts(s)
    ensures MatchSpace(b + s) == Got((), s) && EndsToken(b + s)
  {
    assert (b + s)[0] == b[0];
    DropsBlanks(b, s);
  }

  lemma TokenStarts(tok: string, rest: string)
    requires IsToken(tok)
    ensures Starts(tok + rest)
  {
    assert (tok + rest)[0] == tok[0];
  }

  lemma TokenRead(b: string, tok: string, rest: string)
    requires Blanks(b) && IsToken(tok) && EndsToken(rest)
    ensures ScanToken(b + (tok + rest)) == Got(tok, rest)
  {
    TokenStarts(tok, rest);
    SkipsBlanks(b, tok + rest);
    SkipNothing(tok + rest);
    ReadToken(tok, rest);
  }

  lemma DigitsRead(ds: string, rest: string)
    requires IsNumeral(ds) && EndsToken(rest)
    ensures ScanDigits(ds + rest) == Got(Value(ds), rest)
  {
    DigitCountOf(ds, rest);
    assert (ds + rest)[..|ds|] == ds && (ds + rest)[|ds|..] == rest;
  }

  lemma NoSpaceInNumbers(c: char)
    requires IsDigit(c) || c == '-' || c == '+'
    ensures !IsSpace(c)
  {
  }

  lemma IntStarts(s: string, rest: string)
    requires IsInt64(s)
    ensures Starts(s + rest)
  {
    assert s != [];
    assert (s + rest)[0] == s[0];
    NoSpaceInNumbers(s[0]);
  }

  lemma IntRead(s: string, rest: string)
    requires IsInt64(s) && EndsToken(rest)
    ensures ScanInt(s + rest) == Got(SignedValue(s), rest)
  {
    IntStarts(s, rest);
    SkipNothing(s + rest);
    DigitsRead(Unsigned(s), rest);
    assert (s + rest)[0] == s[0];
    if s[0] == '-' || s[0] == '+' {
      assert (s + rest)[1..] == Unsigned(s) + rest;
    }
  }

  lemma UintRead(s: string, rest: string)
    requires IsUint32(s) && EndsToken(rest)
    ensures ScanUint32(s + rest) == Got(Value(s), rest) && Starts(s + rest)
  {
    assert (s + rest)[0] == s[0];
    NoSpaceInNumbers(s[0]);
    SkipNothing(s + rest);
    DigitsRead(s, rest);
  }

  lemma TypeRead(f: Form)
    requires TypeFormed(f)
    ensures ParseType(TypeText(f)) == Got(f.typ, f.rest)
  {
    ReadLiteral(TYP, f.gap7 + (f.typ + f.rest));
    TokenStarts(f.typ, f.rest);
    GapRead(f.gap7, f.typ + f.rest);
    ReadToken(f.typ, f.rest);
  }

  lemma TailRead(f: Form)
    requires TailFormed(f)
    ensures ParseTail(TailText(f)) == Got((Value(f.priority), f.ip, SignedValue(f.port) as Int64, f.typ), f.rest)
    ensures Starts(TailText(f))
  {
    var afterPort := f.gap6 + TypeText(f);
    var afterIp := f.gap5 + (f.port + afterPort);
    assert Starts(TypeText(f)) by { assert TypeText(f)[0] == 't'; }
    GapRead(f.gap6, TypeText(f));
    TypeRead(f);
    IntRead(f.port, afterPort);
    IntStarts(f.port, afterPort);
    GapRead(f.gap5, f.port + afterPort);
    ReadToken(f.ip, afterIp);
    TokenStarts(f.ip, afterIp);
    GapRead(f.gap4, f.ip + afterIp);
    UintRead(f.priority, f.gap4 + (f.ip + afterIp));
  }

  lemma HeadRead(f: Form, tail: string)
    requires HeadFormed(f) && Starts(tail)
    ensures ParseHead(HeadText(f, tail)) == Got((f.foundation, SignedValue(f.component) as Int64, f.protocol), tail)
  {
    var afterProtocol := f.gap3 + tail;
    var afterComponent := f.gap2 + (f.protocol + afterProtocol);
    var afterFoundation := f.gap1 + (f.component + afterComponent);
    GapRead(f.gap3, tail);
    ReadToken(f.protocol, afterProtocol);
    TokenStarts(f.protocol, afterProtocol);
    GapRead(f.gap2, f.protocol + afterProtocol);
    IntRead(f.component, afterComponent);
    IntStarts(f.component, afterComponent);
    GapRead(f.gap1, f.component + afterComponent);
    TokenRead(f.lead, f.foundation, afterFoundation);
    ReadLiteral(PREFIX, f.lead + (f.foundation + afterFoundation));
  }

  /** Every well-formed text is accepted, with the values it spells. */
  lemma FormAccepted(f: Form)
    requires WellFormed(f)
    ensures Parse(FormText(f)) == Got(FormCandidate(f), f.rest)
  {
    TailRead(f);
    HeadRead(f, TailText(f));
  }

  // ---------- Nothing else is accepted ----------

  lemma {:induction false} SkipSplit(s: string) returns (b: string)
    requires SkipSpace(s).Got?
    ensures Blanks(b) && s == b + SkipSpace(s).rest
    ensures SkipSpace(s).rest == [] || Starts(SkipSpace(s).rest)
  {
    if s != [] && IsSpace(s[0]) {
      b := SkipSplit(s[1..]);
      b := [s[0]] + b;
    } else {
      b := [];
    }
  }

  lemma {:induction false} DropSplit(s: string) returns (b: string)
    ensures Blanks(b) && s == b + DropBlanks(s)
    ensures DropBlanks(s) == [] || Starts(DropBlanks(s)) || DropBlanks(s)[0] == '\n'
  {
    if s != [] && IsSpace(s[0]) && s[0] != '\n' {
      b := DropSplit(s[1..]);
      b := [s[0]] + b;
    } else {
      b := [];
    }
  }

  lemma GapSplit(s: string) returns (b: string)
    requires MatchSpace(s).Got? && Starts(MatchSpace(s).rest)
    ensures IsGap(b) && s == b + MatchSpace(s).rest
  {
    b := DropSplit(s);
    assert b != [] by { assert IsSpace(s[0]); }
  }

  lemma {:induction false} TokenStops(s: string)
    ensures EndsToken(s[TokenLength(s)..])
  {
    if s != [] && !IsSpace(s[0]) {
      TokenStops(s[1..]);
      assert s[TokenLength(s)..] == s[1..][TokenLength(s[1..])..];
    }
  }

  lemma TokenSplit(s: string) returns (b: string)
    requires ScanToken(s).Got?
    ensures Blanks(b) && IsToken(ScanToken(s).value) && EndsToken(ScanToken(s).rest)
    ensures s == b + (ScanToken(s).value + ScanToken(s).rest)
    ensures Starts(SkipSpace(s).rest)
  {
    b := SkipSplit(s);
    ScannedIsToken(s);
    var t := SkipSpace(s).rest;
    TokenStops(t);
    assert t == t[..TokenLength(t)] + t[TokenLength(t)..];
  }

  /** A token read right after a gap begins where the gap ends. */
  lemma GapTokenSplit(s: string) returns (b: string)
    requires MatchSpace(s).Got? && ScanToken(MatchSpace(s).rest).Got?
    ensures var r := ScanToken(MatchSpace(s).rest);
            IsGap(b) && IsToken(r.value) && EndsToken(r.rest) && s == b + (r.value + r.rest)
  {
    var t := MatchSpace(s).rest;
    var none := TokenSplit(t);
    AfterGap(s);
    b := GapSplit(s);
    assert t == SkipSpace(t).rest;
    assert none == [];
    assert [] + (ScanToken(t).value + ScanToken(t).rest) == ScanToken(t).value + ScanToken(t).rest;
  }

  /** After a gap, a scan that skips space and finds something finds it at once. */
  lemma AfterGap(s: string)
    requires MatchSpace(s).Got? && SkipSpace(MatchSpace(s).rest).Got? && SkipSpace(MatchSpace(s).rest).rest != []
    ensures Starts(MatchSpace(s).rest) && SkipSpace(MatchSpace(s).rest).rest == MatchSpace(s).rest
  {
    if s != [] {
      var b := DropSplit(s);
    }
  }

  lemma DigitsSplit(s: string)
    requires ScanDigits(s).Got?
    ensures var n := DigitCount(s);
            IsNumeral(s[..n]) && s == s[..n] + ScanDigits(s).rest && ScanDigits(s).value == Value(s[..n])
  {
  }

  lemma SignedForm(sign: char, ds: string)
    requires sign == '-' || sign == '+'
    requires IsNumeral(ds)
    ensures Unsigned([sign] + ds) == ds && SignedValue([sign] + ds) == if sign == '-' then 0 - Value(ds) else Value(ds)
  {
    assert ([sign] + ds)[1..] == ds;
  }

  lemma PlainForm(ds: string)
    requires IsNumeral(ds)
    ensures Unsigned(ds) == ds && SignedValue(ds) == Value(ds)
  {
    assert IsDigit(ds[0]);
  }

  lemma IntSplit(s: string) returns (num: string)
    requires ScanSigned(s).Got?
    ensures IsInt64(num) && s == num + ScanSigned(s).rest && ScanSigned(s).value == SignedValue(num)
  {
    if s != [] && (s[0] == '-' || s[0] == '+') {
      num := SignedSplit(s);
    } else {
      DigitsSplit(s);
      num := s[..DigitCount(s)];
      PlainForm(num);
    }
  }

  lemma SignedSplit(s: string) returns (num: string)
    requires ScanSigned(s).Got? && s != [] && (s[0] == '-' || s[0] == '+')
    ensures IsInt64(num) && s == num + ScanSigned(s).rest && ScanSigned(s).value == SignedValue(num)
  {
    var t := s[1..];
    DigitsSplit(t);
    var ds := t[..DigitCount(t)];
    num := [s[0]] + ds;
    SignedForm(s[0], ds);
    assert s == [s[0]] + t;
  }

  lemma GapIntSplit(s: string) returns (b: string, num: string)
    requires MatchSpace(s).Got? && ScanInt(MatchSpace(s).rest).Got?
    ensures var r := ScanInt(MatchSpace(s).rest);
            IsGap(b) && IsInt64(num) && s == b + (num + r.rest) && r.value == SignedValue(num)
  {
    var t := MatchSpace(s).rest;
    assert ScanSigned([]).Bad?;
    AfterGap(s);
    b := GapSplit(s);
    num := IntSplit(t);
  }

  lemma GapUintSplit(s: string) returns (b: string, num: string)
    requires MatchSpace(s).Got? && ScanUint32(MatchSpace(s).rest).Got?
    ensures var r := ScanUint32(MatchSpace(s).rest);
            IsGap(b) && IsUint32(num) && s == b + (num + r.rest) && r.value == Value(num)
  {
    var t := MatchSpace(s).rest;
    assert ScanDigits([]).Bad?;
    AfterGap(s);
    b := GapSplit(s);
    DigitsSplit(t);
    num := t[..DigitCount(t)];
  }

  lemma TypeSplit(s: string) returns (gap: string)
    requires ParseType(s).Got?
    ensures var r := ParseType(s);
            IsGap(gap) && IsToken(r.value) && EndsToken(r.rest) && s == TYP + (gap + (r.value + r.rest))
  {
    gap := GapTokenSplit(s[|TYP|..]);
    assert s == TYP + s[|TYP|..];
  }

  lemma GapTypeSplit(s: string) returns (gap6: string, gap7: string)
    requires MatchSpace(s).Got? && ParseType(MatchSpace(s).rest).Got?
    ensures var r := ParseType(MatchSpace(s).rest);
            && IsGap(gap6) && IsGap(gap7) && IsToken(r.value) && EndsToken(r.rest)
            && s == gap6 + (TYP + (gap7 + (r.value + r.rest)))
  {
    var t := MatchSpace(s).rest;
    gap7 := TypeSplit(t);
    assert t[0] == 't';
    gap6 := GapSplit(s);
  }

  lemma HeadSplit(s: string) returns (lead: string, gap1: string, component: string, gap2: string, before: string)
    requires ParseHead(s).Got?
    ensures var (foundation, number, protocol) := ParseHead(s).value;
            && Blanks(lead) && IsToken(foundation) && IsGap(gap1) && IsInt64(component) && IsGap(gap2) && IsToken(protocol)
            && number == SignedValue(component)
            && s == PREFIX + (lead + (foundation + (gap1 + (component + (gap2 + (protocol + before))))))
            && MatchSpace(before) == Got((), ParseHead(s).rest)
  {
    var s1 := s[|PREFIX|..];
    assert s == PREFIX + s1;
    lead := TokenSplit(s1);
    var s2 := ScanToken(s1).rest;
    gap1, component := GapIntSplit(s2);
    var s3 := ScanInt(MatchSpace(s2).rest).rest;
    gap2 := GapTokenSplit(s3);
    before := ScanToken(MatchSpace(s3).rest).rest;
  }

  lemma TailSplit(s: string)
    returns (priority: string, gap3: string, gap4: string, gap5: string, port: string, gap6: string, gap7: string)
    requires MatchSpace(s).Got? && ParseTail(MatchSpace(s).rest).Got?
    ensures var r := ParseTail(MatchSpace(s).rest);
            var (number, ip, portNumber, typ) := r.value;
            && IsGap(gap3) && IsUint32(priority) && IsGap(gap4) && IsToken(ip) && IsGap(gap5) && IsInt64(port)
            && IsGap(gap6) && IsGap(gap7) && IsToken(typ) && EndsToken(r.rest)
            && number == Value(priority) && portNumber == SignedValue(port)
            && s == gap3 + (priority + (gap4 + (ip + (gap5 + (port + (gap6 + (TYP + (gap7 + (typ + r.rest)))))))))
  {
    gap3, priority := GapUintSplit(s);
    var s1 := ScanUint32(MatchSpace(s).rest).rest;
    gap4 := GapTokenSplit(s1);
    var s2 := ScanToken(MatchSpace(s1).rest).rest;
    gap5, port := GapIntSplit(s2);
    var s3 := ScanInt(MatchSpace(s2).rest).rest;
    gap6, gap7 := GapTypeSplit(s3);
  }

  lemma ParsedForm(s: string) returns (f: Form)
    requires Parse(s).Got?
    ensures WellFormed(f) && s == FormText(f) && Parse(s) == Got(FormCandidate(f), f.rest)
  {
    var lead, gap1, component, gap2, before := HeadSplit(s);
    var priority, gap3, gap4, gap5, port, gap6, gap7 := TailSplit(before);
    var c, r := Parse(s).value, Parse(s).rest;
    f := Form(lead, c.foundation, gap1, component, gap2, c.protocol, gap3, priority, gap4, c.ip, gap5, port,
              gap6, gap7, c.typ, r);
    assert before == gap3 + TailText(f);
  }

  /** Exactly the accepted texts: the literal, and the seven fields separated by one or more spaces, with
      blanks before the first, signs and leading zeros in the numbers, values within their widths, and
      anything after the last field that begins with a space. */
  lemma AcceptedTexts(s: string)
    ensures Parse(s).Got? <==> exists f :: WellFormed(f) && FormText(f) == s
    ensures forall f :: WellFormed(f) && FormText(f) == s ==> Parse(s) == Got(FormCandidate(f), f.rest)
  {
    forall f | WellFormed(f) && FormText(f) == s
      ensures Parse(s) == Got(FormCandidate(f), f.rest)
    {
      FormAccepted(f);
    }
    if Parse(s).Got? {
      var f := ParsedForm(s);
    }
  }
}
