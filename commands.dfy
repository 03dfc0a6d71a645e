/** Serial commands: the text `"<prefix>:<pin>,<angle>"` handed to
    `sendCommand`, and a reader for it that serves as the format's inverse:
    whoever receives the line can recover prefix, pin and angle. */
module Commands {
  import opened Base

  datatype Command = Command(prefix: string, pin: int, angle: int)

  predicate IsDigit(c: char) { '0' <= c <= '9' }

  predicate AllDigits(s: string) { forall k :: 0 <= k < |s| ==> IsDigit(s[k]) }

  function DigitChar(d: nat): (c: char)
    requires d < 10
    ensures IsDigit(c) && c as int - '0' as int == d
  {
    ('0' as int + d) as char
  }

  function DigitValue(c: char): nat
    requires IsDigit(c)
  {
    c as int - '0' as int
  }

  /** Decimal notation of a natural number, most significant digit first. */
  function NatToString(n: nat): (s: string)
    ensures |s| >= 1 && AllDigits(s)
    decreases n
  {
    if n < 10 then [DigitChar(n)] else NatToString(n / 10) + [DigitChar(n % 10)]
  }

  /** How JavaScript renders an integral number in a template literal. */
  function IntToString(i: int): (s: string)
    ensures |s| >= 1
    ensures ',' !in s && ':' !in s
  {
    if i < 0 then "-" + NatToString(-i) else NatToString(i)
  }

  /** `${cfg.prefix}:${cfg.pin},${angle}` */
  function Format(c: Command): string
  {
    c.prefix + ":" + IntToString(c.pin) + "," + IntToString(c.angle)
  }

  function ParseNat(s: string): nat
    requires AllDigits(s)
  {
    if s == [] then 0 else ParseNat(s[..|s| - 1]) * 10 + DigitValue(s[|s| - 1])
  }

  /** An optional minus sign followed by at least one digit. */
  function ParseInt(s: string): Option<int>
  {
    if |s| >= 2 && s[0] == '-' && AllDigits(s[1..]) then Some(-(ParseNat(s[1..]) as int))
    else if |s| >= 1 && AllDigits(s) then Some(ParseNat(s))
    else None
  }

  /** The position of the first `ch` in `s`. */
  function IndexOf(s: string, ch: char): (r: Option<nat>)
    ensures r.Some? ==> r.value < |s| && s[r.value] == ch && ch !in s[..r.value]
    ensures r.None? ==> ch !in s
  {
    if s == [] then None
    else if s[0] == ch then Some(0)
    else match IndexOf(s[1..], ch)
      case None => None
      case Some(k) => Some(k + 1)
  }

  /** Reads a command line: the prefix runs to the first `:`, the pin to the
      next `,`, the angle to the end. */
  function Parse(s: string): Option<Command>
  {
    match IndexOf(s, ':')
    case None => None
    case Some(i) =>
      var rest := s[i + 1..];
      match IndexOf(rest, ',')
      case None => None
      case Some(j) =>
        match (ParseInt(rest[..j]), ParseInt(rest[j + 1..]))
        case (Some(pin), Some(angle)) => Some(Command(s[..i], pin, angle))
        case _ => None
  }

  lemma {:induction false} ParseNatToString(n: nat)
    ensures ParseNat(NatToString(n)) == n
    decreases n
  {
    var s := NatToString(n);
    if n >= 10 {
      assert s[..|s| - 1] == NatToString(n / 10);
      ParseNatToString(n / 10);
    }
  }

  lemma ParseIntToString(i: int)
    ensures ParseInt(IntToString(i)) == Some(i)
  {
    var s := IntToString(i);
    if i < 0 {
      assert s[1..] == NatToString(-i);
      ParseNatToString(-i);
    } else {
      ParseNatToString(i);
    }
  }

  /** A line cut at the first occurrence of `ch`, when `a` holds none. */
  lemma SplitAt(s: string, a: string, ch: char, b: string)
    requires ch !in a
    requires s == a + [ch] + b
    ensures IndexOf(s, ch) == Some(|a|)
    ensures s[..|a|] == a && s[|a| + 1..] == b
  {
    assert s[|a|] == ch;
    assert s[..|a|] == a;
  }

  /** Parsing a line laid out as `pre:p,a`, with no `:` in `pre` and no `,`
      in `p`, reads `p` and `a` as the two numbers. */
  lemma ParseLayout(pre: string, p: string, a: string)
    requires ':' !in pre && ',' !in p
    ensures Parse(pre + ":" + p + "," + a) ==
      if ParseInt(p).Some? && ParseInt(a).Some?
      then Some(Command(pre, ParseInt(p).value, ParseInt(a).value))
      else None
  {
    var s := pre + ":" + p + "," + a;
    var rest := p + "," + a;
    SplitAt(s, pre, ':', rest);
    SplitAt(rest, p, ',', a);
  }

  /** Reading a formatted command gives the command back, provided its
      prefix holds no `:` (the prefixes in use are single letters). */
  lemma ParseFormat(c: Command)
    requires ':' !in c.prefix
    ensures Parse(Format(c)) == Some(c)
  {
    ParseLayout(c.prefix, IntToString(c.pin), IntToString(c.angle));
    ParseIntToString(c.pin);
    ParseIntToString(c.angle);
  }

  /** `ParseFormat` for every command at once. */
  lemma ReadBackAll()
    ensures forall c: Command :: ':' !in c.prefix ==> Parse(Format(c)) == Some(c)
  {
    forall c: Command | ':' !in c.prefix
      ensures Parse(Format(c)) == Some(c)
    {
      ParseFormat(c);
    }
  }

  /** Distinct commands never share a line on the wire. */
  lemma FormatInjective(c1: Command, c2: Command)
    requires ':' !in c1.prefix && ':' !in c2.prefix
    requires Format(c1) == Format(c2)
    ensures c1 == c2
  {
    ParseFormat(c1);
    ParseFormat(c2);
  }
}
