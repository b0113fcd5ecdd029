/** What the texts inside a WireGuard profile denote: numbers, prefixes, addresses and ports, each stated
    against a printer. */
module WireGuardNumbers {
  import opened Types
  import opened Text
  import opened WireGuardConfig
  import opened WireGuardText

  // ----- decimal numerals

  const DIGITS := "0123456789"

  /** The usual decimal text of a number. */
  function Decimal(n: nat): (s: string)
    ensures s != []
  {
    (if n < 10 then [] else Decimal(n / 10)) + [DIGITS[n % 10]]
  }

  function Zeros(k: nat): string {
    seq(k, i => '0')
  }

  /** The text denotes `n`: an optional plus sign and any number of zeros may stand before its decimal
      text. */
  ghost predicate Numeral(s: string, n: nat) {
    exists k: nat :: s == Zeros(k) + Decimal(n) || s == "+" + Zeros(k) + Decimal(n)
  }

  lemma DigitsAreDigits(d: nat)
    requires d < 10
    ensures IsDigit(DIGITS[d]) && DIGITS[d] as int - '0' as int == d
  {
  }

  lemma ValueOfSnoc(s: string, d: nat)
    requires AllDigits(s) && d < 10
    ensures AllDigits(s + [DIGITS[d]]) && DigitsValue(s + [DIGITS[d]]) == 10 * DigitsValue(s) + d
  {
    DigitsAreDigits(d);
    var t := s + [DIGITS[d]];
    assert t[..|t| - 1] == s;
  }

  lemma {:induction false} ValueOfZeros(k: nat)
    ensures AllDigits(Zeros(k)) && DigitsValue(Zeros(k)) == 0
  {
    if k > 0 {
      ValueOfZeros(k - 1);
      ValueOfSnoc(Zeros(k - 1), 0);
      assert Zeros(k) == Zeros(k - 1) + [DIGITS[0]];
    }
  }

  lemma {:induction false} ValueOfNumeral(k: nat, n: nat)
    ensures AllDigits(Zeros(k) + Decimal(n)) && DigitsValue(Zeros(k) + Decimal(n)) == n
  {
    hide DigitsValue, AllDigits;
    var last := [DIGITS[n % 10]];
    if n < 10 {
      ValueOfZeros(k);
      ValueOfSnoc(Zeros(k), n);
      assert Zeros(k) + Decimal(n) == Zeros(k) + last;
    } else {
      ValueOfNumeral(k, n / 10);
      ValueOfSnoc(Zeros(k) + Decimal(n / 10), n % 10);
      assert Zeros(k) + Decimal(n) == Zeros(k) + Decimal(n / 10) + last;
    }
  }

  lemma SnocDigit(s: string) returns (d: nat)
    requires s != [] && AllDigits(s)
    ensures d < 10 && AllDigits(s[..|s| - 1]) && s == s[..|s| - 1] + [DIGITS[d]]
  {
    assert IsDigit(s[|s| - 1]);
    d := s[|s| - 1] as int - '0' as int;
    DigitsAreDigits(d);
  }

  /** Every text of digits is the numeral of its value, with some zeros before it. */
  lemma {:induction false} DigitsAreNumeral(s: string) returns (k: nat)
    requires s != [] && AllDigits(s)
    ensures s == Zeros(k) + Decimal(DigitsValue(s))
  {
    hide Decimal;
    var d := SnocDigit(s);
    var front := s[..|s| - 1];
    ValueOfSnoc(front, d);
    if front == [] {
      k := 0;
      DecimalOfDigit(d);
    } else {
      var j := DigitsAreNumeral(front);
      var v := DigitsValue(front);
      if v == 0 {
        k := j + 1;
        DecimalOfDigit(0);
        DecimalOfDigit(d);
        assert Zeros(k) == Zeros(j) + ['0'];
      } else {
        k := j;
        DecimalGrows(v, d);
      }
    }
  }

  lemma DecimalOfDigit(d: nat)
    requires d < 10
    ensures Decimal(d) == [DIGITS[d]]
  {
    hide DIGITS;
    assert d % 10 == d;
  }

  lemma DecimalGrows(v: nat, d: nat)
    requires v > 0 && d < 10
    ensures Decimal(10 * v + d) == Decimal(v) + [DIGITS[d]]
  {
    hide DIGITS;
    var n := 10 * v + d;
    assert n / 10 == v && n % 10 == d;
  }

  /** The parser accepts exactly the numerals of the numbers in range, and yields the number denoted. */
  lemma ParseUnsignedExact(s: string, max: nat, n: nat)
    ensures ParseUnsigned(s, max) == Some(n) <==> n <= max && Numeral(s, n)
  {
    hide DigitsValue, Decimal, AllDigits;
    var digits := if |s| > 1 && s[0] == '+' then s[1..] else s;
    if ParseUnsigned(s, max) == Some(n) {
      var k := DigitsAreNumeral(digits);
      assert digits == s || s == "+" + digits;
      assert "+" + (Zeros(k) + Decimal(n)) == "+" + Zeros(k) + Decimal(n);
    }
    if n <= max && Numeral(s, n) {
      var k: nat :| s == Zeros(k) + Decimal(n) || s == "+" + Zeros(k) + Decimal(n);
      ValueOfNumeral(k, n);
      NoSign(Zeros(k) + Decimal(n));
      if s == "+" + Zeros(k) + Decimal(n) { assert s[1..] == Zeros(k) + Decimal(n); }
    }
  }

  lemma NoSign(s: string)
    requires AllDigits(s)
    ensures !StartsWith(s, '+')
  {
    assert s != [] ==> s[0] in s;
  }

  /** The decimal text of a number reads as that number, zeros and plus sign or not, if it is in range,
      and not at all if it is not. */
  lemma DecimalReads(k: nat, n: nat, max: nat)
    ensures ParseUnsigned(Zeros(k) + Decimal(n), max) == if n <= max then Some(n) else None
    ensures ParseUnsigned("+" + Zeros(k) + Decimal(n), max) == if n <= max then Some(n) else None
  {
    hide DigitsValue, Decimal, AllDigits;
    ValueOfNumeral(k, n);
    NoSign(Zeros(k) + Decimal(n));
    assert ("+" + Zeros(k) + Decimal(n))[1..] == Zeros(k) + Decimal(n);
  }

  /** A number has one numeral up to the zeros and the sign, so a text denotes at most one number. */
  lemma NumeralUnique(s: string, a: nat, b: nat)
    requires Numeral(s, a) && Numeral(s, b)
    ensures a == b
  {
    hide Numeral, ParseUnsigned;
    ParseUnsignedExact(s, a + b, a);
    ParseUnsignedExact(s, a + b, b);
  }

  /** The number checks of a profile: what the decimal texts of numbers are accepted as. */
  lemma NumbersExact(s: string, n: nat)
    requires Numeral(s, n)
    ensures IsU16(s) <==> n <= 65_535
    ensures IsNonzeroU16(s) <==> 1 <= n <= 65_535
    ensures IsMtu(s) <==> 576 <= n <= 9_000
  {
    hide Numeral, ParseUnsigned;
    ParseUnsignedExact(s, 65_535, n);
    var read := ParseUnsigned(s, 65_535);
    if read.Some? {
      ParseUnsignedExact(s, 65_535, read.value);
      NumeralUnique(s, n, read.value);
    }
  }

  /** Nothing but a numeral passes any of them. */
  lemma OnlyNumerals(s: string)
    ensures IsU16(s) <==> exists n :: n <= 65_535 && Numeral(s, n)
    ensures IsNonzeroU16(s) <==> exists n :: 1 <= n <= 65_535 && Numeral(s, n)
    ensures IsMtu(s) <==> exists n :: 576 <= n <= 9_000 && Numeral(s, n)
  {
    hide Numeral, ParseUnsigned, IsU16, IsNonzeroU16, IsMtu;
    forall n: nat | Numeral(s, n)
      ensures IsU16(s) <==> n <= 65_535
      ensures IsNonzeroU16(s) <==> 1 <= n <= 65_535
      ensures IsMtu(s) <==> 576 <= n <= 9_000
    {
      NumbersExact(s, n);
    }
    if IsU16(s) || IsNonzeroU16(s) || IsMtu(s) { var n := ReadIsNumeral(s); }
  }

  lemma ReadIsNumeral(s: string) returns (n: nat)
    requires IsU16(s) || IsNonzeroU16(s) || IsMtu(s)
    ensures Numeral(s, n)
  {
    hide Numeral, ParseUnsigned;
    n := ParseUnsigned(s, 65_535).value;
    ParseUnsignedExact(s, 65_535, n);
  }

  lemma DecimalIsNumeral(n: nat)
    ensures Numeral(Decimal(n), n)
  {
    assert Zeros(0) + Decimal(n) == Decimal(n);
  }

  // ----- addresses with prefixes

  /** `address/n`, with a prefix length that the address family has. */
  ghost predicate Cidr(p: Parsers, text: string, address: Address, n: nat) {
    exists ip: string, digits: string ::
      && text == ip + "/" + digits && '/' !in ip && p.ip(ip) == Some(address)
      && Numeral(digits, n) && n <= (match address case V4(_) => 32 case V6(_) => 128)
  }

  /** A piece of an address list is read exactly as what it denotes, blanks around it aside. */
  lemma ParseCidrExact(p: Parsers, raw: string, address: Address, n: nat)
    ensures ParseCidr(p, raw) == Some((address, n)) <==> Cidr(p, Trim(raw), address, n)
  {
    hide Trim, ParseUnsigned, Numeral, IndexOf;
    var text := Trim(raw);
    if ParseCidr(p, raw) == Some((address, n)) {
      var cut := SplitOnce(text, '/').value;
      assert text == cut.0 + "/" + cut.1;
      ParseUnsignedExact(cut.1, 255, n);
      assert Cidr(p, text, address, n);
    }
    if ip, digits :| text == ip + "/" + digits && '/' !in ip && p.ip(ip) == Some(address)
                     && Numeral(digits, n) && n <= (match address case V4(_) => 32 case V6(_) => 128) {
      IndexOfFirst(ip, '/', ['/'] + digits);
      assert text == ip + (['/'] + digits);
      assert text[..|ip|] == ip && text[|ip| + 1..] == digits;
      ParseUnsignedExact(digits, 255, n);
    }
  }

  /** An address with its prefix length in decimal is a CIDR exactly when the length is at most 32 or
      128, and a default route exactly for the unspecified address of the family and the length 0. */
  lemma CidrReads(p: Parsers, left: string, ip: string, n: nat, right: string, v6: bool)
    requires Blank(left) && Blank(right) && ip != [] && NoWhitespace(ip) && '/' !in ip
    ensures var r := ParseCidr(p, left + ip + "/" + Decimal(n) + right);
            && (r.Some? <==> p.ip(ip).Some? && n <= (if p.ip(ip).value.V4? then 32 else 128))
            && (r.Some? ==> r.value == (p.ip(ip).value, n))
            && (IsDefault(r, v6) <==> p.ip(ip) == Some(if v6 then V6(true) else V4(true)) && n == 0)
  {
    hide Trim, ParseUnsigned, IndexOf, Decimal;
    var digits := Decimal(n);
    var core := ip + "/" + digits;
    ValueOfNumeral(0, n);
    assert Zeros(0) + digits == digits;
    DigitsAreDark(digits);
    assert Trimmed(core);
    assert left + ip + "/" + digits + right == left + core + right;
    TrimPad(left, core, right);
    assert core == ip + (['/'] + digits);
    IndexOfFirst(ip, '/', ['/'] + digits);
    assert core[..|ip|] == ip && core[|ip| + 1..] == digits;
    DecimalReads(0, n, 255);
  }

  lemma DigitsAreDark(s: string)
    requires AllDigits(s)
    ensures NoWhitespace(s)
  {
    forall i | 0 <= i < |s| ensures !IsWhitespace(s[i]) {
      assert IsDigit(s[i]);
    }
  }

  // ----- endpoints

  const HOST_CHARS := SMALL + CAPITALS + DIGITS + ".-_"

  lemma HostCharsExact(c: char)
    ensures IsHostChar(c) <==> c in HOST_CHARS
  {
    hide SMALL, CAPITALS, DIGITS;
    SmallLetters(c);
    Capitals(c);
    Digits(c);
    assert c in ".-_" <==> c == '.' || c == '-' || c == '_';
  }

  lemma SmallLetters(c: char)
    ensures c in SMALL <==> 'a' <= c <= 'z'
  {
    assert forall i | 0 <= i < 26 :: SMALL[i] as int == 97 + i;
    if 'a' <= c <= 'z' { assert SMALL[c as int - 97] == c; }
  }

  lemma Capitals(c: char)
    ensures c in CAPITALS <==> 'A' <= c <= 'Z'
  {
    assert forall i | 0 <= i < 26 :: CAPITALS[i] as int == 65 + i;
    if 'A' <= c <= 'Z' { assert CAPITALS[c as int - 65] == c; }
  }

  lemma Digits(c: char)
    ensures c in DIGITS <==> IsDigit(c)
  {
    assert forall i | 0 <= i < 10 :: DIGITS[i] as int == 48 + i;
    if IsDigit(c) { assert DIGITS[c as int - 48] == c; }
  }

  /** A host name with a port in decimal is an endpoint exactly when the port is one, and so is an IPv6
      address in brackets. */
  lemma EndpointReads(p: Parsers, host: string, ip: string, n: nat)
    requires host != [] && forall c | c in host :: c in HOST_CHARS
    ensures EndpointOk(p, host + ":" + Decimal(n)) <==> 1 <= n <= 65_535
    ensures EndpointOk(p, "[" + ip + "]:" + Decimal(n)) <==> 1 <= n <= 65_535 && p.ipv6(ip)
  {
    hide Decimal, IsNonzeroU16, IsHostname;
    DecimalIsNumeral(n);
    NumbersExact(Decimal(n), n);
    PortDigits(n);
    assert IsHostname(host) by {
      forall c | c in host ensures IsHostChar(c) { HostCharsExact(c); }
      HostnameFromChars(host);
    }
    EndpointIff(p, host + ":" + Decimal(n), host, Decimal(n));
    assert "[" + ip + "]:" + Decimal(n) == ("[" + ip + "]") + ":" + Decimal(n);
    EndpointIff(p, "[" + ip + "]:" + Decimal(n), "[" + ip + "]", Decimal(n));
    BracketIsNoHostname("[" + ip + "]");
    if other :| "[" + ip + "]" == "[" + other + "]" && p.ipv6(other) {
      assert ("[" + ip + "]")[1..|ip| + 1] == ip && ("[" + other + "]")[1..|other| + 1] == other;
    }
  }

  lemma HostnameFromChars(host: string)
    requires host != [] && forall c | c in host :: IsHostChar(c)
    ensures IsHostname(host)
  {
  }

  lemma BracketIsNoHostname(host: string)
    requires StartsWith(host, '[')
    ensures !IsHostname(host)
  {
    assert host[0] in host && !IsHostChar('[');
  }

  lemma PortDigits(n: nat)
    ensures ':' !in Decimal(n)
  {
    ValueOfNumeral(0, n);
    assert Zeros(0) + Decimal(n) == Decimal(n);
    assert !IsDigit(':');
  }

  /** Which host and which port an endpoint has is settled by its last colon. */
  lemma EndpointIff(p: Parsers, value: string, host: string, port: string)
    requires value == host + ":" + port && ':' !in port
    ensures EndpointOk(p, value) <==> EndpointSplits(p, value, host, port)
  {
    hide IsHostname, IsNonzeroU16, Occurrences, RSplitOnce, EndpointOk;
    if EndpointOk(p, value) {
      var h, o := EndpointSound(p, value);
      PortHasNoColon(o);
      RSplitOnceUnique(host, ':', port);
      RSplitOnceUnique(h, ':', o);
      assert value == host + [':'] + port && value == h + [':'] + o;
    }
    if EndpointSplits(p, value, host, port) {
      EndpointComplete(p, value, host, port);
    }
  }
}
