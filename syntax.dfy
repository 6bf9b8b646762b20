/**
 * The syntax checks behind the validator tags `ipv4`, `cidrv4` and `email`.
 *
 * The validator delegates them to Go's `net.ParseIP`, `net.ParseCIDR` and an
 * e-mail regular expression. These definitions are approximations of those:
 * dotted-quad IPv4 with decimal octets, a `/` and a decimal prefix length of
 * at most 32, and `local@domain` with both parts non-empty.
 */
module Syntax {
  import opened Strings

  predicate IsDigit(c: char) { '0' <= c <= '9' }

  predicate AllDigits(s: string) { forall k :: 0 <= k < |s| ==> IsDigit(s[k]) }

  /** The value of a string of decimal digits, most significant first. */
  function DecimalValue(s: string): (r: nat)
    requires AllDigits(s)
  {
    if s == [] then 0
    else 10 * DecimalValue(s[..|s| - 1]) + (s[|s| - 1] as int - '0' as int)
  }

  /** One decimal octet: 1 to 3 digits, no leading zero, at most 255. */
  predicate IsOctet(s: string)
  {
    1 <= |s| <= 3 && AllDigits(s) && (s[0] == '0' ==> |s| == 1) && DecimalValue(s) <= 255
  }

  /** The `ipv4` tag: four octets separated by dots. */
  predicate IsIPv4(s: string)
  {
    var parts := Split(s, '.');
    |parts| == 4 && IsOctet(parts[0]) && IsOctet(parts[1]) && IsOctet(parts[2]) && IsOctet(parts[3])
  }

  /** A prefix length: one or more decimal digits whose value is at most 32. */
  predicate IsPrefixLength(s: string)
  {
    |s| >= 1 && AllDigits(s) && DecimalValue(s) <= 32
  }

  /** The `cidrv4` tag: an IPv4 address, the first `/`, a prefix length. */
  predicate IsCidrV4(s: string)
  {
    '/' in s &&
    var i := IndexOf(s, '/');
    IsIPv4(s[..i]) && IsPrefixLength(s[i + 1..])
  }

  /** The `email` tag: exactly one `@`, with something on both sides. */
  predicate IsEmail(s: string)
  {
    var parts := Split(s, '@');
    |parts| == 2 && parts[0] != "" && parts[1] != ""
  }

  /** Digits never contain the separators `.`, `/` and `@`. */
  lemma DigitsHaveNoSeparator(s: string, sep: char)
    requires AllDigits(s) && !IsDigit(sep)
    ensures sep !in s
  {
  }

  lemma SplitTwo(c: string, d: string, sep: char)
    requires sep !in c && sep !in d
    ensures Split(c + [sep] + d, sep) == [c, d]
  {
    SplitCons(c, sep, d);
  }

  lemma SplitThree(b: string, c: string, d: string, sep: char)
    requires sep !in b && sep !in c && sep !in d
    ensures Split(b + [sep] + (c + [sep] + d), sep) == [b, c, d]
  {
    SplitCons(b, sep, c + [sep] + d);
    SplitTwo(c, d, sep);
  }

  /** Any four octets joined by dots form an address the `ipv4` tag accepts. */
  lemma IPv4FromOctets(a: string, b: string, c: string, d: string)
    requires IsOctet(a) && IsOctet(b) && IsOctet(c) && IsOctet(d)
    ensures IsIPv4(a + ['.'] + (b + ['.'] + (c + ['.'] + d)))
  {
    DigitsHaveNoSeparator(a, '.');
    DigitsHaveNoSeparator(b, '.');
    DigitsHaveNoSeparator(c, '.');
    DigitsHaveNoSeparator(d, '.');
    SplitCons(a, '.', b + ['.'] + (c + ['.'] + d));
    SplitThree(b, c, d, '.');
  }

  /** An address, a slash and a prefix length form a block the `cidrv4` tag accepts. */
  lemma CidrFromParts(ip: string, prefix: string)
    requires IsIPv4(ip) && IsPrefixLength(prefix) && '/' !in ip
    ensures IsCidrV4(ip + ['/'] + prefix)
  {
    var s := ip + ['/'] + prefix;
    IndexOfAfterPrefix(ip, '/', prefix);
    assert s[..|ip|] == ip;
    assert s[|ip| + 1..] == prefix;
  }

  lemma OctetTen()
    ensures IsOctet("10") && IsOctet("0")
  {
    assert "10"[..1] == "1";
    assert DecimalValue("10") == 10;
  }

  lemma PrefixTwentyFour()
    ensures IsPrefixLength("24")
  {
    assert "24"[..1] == "2";
    assert DecimalValue("24") == 24;
  }

  lemma NetworkTen()
    ensures IsIPv4("10.0.0.0") && '/' !in "10.0.0.0"
  {
    OctetTen();
    IPv4FromOctets("10", "0", "0", "0");
    assert "10.0.0.0" == "10" + ['.'] + ("0" + ['.'] + ("0" + ['.'] + "0"));
  }

  /** The /24 block of the address above is accepted. */
  lemma CidrAccepted()
    ensures IsCidrV4("10.0.0.0/24")
  {
    NetworkTen();
    PrefixTwentyFour();
    var ip, prefix := "10.0.0.0", "24";
    CidrFromParts(ip, prefix);
    SlashJoin();
  }

  lemma SlashJoin()
    ensures "10.0.0.0/24" == "10.0.0.0" + ['/'] + "24"
  {
  }

  /** Text without a slash, the word "bad" or the empty string, is rejected. */
  lemma CidrRejected()
    ensures !IsCidrV4("bad") && !IsCidrV4("")
  {
    assert "bad"[0] != '/' && "bad"[1] != '/' && "bad"[2] != '/';
  }
}
