/** The hexadecimal form in which transaction hashes travel (`src/server/handlers.rs`). */
module Hex {
  import opened Wrappers
  import opened Ledger
  import opened Seqs

  function HexDigit(n: int): char
    requires 0 <= n < 16
  {
    if n < 10 then '0' + n as char else 'a' + (n - 10) as char
  }

  function HexNibble(c: char): Option<int> {
    if '0' <= c <= '9' then Some(c as int - '0' as int)
    else if 'a' <= c <= 'f' then Some(c as int - 'a' as int + 10)
    else if 'A' <= c <= 'F' then Some(c as int - 'A' as int + 10)
    else None
  }

  /** The sixteen digits, and what each is worth, the letters in either case; nothing else is a digit. */
  lemma NibblesAreDigits(n: int, c: char)
    requires 0 <= n < 16
    ensures HexDigit(n) == "0123456789abcdef"[n]
    ensures HexNibble("0123456789abcdef"[n]) == Some(n) && HexNibble("0123456789ABCDEF"[n]) == Some(n)
    ensures HexNibble(c).Some? <==> '0' <= c <= '9' || 'a' <= c <= 'f' || 'A' <= c <= 'F'
  {
  }

  function HexOf(bytes: seq<Byte>): string {
    if bytes == [] then []
    else HexOf(Init(bytes)) + [HexDigit(Last(bytes) / 16), HexDigit(Last(bytes) % 16)]
  }

  /** `hex_lower` */
  method HexLower(bytes: Bytes32) returns (s: string)
    ensures s == HexOf(bytes)
  {
    s := [];
    for i := 0 to |bytes|
      invariant s == HexOf(bytes[..i])
    {
      Prefix(bytes, i);
      s := s + [HexDigit(bytes[i] / 16), HexDigit(bytes[i] % 16)];
    }
    assert bytes[..|bytes|] == bytes;
  }

  predicate IsHex(s: string) {
    forall i :: 0 <= i < |s| ==> HexNibble(s[i]).Some?
  }

  /** The byte that two digits spell. */
  function Pair(hi: char, lo: char): Option<Byte> {
    match (HexNibble(hi), HexNibble(lo))
    case (Some(h), Some(l)) => Some(h * 16 + l)
    case _ => None
  }

  /** `parse_hex32`: accepts exactly the strings of 64 digits, in either case. */
  method ParseHex32(s: string) returns (r: Option<Bytes32>)
    ensures r.Some? <==> |s| == 64 && IsHex(s)
    ensures r.Some? ==> forall j :: 0 <= j < 32 ==> Pair(s[2 * j], s[2 * j + 1]) == Some(r.value[j])
  {
    if |s| != 64 {
      return None;
    }
    var out := new Byte[32](_ => 0);
    for i := 0 to 32
      invariant forall j :: 0 <= j < 2 * i ==> HexNibble(s[j]).Some?
      invariant forall j :: 0 <= j < i ==> Pair(s[2 * j], s[2 * j + 1]) == Some(out[j])
    {
      var hi := HexNibble(s[2 * i]);
      if hi.None? {
        return None;
      }
      var lo := HexNibble(s[2 * i + 1]);
      if lo.None? {
        return None;
      }
      out[i] := hi.value * 16 + lo.value;
    }
    r := Some(out[..]);
  }

  lemma {:induction false} HexAt(bytes: seq<Byte>, j: nat)
    requires j < |bytes|
    ensures |HexOf(bytes)| == 2 * |bytes|
    ensures HexOf(bytes)[2 * j] == HexDigit(bytes[j] / 16) && HexOf(bytes)[2 * j + 1] == HexDigit(bytes[j] % 16)
  {
    if j < |bytes| - 1 {
      HexAt(Init(bytes), j);
    } else if j > 0 {
      HexAt(Init(bytes), j - 1);
    }
  }

  /** What is printed is digits and the letters a to f in lower case. */
  lemma HexIsLowerCase(bytes: seq<Byte>, i: nat)
    requires i < 2 * |bytes|
    ensures |HexOf(bytes)| == 2 * |bytes|
    ensures '0' <= HexOf(bytes)[i] <= '9' || 'a' <= HexOf(bytes)[i] <= 'f'
  {
    HexAt(bytes, i / 2);
    assert i == 2 * (i / 2) || i == 2 * (i / 2) + 1;
  }

  lemma DigitsSpellTheByte(b: Byte)
    ensures Pair(HexDigit(b / 16), HexDigit(b % 16)) == Some(b)
  {
  }

  /** The form determines the bytes. */
  lemma HexIsInjective(a: seq<Byte>, b: seq<Byte>)
    requires HexOf(a) == HexOf(b)
    ensures a == b
  {
    if a != [] { HexAt(a, 0); }
    if b != [] { HexAt(b, 0); }
    forall j | 0 <= j < |a| ensures a[j] == b[j] {
      HexAt(a, j);
      HexAt(b, j);
      DigitsSpellTheByte(a[j]);
      DigitsSpellTheByte(b[j]);
    }
  }

  /** A hash that is printed and parsed again is itself. */
  method HexRoundTrip(hash: Bytes32) returns (r: Option<Bytes32>)
    ensures r == Some(hash)
  {
    var s := HexLower(hash);
    HexAt(hash, 0);
    forall i | 0 <= i < |s| ensures HexNibble(s[i]).Some? {
      HexAt(hash, i / 2);
      DigitsSpellTheByte(hash[i / 2]);
      assert i == 2 * (i / 2) || i == 2 * (i / 2) + 1;
    }
    r := ParseHex32(s);
    forall j | 0 <= j < 32 ensures r.value[j] == hash[j] {
      HexAt(hash, j);
      DigitsSpellTheByte(hash[j]);
    }
    assert r.value == hash;
  }
}
