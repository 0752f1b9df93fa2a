/**
  UUIDs and their canonical text form: 32 hexadecimal digits in groups of
  8-4-4-4-12 separated by hyphens (section 3 of RFC 4122), written in lower
  case as Python's `str(UUID)` does.
 */
module Uuids {
  import opened Wrappers
  import opened Strings

  type Nibble = n: nat | n < 16

  /** A UUID as its 32 hexadecimal digits, most significant first. */
  type Uuid = s: seq<Nibble> | |s| == 32 witness seq(32, _ => 0)

  const HexDigits: String := "0123456789abcdef"

  function HexChar(n: Nibble): (c: char)
    ensures c != '-' && c != '$'
  {
    HexDigits[n]
  }

  /** A hexadecimal digit in either case. */
  function ParseHexChar(c: char): (r: Option<Nibble>)
    ensures r.Some? ==> c != '-' && c != '$'
  {
    if '0' <= c <= '9' then Some((c - '0') as int)
    else if 'a' <= c <= 'f' then Some((c - 'a') as int + 10)
    else if 'A' <= c <= 'F' then Some((c - 'A') as int + 10)
    else None
  }

  lemma ParseHexCharInverse(n: Nibble)
    ensures ParseHexChar(HexChar(n)) == Some(n)
  {
  }

  function HexString(ns: seq<Nibble>): (s: String)
    ensures |s| == |ns|
    ensures forall k :: 0 <= k < |s| ==> s[k] == HexChar(ns[k])
  {
    seq(|ns|, k requires 0 <= k < |ns| => HexChar(ns[k]))
  }

  function ParseHexString(s: String): (r: Option<seq<Nibble>>)
    ensures r.Some? ==> |r.value| == |s|
    decreases |s|
  {
    if |s| == 0 then Some([])
    else match (ParseHexChar(s[0]), ParseHexString(s[1..]))
      case (Some(n), Some(rest)) => Some([n] + rest)
      case _ => None
  }

  lemma {:induction false} ParseHexStringInverse(ns: seq<Nibble>)
    ensures ParseHexString(HexString(ns)) == Some(ns)
    decreases |ns|
  {
    if |ns| > 0 {
      ParseHexStringInverse(ns[1..]);
      assert HexString(ns)[1..] == HexString(ns[1..]);
      ParseHexCharInverse(ns[0]);
      assert [ns[0]] + ns[1..] == ns;
    }
  }

  /** `str(u)`: the 36-character lower-case hyphenated form. */
  function UuidText(u: Uuid): (s: String)
    ensures |s| == 36
    ensures s[8] == '-' && s[13] == '-' && s[18] == '-' && s[23] == '-'
  {
    HexString(u[..8]) + "-" + HexString(u[8..12]) + "-" + HexString(u[12..16]) + "-"
    + HexString(u[16..20]) + "-" + HexString(u[20..])
  }

  /** The 32 digit positions of a 36-character hyphenated form, with the hyphens left out. */
  function Digits(s: String): String
    requires |s| == 36
  {
    s[..8] + s[9..13] + s[14..18] + s[19..23] + s[24..]
  }

  /** The canonical hyphenated form, in either case; `None` for any other text. */
  function ParseUuid(s: String): (r: Option<Uuid>)
    ensures r.Some? ==> |s| == 36
  {
    if |s| == 36 && s[8] == '-' && s[13] == '-' && s[18] == '-' && s[23] == '-' then
      match ParseHexString(Digits(s))
      case Some(ns) => Some(ns)
      case None => None
    else None
  }

  /** The text of a UUID parses back to it. */
  lemma ParseUuidText(u: Uuid)
    ensures ParseUuid(UuidText(u)) == Some(u)
  {
    var s := UuidText(u);
    assert Digits(s) == HexString(u) by {
      assert s[..8] == HexString(u[..8]);
      assert s[9..13] == HexString(u[8..12]);
      assert s[14..18] == HexString(u[12..16]);
      assert s[19..23] == HexString(u[16..20]);
      assert s[24..] == HexString(u[20..]);
    }
    ParseHexStringInverse(u);
  }

  /** The text of a UUID has no `$`, so it can lead a `$`-separated cursor. */
  lemma UuidTextHasNoDollar(u: Uuid)
    ensures '$' !in UuidText(u)
  {
    var s := UuidText(u);
    forall k | 0 <= k < 36 ensures s[k] != '$' {
      if k < 8 {
        assert s[k] == HexString(u[..8])[k];
      } else if 8 < k < 13 {
        assert s[k] == HexString(u[8..12])[k - 9];
      } else if 13 < k < 18 {
        assert s[k] == HexString(u[12..16])[k - 14];
      } else if 18 < k < 23 {
        assert s[k] == HexString(u[16..20])[k - 19];
      } else if 23 < k {
        assert s[k] == HexString(u[20..])[k - 24];
      }
    }
  }
}
