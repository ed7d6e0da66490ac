/** Receipt identifiers: `str(uuid)` as the processor stores it in the job
  * state, and `uuid.UUID(text)` as the persistence stage parses it back. */
module Uuids {
  import opened Wrappers

  type Nibble = n: nat | n < 16

  type Nibbles = s: seq<Nibble> | |s| == 32 witness seq(32, _ => 0)

  /** A UUID as its 128 bits, most significant nibble first. */
  datatype Uuid = Uuid(nibbles: Nibbles)

  function HexChar(n: Nibble): char
  {
    "0123456789abcdef"[n]
  }

  predicate IsHexDigit(c: char)
  {
    '0' <= c <= '9' || 'a' <= c <= 'f' || 'A' <= c <= 'F'
  }

  /** The value of one hexadecimal digit, in either case, as `int(c, 16)`. */
  function HexValue(c: char): (n: Nibble)
    requires IsHexDigit(c)
  {
    if '0' <= c <= '9' then (c as int - '0' as int)
    else if 'a' <= c <= 'f' then (c as int - 'a' as int + 10)
    else (c as int - 'A' as int + 10)
  }

  lemma HexValueOfHexChar(n: Nibble)
    ensures IsHexDigit(HexChar(n)) && HexValue(HexChar(n)) == n
  {
  }

  function Hex(ns: seq<Nibble>): (r: string)
    ensures |r| == |ns|
    ensures forall i :: 0 <= i < |r| ==> r[i] == HexChar(ns[i])
  {
    seq(|ns|, i requires 0 <= i < |ns| => HexChar(ns[i]))
  }

  /** `str(u)`: 32 lower-case hex digits grouped 8-4-4-4-12 by hyphens. */
  function ToString(u: Uuid): (r: string)
    ensures |r| == 36
  {
    var n := u.nibbles;
    Hex(n[..8]) + "-" + Hex(n[8..12]) + "-" + Hex(n[12..16]) + "-" + Hex(n[16..20]) + "-" + Hex(n[20..])
  }

  /** `text.replace('-', '')`. */
  function RemoveHyphens(s: string): (r: string)
    ensures |r| <= |s|
  {
    if s == [] then []
    else (if s[0] == '-' then [] else [s[0]]) + RemoveHyphens(s[1..])
  }

  lemma {:induction false} RemoveHyphensAppend(a: string, b: string)
    ensures RemoveHyphens(a + b) == RemoveHyphens(a) + RemoveHyphens(b)
  {
    if a != [] {
      assert (a + b)[1..] == a[1..] + b;
      RemoveHyphensAppend(a[1..], b);
    } else {
      assert a + b == b;
    }
  }

  lemma {:induction false} RemoveHyphensOfHex(ns: seq<Nibble>)
    ensures RemoveHyphens(Hex(ns)) == Hex(ns)
  {
    if ns != [] {
      assert Hex(ns) == [HexChar(ns[0])] + Hex(ns[1..]);
      RemoveHyphensAppend([HexChar(ns[0])], Hex(ns[1..]));
      RemoveHyphensOfHex(ns[1..]);
      assert RemoveHyphens([HexChar(ns[0])]) == [HexChar(ns[0])];
    }
  }

  lemma RemoveHyphensAroundDash(a: string, b: string)
    ensures RemoveHyphens(a + "-" + b) == RemoveHyphens(a) + RemoveHyphens(b)
  {
    RemoveHyphensAppend(a + "-", b);
    RemoveHyphensAppend(a, "-");
    assert RemoveHyphens("-") == [] by {
      assert "-"[1..] == [];
    }
  }

  /** `uuid.UUID(text)` on the forms the model covers: hyphens are dropped and
    * exactly 32 hexadecimal digits must remain; anything else raises
    * "badly formed hexadecimal UUID string" (here: `None`). */
  function Parse(s: string): (r: Option<Uuid>)
    ensures r.Some? <==> |RemoveHyphens(s)| == 32 && forall i :: 0 <= i < 32 ==> IsHexDigit(RemoveHyphens(s)[i])
  {
    var h := RemoveHyphens(s);
    if |h| == 32 && forall i :: 0 <= i < 32 ==> IsHexDigit(h[i]) then
      Some(Uuid(seq(32, i requires 0 <= i < 32 => HexValue(h[i]))))
    else None
  }

  lemma HexAppend(x: seq<Nibble>, y: seq<Nibble>)
    ensures Hex(x + y) == Hex(x) + Hex(y)
  {
  }

  lemma ToStringWithoutHyphens(u: Uuid)
    ensures RemoveHyphens(ToString(u)) == Hex(u.nibbles)
  {
    var n := u.nibbles;
    var a, b, c, d, e := Hex(n[..8]), Hex(n[8..12]), Hex(n[12..16]), Hex(n[16..20]), Hex(n[20..]);
    RemoveHyphensAroundDash(a + "-" + b + "-" + c + "-" + d, e);
    RemoveHyphensAroundDash(a + "-" + b + "-" + c, d);
    RemoveHyphensAroundDash(a + "-" + b, c);
    RemoveHyphensAroundDash(a, b);
    RemoveHyphensOfHex(n[..8]);
    RemoveHyphensOfHex(n[8..12]);
    RemoveHyphensOfHex(n[12..16]);
    RemoveHyphensOfHex(n[16..20]);
    RemoveHyphensOfHex(n[20..]);
    assert RemoveHyphens(ToString(u)) == a + b + c + d + e;
    HexAppend(n[..8], n[8..12]);
    HexAppend(n[..12], n[12..16]);
    HexAppend(n[..16], n[16..20]);
    HexAppend(n[..20], n[20..]);
    assert n[..8] + n[8..12] == n[..12];
    assert n[..12] + n[12..16] == n[..16];
    assert n[..16] + n[16..20] == n[..20];
    assert n[..20] + n[20..] == n;
  }

  /** The identifier the processor writes into the state parses back to the
    * same UUID in the persistence stage. */
  lemma ParseToString(u: Uuid)
    ensures Parse(ToString(u)) == Some(u)
  {
    var n := u.nibbles;
    ToStringWithoutHyphens(u);
    var h := RemoveHyphens(ToString(u));
    forall i | 0 <= i < 32 ensures IsHexDigit(h[i]) && HexValue(h[i]) == n[i] {
      HexValueOfHexChar(n[i]);
    }
    assert Parse(ToString(u)).value.nibbles == n;
  }
}
