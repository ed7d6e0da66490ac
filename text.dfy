/** String helpers shared by several modules: decimal rendering of naturals,
  * joining, substring occurrence and Python's `a or b` on optional strings. */
module Text {
  import opened Wrappers

  predicate IsDigit(c: char) { '0' <= c <= '9' }

  function DigitChar(d: nat): (c: char)
    requires d < 10
    ensures IsDigit(c)
  {
    "0123456789"[d]
  }

  /** `str(n)` for a natural number: its decimal digits, no leading zero. */
  function NatToString(n: nat): (r: string)
    ensures |r| >= 1
    ensures forall k :: 0 <= k < |r| ==> IsDigit(r[k])
    ensures n < 10 <==> |r| == 1
    decreases n
  {
    if n < 10 then [DigitChar(n)] else NatToString(n / 10) + [DigitChar(n % 10)]
  }

  lemma NatToStringIsOne(n: nat)
    ensures NatToString(n) == "1" <==> n == 1
  {
    if n >= 10 {
      assert |NatToString(n)| >= 2;
    } else {
      assert NatToString(n) == [DigitChar(n)];
      if NatToString(n) == "1" {
        assert "0123456789"[n] == '1';
      }
    }
  }

  /** `sep.join(parts)`. */
  function Join(parts: seq<string>, sep: string): string
  {
    if |parts| == 0 then ""
    else if |parts| == 1 then parts[0]
    else parts[0] + sep + Join(parts[1..], sep)
  }

  /** `needle` occurs in `hay` starting at index `i`. */
  predicate OccursAt(hay: string, needle: string, i: int)
  {
    0 <= i && i + |needle| <= |hay| && hay[i..i + |needle|] == needle
  }

  /** `needle in hay` for strings. */
  predicate Contains(hay: string, needle: string)
  {
    exists i :: 0 <= i <= |hay| && OccursAt(hay, needle, i)
  }

  lemma ContainsMiddle(a: string, b: string, c: string)
    ensures Contains(a + b + c, b)
  {
    assert (a + b + c)[|a|..|a| + |b|] == b;
    assert OccursAt(a + b + c, b, |a|);
  }

  lemma ContainsExtend(a: string, needle: string, b: string)
    requires Contains(a, needle)
    ensures Contains(a + b, needle) && Contains(b + a, needle)
  {
    var i :| 0 <= i <= |a| && OccursAt(a, needle, i);
    assert (a + b)[i..i + |needle|] == a[i..i + |needle|];
    assert OccursAt(a + b, needle, i);
    assert (b + a)[|b| + i..|b| + i + |needle|] == a[i..i + |needle|];
    assert OccursAt(b + a, needle, |b| + i);
  }

  lemma ContainsTransitive(a: string, b: string, c: string)
    requires Contains(a, b) && Contains(b, c)
    ensures Contains(a, c)
  {
    var i :| 0 <= i <= |a| && OccursAt(a, b, i);
    var j :| 0 <= j <= |b| && OccursAt(b, c, j);
    forall t | 0 <= t < |c|
      ensures a[i + j + t] == c[t]
    {
      assert a[i..i + |b|][j + t] == a[i + j + t];
      assert b[j..j + |c|][t] == b[j + t];
    }
    assert a[i + j..i + j + |c|] == c;
    assert OccursAt(a, c, i + j);
  }

  /** Python truthiness of an optional string: neither None nor empty. */
  predicate Truthy(s: Option<string>)
  {
    s.Some? && s.value != ""
  }

  /** Python's `a or b` on optional strings. */
  function Or(a: Option<string>, b: Option<string>): (r: Option<string>)
    ensures Truthy(a) ==> r == a
    ensures !Truthy(a) ==> r == b
  {
    if Truthy(a) then a else b
  }

  /** Python's `a or b` where `b` is a plain string: `a`'s value when it is
    * truthy, otherwise `b`. */
  function OrElse(a: Option<string>, b: string): (r: string)
    ensures Truthy(a) ==> r == a.value
    ensures !Truthy(a) ==> r == b
  {
    if Truthy(a) then a.value else b
  }
}
