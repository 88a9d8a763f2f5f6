/** UUIDs as sixteen bytes (section 4 of RFC 9562) and their lowercase text form. */
module Uuids {
  import opened Strings

  type Byte = n: nat | n < 256

  type Uuid = b: seq<Byte> | |b| == 16 witness seq(16, i => 0)

  function Hex(d: nat): char
    requires d < 16
  {
    if d < 10 then '0' + d as char else 'a' + (d - 10) as char
  }

  function HexPair(b: Byte): string {
    [Hex(b / 16), Hex(b % 16)]
  }

  function Dash(i: nat): string {
    if i == 4 || i == 6 || i == 8 || i == 10 then "-" else ""
  }

  /** uuid.UUID.String(): dashes after bytes 4, 6, 8 and 10. */
  function TextFrom(u: Uuid, i: nat): string
    requires i <= 16
    decreases 16 - i
  {
    if i == 16 then ""
    else Dash(i) + (HexPair(u[i]) + TextFrom(u, i + 1))
  }

  function Text(u: Uuid): (s: string)
  {
    TextFrom(u, 0)
  }

  /** PostgreSQL's < on the uuid type: bytewise. */
  predicate BytesLessFrom(u: Uuid, v: Uuid, i: nat)
    requires i <= 16
    decreases 16 - i
  {
    i < 16 && (u[i] < v[i] || (u[i] == v[i] && BytesLessFrom(u, v, i + 1)))
  }

  predicate BytesLess(u: Uuid, v: Uuid) {
    BytesLessFrom(u, v, 0)
  }

  lemma {:induction false} CommonPrefix(p: string, s: string, t: string)
    ensures TextLess(p + s, p + t) <==> TextLess(s, t)
  {
    if p == "" {
      assert p + s == s && p + t == t;
    } else {
      assert (p + s)[1..] == p[1..] + s && (p + t)[1..] == p[1..] + t;
      CommonPrefix(p[1..], s, t);
    }
  }

  lemma HexOrder(d: nat, e: nat)
    requires d < 16 && e < 16
    ensures Hex(d) < Hex(e) <==> d < e
    ensures Hex(d) == Hex(e) <==> d == e
  {
  }

  /** Two hex digits compare like the byte they spell. */
  lemma HexPairOrder(a: Byte, b: Byte, s: string, t: string)
    ensures TextLess(HexPair(a) + s, HexPair(b) + t) <==> a < b || (a == b && TextLess(s, t))
  {
    HexOrder(a / 16, b / 16);
    HexOrder(a % 16, b % 16);
    var x, y := HexPair(a) + s, HexPair(b) + t;
    assert x[1..] == [Hex(a % 16)] + s && y[1..] == [Hex(b % 16)] + t;
    assert x[1..][1..] == s && y[1..][1..] == t;
  }

  lemma PieceOrder(dash: string, a: Byte, b: Byte, s: string, t: string)
    ensures TextLess(dash + (HexPair(a) + s), dash + (HexPair(b) + t)) <==> a < b || (a == b && TextLess(s, t))
  {
    CommonPrefix(dash, HexPair(a) + s, HexPair(b) + t);
    HexPairOrder(a, b, s, t);
  }

  lemma {:induction false} TextOrderFrom(u: Uuid, v: Uuid, i: nat)
    requires i <= 16
    ensures TextLess(TextFrom(u, i), TextFrom(v, i)) <==> BytesLessFrom(u, v, i)
    decreases 16 - i
  {
    if i < 16 {
      PieceOrder(Dash(i), u[i], v[i], TextFrom(u, i + 1), TextFrom(v, i + 1));
      TextOrderFrom(u, v, i + 1);
    }
  }

  /** Comparing the texts of two UUIDs is comparing their bytes. */
  lemma TextOrderIsByteOrder(u: Uuid, v: Uuid)
    ensures TextLess(Text(u), Text(v)) <==> BytesLess(u, v)
  {
    TextOrderFrom(u, v, 0);
  }

  lemma {:induction false} BytesTotalFrom(u: Uuid, v: Uuid, i: nat)
    requires i <= 16
    ensures BytesLessFrom(u, v, i) || BytesLessFrom(v, u, i) || u[i..] == v[i..]
    ensures !(BytesLessFrom(u, v, i) && BytesLessFrom(v, u, i))
    ensures u[i..] == v[i..] ==> !BytesLessFrom(u, v, i)
    decreases 16 - i
  {
    if i < 16 {
      BytesTotalFrom(u, v, i + 1);
      assert u[i..] == [u[i]] + u[i + 1..] && v[i..] == [v[i]] + v[i + 1..];
      if u[i..] == v[i..] { assert u[i] == u[i..][0] == v[i..][0] && u[i + 1..] == u[i..][1..] == v[i..][1..]; }
    }
  }

  lemma BytesTotal(u: Uuid, v: Uuid)
    ensures u != v ==> (BytesLess(u, v) <==> !BytesLess(v, u))
    ensures u == v ==> !BytesLess(u, v)
  {
    BytesTotalFrom(u, v, 0);
    assert u[0..] == u && v[0..] == v;
  }
}
