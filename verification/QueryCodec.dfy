/** Search queries as URL-safe strings (app/search/compression.py): compressed, base64url without
    padding, and re-padded before decoding (sections 3.2, 4 and 5 of RFC 4648). */
module QueryCodec {
  import opened Options
  import opened Json

  type Byte = x: int | 0 <= x < 256
  type Sextet = x: int | 0 <= x < 64

  // ---------------------------------------------------------------- the alphabet

  function Char(s: Sextet): char {
    if s < 26 then ('A' as int + s) as char
    else if s < 52 then ('a' as int + s - 26) as char
    else if s < 62 then ('0' as int + s - 52) as char
    else if s == 62 then '-'
    else '_'
  }

  /** The decoder first turns '-' and '_' into '+' and '/', and so accepts either. */
  function Value(c: char): Option<Sextet> {
    if 'A' <= c <= 'Z' then Some(c as int - 'A' as int)
    else if 'a' <= c <= 'z' then Some(c as int - 'a' as int + 26)
    else if '0' <= c <= '9' then Some(c as int - '0' as int + 52)
    else if c == '-' || c == '+' then Some(62)
    else if c == '_' || c == '/' then Some(63)
    else None
  }

  // ---------------------------------------------------------------- urlsafe_b64encode

  /** Three bytes as four characters. */
  function Group(a: Byte, b: Byte, c: Byte): string {
    [Char(a / 4), Char(a % 4 * 16 + b / 16), Char(b % 16 * 4 + c / 64), Char(c % 64)]
  }

  function Encode(bytes: seq<Byte>): string {
    if bytes == [] then ""
    else if |bytes| == 1 then [Char(bytes[0] / 4), Char(bytes[0] % 4 * 16), '=', '=']
    else if |bytes| == 2 then
      [Char(bytes[0] / 4), Char(bytes[0] % 4 * 16 + bytes[1] / 16), Char(bytes[1] % 16 * 4), '=']
    else
      Group(bytes[0], bytes[1], bytes[2]) + Encode(bytes[3..])
  }

  /** `rstrip("=")`. */
  function Strip(s: string): (r: string)
    ensures r <= s && (r != [] ==> r[|r| - 1] != '=')
    ensures forall i :: |r| <= i < |s| ==> s[i] == '='
  {
    if s != [] && s[|s| - 1] == '=' then Strip(s[..|s| - 1]) else s
  }

  function Pads(n: nat): (r: string)
    ensures |r| == n && forall c <- r :: c == '='
  {
    seq(n, i => '=')
  }

  /** As many `=` as the length exceeds a multiple of four. */
  function Repad(s: string): string { s + Pads(|s| % 4) }

  // ---------------------------------------------------------------- urlsafe_b64decode

  /** The decoder's state: position in the group of four, bits left over, and padding seen in a row. */
  datatype Decoder = Decoder(position: nat, left: nat, pads: nat)

  const READY := Decoder(0, 0, 0)

  predicate ValidDecoder(d: Decoder) {
    d.position < 4 && d.left < (match d.position case 0 => 1 case 1 => 64 case 2 => 16 case _ => 4)
  }

  /** Takes in one sextet: the byte it completes, if any, and the new state. */
  function Feed(d: Decoder, v: Sextet): (r: (seq<Byte>, Decoder))
    requires ValidDecoder(d)
    ensures ValidDecoder(r.1)
  {
    match d.position
    case 0 => ([], Decoder(1, v, 0))
    case 1 => ([d.left * 4 + v / 16], Decoder(2, v % 16, 0))
    case 2 => ([d.left * 16 + v / 4], Decoder(3, v % 4, 0))
    case _ => ([d.left * 64 + v], READY)
  }

  /** The lenient decoder: it stops at padding that completes a group, skips characters outside the
      alphabet, and fails on a group left open. */
  function Decode(s: string, d: Decoder): Option<seq<Byte>>
    requires ValidDecoder(d)
    decreases |s|
  {
    if s == [] then (if d.position == 0 then Some([]) else None)
    else if s[0] == '=' then
      if d.position >= 2 && d.position + d.pads + 1 >= 4 then Some([])
      else Decode(s[1..], if d.position >= 2 then d.(pads := d.pads + 1) else d)
    else match Value(s[0])
      case None => Decode(s[1..], d)
      case Some(v) =>
        var (out, next) := Feed(d, v);
        match Decode(s[1..], next)
        case None => None
        case Some(rest) => Some(out + rest)
  }

  // ---------------------------------------------------------------- the round trip

  /** The characters that carry data. */
  function Body(bytes: seq<Byte>): string {
    if bytes == [] then ""
    else if |bytes| == 1 then [Char(bytes[0] / 4), Char(bytes[0] % 4 * 16)]
    else if |bytes| == 2 then [Char(bytes[0] / 4), Char(bytes[0] % 4 * 16 + bytes[1] / 16), Char(bytes[1] % 16 * 4)]
    else
      Group(bytes[0], bytes[1], bytes[2]) + Body(bytes[3..])
  }

  /** How many `=` the encoder appends. */
  function PadCount(bytes: seq<Byte>): nat { (3 - |bytes| % 3) % 3 }

  lemma CharValue(s: Sextet)
    ensures Char(s) != '=' && Value(Char(s)) == Some(s)
  {
  }

  /** The URL-safe alphabet (table 2 of RFC 4648): capitals, small letters, digits, '-' and '_'. */
  predicate Listed(v: nat, c: char) {
    || (v < 26 && 'A' <= c <= 'Z' && c as int - 'A' as int == v)
    || (26 <= v < 52 && 'a' <= c <= 'z' && c as int - 'a' as int == v - 26)
    || (52 <= v < 62 && '0' <= c <= '9' && c as int - '0' as int == v - 52)
    || (v == 62 && c == '-') || (v == 63 && c == '_')
  }

  /** The bytes as the digits of a number that goes on from `n`, the most significant first. */
  function NumberOf(n: nat, bytes: seq<Byte>): nat
    decreases |bytes|
  {
    if bytes == [] then n else NumberOf(n * 256 + bytes[0], bytes[1..])
  }

  /** The characters as the digits of a number, by their place in the alphabet. */
  ghost predicate Spells(n: nat, s: string, m: nat)
    decreases |s|
  {
    if s == "" then n == m
    else exists v: nat :: Listed(v, s[0]) && Spells(n * 64 + v, s[1..], m)
  }

  lemma SpellsFirst(n: nat, v: Sextet, s: string, m: nat)
    requires Spells(n * 64 + v, s, m)
    ensures Spells(n, [Char(v)] + s, m)
  {
    var all := [Char(v)] + s;
    assert all[1..] == s;
    assert Listed(v, all[0]) && Spells(n * 64 + v, all[1..], m);
  }

  /** The data characters spell the number that the bytes spell, followed by the zero bits that fill up
      the last character. */
  lemma {:induction false} BodySpells(n: nat, bytes: seq<Byte>)
    ensures Spells(n, Body(bytes), Filled(n, bytes))
    decreases |bytes|
  {
    if |bytes| == 1 {
      OneSpells(n, bytes);
    } else if |bytes| == 2 {
      TwoSpell(n, bytes);
    } else if |bytes| >= 3 {
      BodySpells(Joined(n, bytes[0], bytes[1], bytes[2]), bytes[3..]);
      ThreeBytes(n, bytes);
      GroupSpells(n, bytes[0], bytes[1], bytes[2], Body(bytes[3..]), Filled(n, bytes));
    }
  }

  /** The number with the zero bits behind it that fill up its last sextet. */
  function Filled(n: nat, bytes: seq<Byte>): nat {
    if |bytes| % 3 == 0 then NumberOf(n, bytes)
    else if |bytes| % 3 == 1 then NumberOf(n, bytes) * 16
    else NumberOf(n, bytes) * 4
  }

  function Joined(n: nat, a: Byte, b: Byte, c: Byte): nat { ((n * 256 + a) * 256 + b) * 256 + c }

  lemma {:induction false} ThreeBytes(n: nat, bytes: seq<Byte>)
    requires |bytes| >= 3
    ensures NumberOf(n, bytes) == NumberOf(Joined(n, bytes[0], bytes[1], bytes[2]), bytes[3..])
    ensures Filled(n, bytes) == Filled(Joined(n, bytes[0], bytes[1], bytes[2]), bytes[3..])
  {
    var a, b := bytes[1..], bytes[2..];
    assert a[1..] == b && b[1..] == bytes[3..] && a[0] == bytes[1] && b[0] == bytes[2];
    assert NumberOf(n, bytes) == NumberOf(n * 256 + bytes[0], a);
    assert NumberOf(n * 256 + bytes[0], a) == NumberOf((n * 256 + bytes[0]) * 256 + bytes[1], b);
  }

  lemma OneSpells(n: nat, bytes: seq<Byte>)
    requires |bytes| == 1
    ensures Spells(n, Body(bytes), NumberOf(n, bytes) * 16)
  {
    var a, b := bytes[0] / 4, bytes[0] % 4 * 16;
    assert NumberOf(n, bytes) == n * 256 + bytes[0];
    assert Spells((n * 64 + a) * 64 + b, "", NumberOf(n, bytes) * 16);
    SpellsFirst(n * 64 + a, b, "", NumberOf(n, bytes) * 16);
    SpellsFirst(n, a, [Char(b)] + "", NumberOf(n, bytes) * 16);
    assert [Char(a)] + ([Char(b)] + "") == Body(bytes);
  }

  lemma TwoSpell(n: nat, bytes: seq<Byte>)
    requires |bytes| == 2
    ensures Spells(n, Body(bytes), NumberOf(n, bytes) * 4)
  {
    var a, b, c := bytes[0] / 4, bytes[0] % 4 * 16 + bytes[1] / 16, bytes[1] % 16 * 4;
    assert bytes[1..][1..] == [];
    assert NumberOf(n, bytes) == NumberOf(n * 256 + bytes[0], bytes[1..]) == (n * 256 + bytes[0]) * 256 + bytes[1];
    var m := NumberOf(n, bytes) * 4;
    assert Spells(((n * 64 + a) * 64 + b) * 64 + c, "", m);
    SpellsFirst((n * 64 + a) * 64 + b, c, "", m);
    SpellsFirst(n * 64 + a, b, [Char(c)] + "", m);
    SpellsFirst(n, a, [Char(b)] + ([Char(c)] + ""), m);
    assert [Char(a)] + ([Char(b)] + ([Char(c)] + "")) == Body(bytes);
  }

  lemma GroupDigits(n: nat, a: Byte, b: Byte, c: Byte)
    ensures (((n * 64 + a / 4) * 64 + (a % 4 * 16 + b / 16)) * 64 + (b % 16 * 4 + c / 64)) * 64 + c % 64
            == Joined(n, a, b, c)
  {
  }

  lemma GroupSpells(n: nat, a: Byte, b: Byte, c: Byte, rest: string, m: nat)
    requires Spells(Joined(n, a, b, c), rest, m)
    ensures Spells(n, Group(a, b, c) + rest, m)
  {
    var w, x, y, z := a / 4, a % 4 * 16 + b / 16, b % 16 * 4 + c / 64, c % 64;
    GroupDigits(n, a, b, c);
    PairSpells((n * 64 + w) * 64 + x, y, z, rest, m);
    PairSpells(n, w, x, [Char(y), Char(z)] + rest, m);
    assert [Char(w), Char(x)] + ([Char(y), Char(z)] + rest) == Group(a, b, c) + rest;
  }

  lemma PairSpells(n: nat, v: Sextet, w: Sextet, rest: string, m: nat)
    requires Spells((n * 64 + v) * 64 + w, rest, m)
    ensures Spells(n, [Char(v), Char(w)] + rest, m)
  {
    SpellsFirst(n * 64 + v, w, rest, m);
    SpellsFirst(n, v, [Char(w)] + rest, m);
    assert [Char(v)] + ([Char(w)] + rest) == [Char(v), Char(w)] + rest;
  }

  lemma {:induction false} EncodeIsBodyAndPads(bytes: seq<Byte>)
    ensures Encode(bytes) == Body(bytes) + Pads(PadCount(bytes))
  {
    if |bytes| >= 3 {
      EncodeIsBodyAndPads(bytes[3..]);
      LongIsBodyAndPads(bytes);
    } else {
      ShortIsBodyAndPads(bytes);
    }
  }

  lemma {:induction false} LongIsBodyAndPads(bytes: seq<Byte>)
    requires |bytes| >= 3 && Encode(bytes[3..]) == Body(bytes[3..]) + Pads(PadCount(bytes[3..]))
    ensures Encode(bytes) == Body(bytes) + Pads(PadCount(bytes))
  {
    assert PadCount(bytes) == PadCount(bytes[3..]);
    RegroupOne(Group(bytes[0], bytes[1], bytes[2]), Body(bytes[3..]), Pads(PadCount(bytes)));
  }

  lemma {:induction false} ShortIsBodyAndPads(bytes: seq<Byte>)
    requires |bytes| < 3
    ensures Encode(bytes) == Body(bytes) + Pads(PadCount(bytes))
  {
    assert PadCount(bytes) == if |bytes| == 0 then 0 else 3 - |bytes|;
    if |bytes| == 1 {
      TwoPads(Char(bytes[0] / 4), Char(bytes[0] % 4 * 16));
    } else if |bytes| == 2 {
      OnePad(Char(bytes[0] / 4), Char(bytes[0] % 4 * 16 + bytes[1] / 16), Char(bytes[1] % 16 * 4));
    }
  }

  lemma TwoPads(a: char, b: char)
    ensures [a, b, '=', '='] == [a, b] + Pads(2)
  {
  }

  lemma OnePad(a: char, b: char, c: char)
    ensures [a, b, c, '='] == [a, b, c] + Pads(1)
  {
  }

  lemma GroupShape(a: Byte, b: Byte, c: Byte)
    ensures forall x <- Group(a, b, c) :: x != '='
  {
    CharValue(a / 4);
    CharValue(a % 4 * 16 + b / 16);
    CharValue(b % 16 * 4 + c / 64);
    CharValue(c % 64);
  }

  lemma {:induction false} BodyHasNoPads(bytes: seq<Byte>)
    ensures forall c <- Body(bytes) :: c != '='
  {
    if |bytes| >= 3 {
      GroupShape(bytes[0], bytes[1], bytes[2]);
      BodyHasNoPads(bytes[3..]);
    } else if |bytes| == 2 {
      CharValue(bytes[0] / 4);
      CharValue(bytes[0] % 4 * 16 + bytes[1] / 16);
      CharValue(bytes[1] % 16 * 4);
    } else if |bytes| == 1 {
      CharValue(bytes[0] / 4);
      CharValue(bytes[0] % 4 * 16);
    }
  }

  lemma {:induction false} BodyLength(bytes: seq<Byte>)
    ensures |Body(bytes)| == |bytes| / 3 * 4 + (match |bytes| % 3 case 0 => 0 case 1 => 2 case _ => 3)
  {
    if |bytes| >= 3 { BodyLength(bytes[3..]); }
  }

  /** No padding inside, and a length that leaves 0, 2 or 3 modulo four. */
  lemma BodyShape(bytes: seq<Byte>)
    ensures forall c <- Body(bytes) :: c != '='
    ensures |Body(bytes)| % 4 == (match |bytes| % 3 case 0 => 0 case 1 => 2 case _ => 3)
  {
    BodyHasNoPads(bytes);
    BodyLength(bytes);
    LeavesOver(|bytes| / 3, match |bytes| % 3 case 0 => 0 case 1 => 2 case _ => 3);
  }

  lemma LeavesOver(groups: nat, k: nat)
    requires k < 4
    ensures (groups * 4 + k) % 4 == k
  {
  }

  lemma {:induction false} StripPads(s: string, n: nat)
    requires s == [] || s[|s| - 1] != '='
    ensures Strip(s + Pads(n)) == s
  {
    var padded := s + Pads(n);
    if n == 0 {
      assert padded == s;
    } else {
      assert padded[..|padded| - 1] == s + Pads(n - 1);
      StripPads(s, n - 1);
    }
  }

  /** Stripping removes exactly the padding. */
  lemma StripLeavesBody(bytes: seq<Byte>)
    ensures Strip(Encode(bytes)) == Body(bytes)
  {
    EncodeIsBodyAndPads(bytes);
    BodyShape(bytes);
    var body := Body(bytes);
    if body != [] { assert body[|body| - 1] in body; }
    StripPads(body, PadCount(bytes));
  }

  /** Bytes in front of a result. */
  function Emit(out: seq<Byte>, r: Option<seq<Byte>>): Option<seq<Byte>> {
    if r.None? then None else Some(out + r.value)
  }

  lemma EmitTwice(a: seq<Byte>, b: seq<Byte>, r: Option<seq<Byte>>)
    ensures Emit(a, Emit(b, r)) == Emit(a + b, r)
  {
    if r.Some? { assert a + (b + r.value) == a + b + r.value; }
  }

  lemma DecodeOne(s: string, d: Decoder, v: Sextet)
    requires ValidDecoder(d)
    ensures Decode([Char(v)] + s, d) == Emit(Feed(d, v).0, Decode(s, Feed(d, v).1))
  {
    CharValue(v);
    assert ([Char(v)] + s)[1..] == s;
  }

  /** The first two sextets of a group give its first byte. */
  lemma DecodeTwo(v0: Sextet, v1: Sextet, s: string)
    ensures Decode([Char(v0), Char(v1)] + s, READY) == Emit([v0 * 4 + v1 / 16], Decode(s, Decoder(2, v1 % 16, 0)))
  {
    assert [Char(v0), Char(v1)] + s == [Char(v0)] + ([Char(v1)] + s);
    DecodeOne([Char(v1)] + s, READY, v0);
    DecodeOne(s, Decoder(1, v0, 0), v1);
    EmitTwice([], [v0 * 4 + v1 / 16], Decode(s, Decoder(2, v1 % 16, 0)));
    assert [] + [v0 * 4 + v1 / 16] == [v0 * 4 + v1 / 16];
  }

  /** One more sextet after those read so far. */
  lemma DecodeNext(front: string, out: seq<Byte>, d: Decoder, v: Sextet, s: string)
    requires ValidDecoder(d) && Decode(front + ([Char(v)] + s), READY) == Emit(out, Decode([Char(v)] + s, d))
    ensures Decode(front + [Char(v)] + s, READY) == Emit(out + Feed(d, v).0, Decode(s, Feed(d, v).1))
  {
    RegroupOne(front, [Char(v)], s);
    DecodeOne(s, d, v);
    EmitTwice(out, Feed(d, v).0, Decode(s, Feed(d, v).1));
  }

  lemma DecodeThree(v0: Sextet, v1: Sextet, v2: Sextet, s: string)
    ensures Decode([Char(v0), Char(v1), Char(v2)] + s, READY)
         == Emit([v0 * 4 + v1 / 16, v1 % 16 * 16 + v2 / 4], Decode(s, Decoder(3, v2 % 4, 0)))
  {
    DecodeTwo(v0, v1, [Char(v2)] + s);
    DecodeNext([Char(v0), Char(v1)], [v0 * 4 + v1 / 16], Decoder(2, v1 % 16, 0), v2, s);
    assert [Char(v0), Char(v1)] + [Char(v2)] == [Char(v0), Char(v1), Char(v2)];
    assert [v0 * 4 + v1 / 16] + [v1 % 16 * 16 + v2 / 4] == [v0 * 4 + v1 / 16, v1 % 16 * 16 + v2 / 4];
  }

  /** The sextet that completes a group. */
  lemma DecodeLast(front: string, out: seq<Byte>, left: nat, v: Sextet, s: string)
    requires left < 4
    requires Decode(front + ([Char(v)] + s), READY) == Emit(out, Decode([Char(v)] + s, Decoder(3, left, 0)))
    ensures Decode(front + [Char(v)] + s, READY) == Emit(out + [left * 64 + v], Decode(s, READY))
  {
    DecodeNext(front, out, Decoder(3, left, 0), v, s);
  }

  lemma DecodeFour(v0: Sextet, v1: Sextet, v2: Sextet, v3: Sextet, s: string)
    ensures Decode([Char(v0), Char(v1), Char(v2), Char(v3)] + s, READY)
         == Emit([v0 * 4 + v1 / 16, v1 % 16 * 16 + v2 / 4, v2 % 4 * 64 + v3], Decode(s, READY))
  {
    var a, b, c := v0 * 4 + v1 / 16, v1 % 16 * 16 + v2 / 4, v2 % 4 * 64 + v3;
    DecodeThree(v0, v1, v2, [Char(v3)] + s);
    DecodeLast([Char(v0), Char(v1), Char(v2)], [a, b], v2 % 4, v3, s);
    assert [Char(v0), Char(v1), Char(v2)] + [Char(v3)] == [Char(v0), Char(v1), Char(v2), Char(v3)];
    assert [a, b] + [c] == [a, b, c];
  }

  /** Splitting three bytes into sextets and joining them again. */
  lemma Bits(a: Byte, b: Byte, c: Byte)
    ensures var v0, v1, v2, v3 := a / 4, a % 4 * 16 + b / 16, b % 16 * 4 + c / 64, c % 64;
            v0 * 4 + v1 / 16 == a && v1 % 16 * 16 + v2 / 4 == b && v2 % 4 * 64 + v3 == c
  {
    assert (a % 4 * 16 + b / 16) / 16 == a % 4 && (a % 4 * 16 + b / 16) % 16 == b / 16;
    assert (b % 16 * 4 + c / 64) / 4 == b % 16 && (b % 16 * 4 + c / 64) % 4 == c / 64;
  }

  /** A full group of four gives its three bytes back. */
  lemma DecodeGroup(a: Byte, b: Byte, c: Byte, s: string)
    ensures Decode(Group(a, b, c) + s, READY) == Emit([a, b, c], Decode(s, READY))
  {
    DecodeFour(a / 4, a % 4 * 16 + b / 16, b % 16 * 4 + c / 64, c % 64, s);
    Bits(a, b, c);
  }

  lemma DecodePads(d: Decoder, n: nat)
    requires ValidDecoder(d) && d.pads == 0
    requires d.position == 0 || (d.position >= 2 && d.position + n >= 4)
    ensures Decode(Pads(n), d) == Some([])
  {
    if d.position == 0 {
      if n > 0 {
        assert Pads(n)[1..] == Pads(n - 1);
        DecodePads(d, n - 1);
      }
    } else if d.position == 2 {
      assert Pads(n)[1..] == Pads(n - 1);
      assert Pads(n - 1)[0] == '=';
    }
  }

  /** Decoding succeeds on the stripped text as soon as enough padding follows it. */
  lemma {:induction false} DecodeBody(bytes: seq<Byte>, n: nat)
    requires n >= PadCount(bytes)
    ensures Decode(Body(bytes) + Pads(n), READY) == Some(bytes)
  {
    if |bytes| >= 3 {
      DecodeBody(bytes[3..], n);
      MoreGroups(bytes, Pads(n));
    } else if |bytes| == 2 {
      assert bytes == [bytes[0], bytes[1]];
      TailOfTwo(bytes[0], bytes[1], n);
    } else if |bytes| == 1 {
      assert bytes == [bytes[0]];
      TailOfOne(bytes[0], n);
    } else {
      TailOfNone(n);
    }
  }

  lemma MoreGroups(bytes: seq<Byte>, s: string)
    requires |bytes| >= 3 && Decode(Body(bytes[3..]) + s, READY) == Some(bytes[3..])
    ensures Decode(Body(bytes) + s, READY) == Some(bytes)
  {
    var group := Group(bytes[0], bytes[1], bytes[2]);
    assert Body(bytes) == group + Body(bytes[3..]);
    RegroupOne(group, Body(bytes[3..]), s);
    DecodeGroup(bytes[0], bytes[1], bytes[2], Body(bytes[3..]) + s);
    assert [bytes[0], bytes[1], bytes[2]] + bytes[3..] == bytes;
  }

  lemma TailOfNone(n: nat)
    ensures Decode(Body([]) + Pads(n), READY) == Some([])
  {
    assert Body([]) + Pads(n) == Pads(n);
    DecodePads(READY, n);
  }

  lemma TailOfOne(a: Byte, n: nat)
    requires n >= 2
    ensures Decode(Body([a]) + Pads(n), READY) == Some([a])
  {
    var v0, v1 := a / 4, a % 4 * 16;
    DecodeTwo(v0, v1, Pads(n));
    assert v1 % 16 == 0 && v0 * 4 + v1 / 16 == a;
    DecodePads(Decoder(2, 0, 0), n);
    assert [a] + [] == [a];
  }

  lemma TailOfTwo(a: Byte, b: Byte, n: nat)
    requires n >= 1
    ensures Decode(Body([a, b]) + Pads(n), READY) == Some([a, b])
  {
    assert Body([a, b]) == [Char(a / 4), Char(a % 4 * 16 + b / 16), Char(b % 16 * 4)];
    TextOfTwo(a, b, Pads(n));
    DecodePads(Decoder(3, 0, 0), n);
    assert [a, b] + [] == [a, b];
  }

  lemma TextOfTwo(a: Byte, b: Byte, s: string)
    ensures Decode([Char(a / 4), Char(a % 4 * 16 + b / 16), Char(b % 16 * 4)] + s, READY)
         == Emit([a, b], Decode(s, Decoder(3, 0, 0)))
  {
    var v0, v1, v2 := a / 4, a % 4 * 16 + b / 16, b % 16 * 4;
    DecodeThree(v0, v1, v2, s);
    assert v2 % 4 == 0 && v2 / 4 == b % 16;
    assert v1 / 16 == a % 4 && v1 % 16 == b / 16;
  }

  /** Stripping and the unusual re-padding lose nothing: `len % 4` is 0, 2 or 3, never too few. */
  lemma CodecRoundTrip(bytes: seq<Byte>)
    ensures Decode(Repad(Strip(Encode(bytes))), READY) == Some(bytes)
  {
    StripLeavesBody(bytes);
    BodyShape(bytes);
    DecodeBody(bytes, |Body(bytes)| % 4);
  }

  /** The re-padding is the standard one exactly when the byte count does not leave 2 modulo three;
      otherwise it is two characters too long, which only a lenient decoder accepts. */
  lemma RepaddingIsStandardExactly(bytes: seq<Byte>)
    ensures Repad(Strip(Encode(bytes))) == Encode(bytes) <==> |bytes| % 3 != 2
  {
    StripLeavesBody(bytes);
    BodyShape(bytes);
    EncodeIsBodyAndPads(bytes);
    PaddingDiffers(|bytes| % 3, |Body(bytes)| % 4, PadCount(bytes));
    SamePadding(Body(bytes), |Body(bytes)| % 4, PadCount(bytes));
  }

  lemma PaddingDiffers(k: nat, n: nat, m: nat)
    requires k < 3 && n == (match k case 0 => 0 case 1 => 2 case _ => 3) && m == (3 - k) % 3
    ensures n == m <==> k != 2
  {
  }

  lemma SamePadding(body: string, n: nat, m: nat)
    ensures body + Pads(n) == body + Pads(m) <==> n == m
  {
    if n != m { assert |body + Pads(n)| != |body + Pads(m)|; }
  }

  // ---------------------------------------------------------------- queries

  /** Brotli, as far as this code relies on it. */
  datatype Compressor = Compressor(compress: seq<Byte> -> seq<Byte>, decompress: seq<Byte> -> Option<seq<Byte>>)

  ghost predicate Lossless(c: Compressor) { forall q :: c.decompress(c.compress(q)) == Some(q) }

  function CompressQuery(c: Compressor, q: seq<Byte>): string { Strip(Encode(c.compress(q))) }

  function DecompressQuery(c: Compressor, s: string): Option<seq<Byte>> {
    match Decode(Repad(s), READY)
    case None => None
    case Some(compressed) => c.decompress(compressed)
  }

  lemma QueryRoundTrip(c: Compressor, q: seq<Byte>)
    requires Lossless(c)
    ensures DecompressQuery(c, CompressQuery(c, q)) == Some(q)
  {
    CodecRoundTrip(c.compress(q));
  }

  // ---------------------------------------------------------------- queries given as JSON

  predicate Ascii(s: string) { forall i :: 0 <= i < |s| ==> (s[i] as int) < 128 }

  /** UTF-8 on ASCII text: one byte per character. */
  function ToBytes(s: string): seq<Byte>
    requires Ascii(s)
  {
    seq(|s|, i requires 0 <= i < |s| => s[i] as int)
  }

  /** The reverse; bytes above 127 do not occur in what `dumps` writes. */
  function FromBytes(bytes: seq<Byte>): string {
    seq(|bytes|, i requires 0 <= i < |bytes| => bytes[i] as char)
  }

  lemma JoinAscii(a: string, b: string)
    requires Ascii(a) && Ascii(b)
    ensures Ascii(a + b)
  {
  }

  lemma HexIsAscii(n: nat)
    requires n < 0x10000
    ensures Ascii(UnicodeEscape(n))
  {
    assert forall i :: 0 <= i < |HEX| ==> (HEX[i] as int) < 128;
    assert Ascii(Hex4(n));
    JoinAscii("\\u", Hex4(n));
  }

  lemma EscapeCharIsAscii(c: char)
    ensures Ascii(EscapeChar(c))
  {
    if ShortEscape(c) == ' ' && !(' ' <= c <= '~') {
      if (c as int) < 0x10000 {
        HexIsAscii(c as int);
      } else {
        HexIsAscii(0xd800 + (c as int - 0x10000) / 0x400);
        HexIsAscii(0xdc00 + (c as int - 0x10000) % 0x400);
      }
    }
  }

  lemma {:induction false} EscapeIsAscii(s: string)
    ensures Ascii(Escape(s))
  {
    if s != [] {
      EscapeCharIsAscii(s[0]);
      EscapeIsAscii(s[1..]);
      JoinAscii(EscapeChar(s[0]), Escape(s[1..]));
    }
  }

  lemma {:induction false} PrintIsAscii(v: Json)
    requires Valid(v)
    ensures Ascii(Print(v))
    decreases v, 1
  {
    match v
    case Str(s) => EscapeIsAscii(s);
    case List(items) => ItemsAreAscii(items);
    case Dict(entries) => EntriesAreAscii(entries);
    case Number(token) => assert forall i :: 0 <= i < |token| ==> IsNumberChar(token[i]);
    case _ =>
  }

  lemma {:induction false} ItemsAreAscii(items: seq<Json>)
    requires forall x <- items :: Valid(x)
    ensures Ascii(PrintItems(items))
    decreases items, 0
  {
    if items != [] {
      PrintIsAscii(items[0]);
      ItemsAreAscii(items[1..]);
    }
  }

  lemma {:induction false} EntriesAreAscii(entries: seq<Entry>)
    requires forall e <- entries :: Valid(e.value)
    ensures Ascii(PrintEntries(entries))
    decreases entries, 0
  {
    if entries != [] {
      EntryIsAscii(entries[0]);
      EntriesAreAscii(entries[1..]);
    }
  }

  lemma {:induction false} EntryIsAscii(e: Entry)
    requires Valid(e.value)
    ensures Ascii(PrintEntry(e))
    decreases e, 2
  {
    EscapeIsAscii(e.key);
    PrintIsAscii(e.value);
  }

  function DecompressJson(c: Compressor, s: string): Loaded {
    match DecompressQuery(c, s)
    case None => Malformed
    case Some(bytes) => Loads(FromBytes(bytes))
  }

  /** With `serialized=False` a dictionary comes back as it went in. */
  lemma JsonRoundTrip(c: Compressor, v: Json)
    requires Lossless(c) && Valid(v)
    ensures Ascii(Print(v))
    ensures DecompressJson(c, CompressQuery(c, ToBytes(Print(v)))) == Loaded(v)
  {
    PrintIsAscii(v);
    QueryRoundTrip(c, ToBytes(Print(v)));
    assert FromBytes(ToBytes(Print(v))) == Print(v);
    LoadsDumps(v);
  }
}
