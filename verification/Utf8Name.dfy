// The cgroup-name validator of config/config_parser.hpp against the encoding of RFC 3629.
module Utf8Name {
  import opened Types

  newtype byte = x: int | 0 <= x < 256

  // ---- Section 3 of RFC 3629 ---------------------------------------------------------------------------

  predicate Scalar(c: nat) { c <= 0x10ffff && !(0xd800 <= c <= 0xdfff) }

  // Six bits at a time; section 4 allows the shortest encoding only, which is this one.
  function EncodeOne(c: nat): (r: seq<byte>)
    requires Scalar(c)
  {
    if c < 0x80 then [c as byte]
    else if c < 0x800 then [(0xc0 + c / 64) as byte, (0x80 + c % 64) as byte]
    else if c < 0x10000 then
      [(0xe0 + c / 64 / 64) as byte, (0x80 + c / 64 % 64) as byte, (0x80 + c % 64) as byte]
    else
      [(0xf0 + c / 64 / 64 / 64) as byte, (0x80 + c / 64 / 64 % 64) as byte, (0x80 + c / 64 % 64) as byte, (0x80 + c % 64) as byte]
  }

  predicate UnicodeSpace(c: nat) {
    c == 0x85 || c == 0xa0 || c == 0x1680 || 0x2000 <= c <= 0x200a || c == 0x2028 || c == 0x2029 || c == 0x202f
    || c == 0x205f || c == 0x3000
  }

  predicate Invisible(c: nat) {
    c <= 0x1f || c == 0x7f || UnicodeSpace(c) || 0x200b <= c <= 0x200f || 0x202a <= c <= 0x202e || c == 0x2060
    || 0x2066 <= c <= 0x2069 || c == 0xfeff
  }

  const SLASH: nat := 0x2f
  const BACKSLASH: nat := 0x5c
  const COLON: nat := 0x3a
  const DOT: byte := 0x2e

  predicate Allowed(c: nat) { Scalar(c) && !Invisible(c) && c != SLASH && c != BACKSLASH && c != COLON }

  predicate AllAllowed(cs: seq<nat>) { forall i :: 0 <= i < |cs| ==> Allowed(cs[i]) }

  function Encode(cs: seq<nat>): seq<byte>
    requires AllAllowed(cs)
  {
    if cs == [] then [] else EncodeOne(cs[0]) + Encode(cs[1..])
  }

  ghost predicate Encodes(cs: seq<nat>, s: seq<byte>) { AllAllowed(cs) && Encode(cs) == s }

  ghost predicate Encodable(s: seq<byte>) { exists cs :: Encodes(cs, s) }

  predicate AsciiSpace(b: byte) { b == 0x20 || 9 <= b <= 13 }

  // A name that may be a cgroup directory.
  ghost predicate Safe(name: seq<byte>) {
    && 1 <= |name| <= 128 && name != [DOT] && name != [DOT, DOT]
    && !AsciiSpace(name[0]) && !AsciiSpace(name[|name| - 1])
    && Encodable(name)
  }

  // ---- The decoder -------------------------------------------------------------------------------------

  // The bits a leading byte gives and the width it announces.
  function Lead(b: byte): Option<(nat, nat)> {
    if b < 0x80 then Some((b as nat, 1))
    else if 0xc0 <= b < 0xe0 then Some((b as nat - 0xc0, 2))
    else if 0xe0 <= b < 0xf0 then Some((b as nat - 0xe0, 3))
    else if 0xf0 <= b < 0xf8 then Some((b as nat - 0xf0, 4))
    else None
  }

  // The mask tests and the bit shifts of the decoder in arithmetic.
  lemma MasksAreRanges(b: bv8)
    ensures (b & 0xe0 == 0xc0) <==> 0xc0 <= b < 0xe0
    ensures (b & 0xf0 == 0xe0) <==> 0xe0 <= b < 0xf0
    ensures (b & 0xf8 == 0xf0) <==> 0xf0 <= b < 0xf8
    ensures (b & 0xc0 == 0x80) <==> 0x80 <= b < 0xc0
    ensures 0xc0 <= b < 0xe0 ==> b & 0x1f == b - 0xc0
    ensures 0xe0 <= b < 0xf0 ==> b & 0x0f == b - 0xe0
    ensures 0xf0 <= b < 0xf8 ==> b & 0x07 == b - 0xf0
    ensures 0x80 <= b < 0xc0 ==> b & 0x3f == b - 0x80
  {
  }

  lemma ShiftsAreProducts(c: bv32, low: bv32)
    requires c < 0x8000 && low < 0x40
    ensures (c << 6) | low == c * 64 + low
  {
  }

  predicate Continuation(b: byte) { 0x80 <= b < 0xc0 }

  function Continue(c: nat, s: seq<byte>): Option<nat>
    decreases |s|
  {
    if s == [] then Some(c)
    else if !Continuation(s[0]) then None
    else Continue(c * 64 + (s[0] as nat - 0x80), s[1..])
  }

  lemma {:induction false} ContinueOne(c: nat, x: byte)
    ensures Continue(c, [x]) == if Continuation(x) then Some(c * 64 + (x as nat - 0x80)) else None
  {
  }

  lemma {:induction false} ContinueTwo(c: nat, x: byte, y: byte)
    ensures Continue(c, [x, y]) ==
      if Continuation(x) && Continuation(y)
      then Some((c * 64 + (x as nat - 0x80)) * 64 + (y as nat - 0x80)) else None
  {
    assert [x, y][1..] == [y];
    if Continuation(x) { ContinueOne(c * 64 + (x as nat - 0x80), y); }
  }

  lemma {:induction false} ContinueThree(c: nat, x: byte, y: byte, z: byte)
    ensures Continue(c, [x, y, z]) ==
      if Continuation(x) && Continuation(y) && Continuation(z)
      then Some(((c * 64 + (x as nat - 0x80)) * 64 + (y as nat - 0x80)) * 64 + (z as nat - 0x80)) else None
  {
    assert [x, y, z][1..] == [y, z];
    if Continuation(x) { ContinueTwo(c * 64 + (x as nat - 0x80), y, z); }
  }

  // The code point at the front of `s` and its width.
  function Front(s: seq<byte>): Option<(nat, nat)>
    requires s != []
  {
    var lead := Lead(s[0]);
    if lead.None? || |s| < lead.value.1 then None else
    var c := Continue(lead.value.0, s[1..lead.value.1]);
    if c.None? then None else Some((c.value, lead.value.1))
  }

  predicate Overlong(c: nat, width: nat) {
    (width == 2 && c < 0x80) || (width == 3 && c < 0x800) || (width == 4 && c < 0x10000)
  }

  predicate Accepts(c: nat, width: nat) { !Overlong(c, width) && Allowed(c) }

  function Taken(ok: bool, c: int, width: nat): Option<(nat, nat)> {
    if ok && c >= 0 then Some((c, width)) else None
  }

  function Bits(b: byte): int { b as int - 0x80 }

  lemma FrontCases(s: seq<byte>)
    requires s != [] && Lead(s[0]).Some? && |s| >= Lead(s[0]).value.1
    ensures var (c, w) := Lead(s[0]).value;
      && (w == 1 ==> Front(s) == Some((c, 1)))
      && (w == 2 ==> Front(s) == Taken(Continuation(s[1]), c * 64 + Bits(s[1]), 2))
      && (w == 3 ==> Front(s) == Taken(Continuation(s[1]) && Continuation(s[2]), (c * 64 + Bits(s[1])) * 64 + Bits(s[2]), 3))
      && (w == 4 ==> Front(s) == Taken(Continuation(s[1]) && Continuation(s[2]) && Continuation(s[3]),
                                       ((c * 64 + Bits(s[1])) * 64 + Bits(s[2])) * 64 + Bits(s[3]), 4))
  {
    hide Continue, Continuation;
    var (c, w) := Lead(s[0]).value;
    if w == 1 {
      assert s[1..1] == [];
      ContinueNone(c);
    } else if w == 2 {
      assert s[1..2] == [s[1]];
      ContinueOne(c, s[1]);
    } else if w == 3 {
      assert s[1..3] == [s[1], s[2]];
      ContinueTwo(c, s[1], s[2]);
    } else {
      assert s[1..4] == [s[1], s[2], s[3]];
      ContinueThree(c, s[1], s[2], s[3]);
    }
  }

  lemma {:induction false} ContinueNone(c: nat)
    ensures Continue(c, []) == Some(c)
  {
  }

  lemma Join(high: nat, low: nat)
    requires low < 64
    ensures (high * 64 + low) / 64 == high && (high * 64 + low) % 64 == low
  {
  }

  // What is decoded, if not overlong, is what would be encoded.
  lemma FrontSound(s: seq<byte>)
    requires s != [] && Front(s).Some? && !Overlong(Front(s).value.0, Front(s).value.1) && Scalar(Front(s).value.0)
    ensures var (c, w) := Front(s).value; w <= |s| && EncodeOne(c) == s[..w]
  {
    hide Front;
    FrontLead(s);
    FrontCases(s);
    var (c, w) := Front(s).value;
    var x := Lead(s[0]).value.0;
    if w >= 2 {
      var a := s[1] as nat - 0x80;
      Join(x, a);
      if w >= 3 {
        var b := s[2] as nat - 0x80;
        Join(x * 64 + a, b);
        if w == 4 { Join((x * 64 + a) * 64 + b, s[3] as nat - 0x80); }
      }
    }
  }

  lemma FrontLead(s: seq<byte>)
    requires s != [] && Front(s).Some?
    ensures Lead(s[0]).Some? && |s| >= Lead(s[0]).value.1 == Front(s).value.1
  {
  }

  // What is encoded is what is decoded.
  lemma FrontComplete(s: seq<byte>, c: nat)
    requires Scalar(c) && EncodeOne(c) <= s
    ensures Front(s) == Some((c, |EncodeOne(c)|)) && !Overlong(c, |EncodeOne(c)|)
  {
    hide Front;
    assert s[0] == EncodeOne(c)[0] && |s| >= |EncodeOne(c)|;
    FrontCases(s);
  }

  // Taking one code point off the front.
  lemma FrontStep(s: seq<byte>)
    requires s != []
    ensures Encodable(s) <==> Front(s).Some? && Accepts(Front(s).value.0, Front(s).value.1) && Encodable(s[Front(s).value.1..])
  {
    hide Front, EncodeOne, Invisible, Overlong, Scalar;
    if Encodable(s) {
      var cs :| Encodes(cs, s);
      assert Allowed(cs[0]);
      var w := |EncodeOne(cs[0])|;
      FrontComplete(s, cs[0]);
      assert Encodes(cs[1..], s[w..]);
    }
    if Front(s).Some? && Accepts(Front(s).value.0, Front(s).value.1) {
      FrontSound(s);
      var (c, w) := Front(s).value;
      if Encodable(s[w..]) {
        var rest :| Encodes(rest, s[w..]);
        assert Encodes([c] + rest, s) by { assert ([c] + rest)[1..] == rest && s == s[..w] + s[w..]; }
      }
    }
  }

  lemma EncodableEmpty()
    ensures Encodable([])
  {
    assert Encodes([], []);
  }

  // is_safe_cgroup_component
  method IsSafe(name: seq<byte>) returns (r: bool)
    ensures r <==> Safe(name)
  {
    hide Front, Invisible, Overlong, Scalar, EncodeOne;
    hide Encodable;
    if name == [] || name == [DOT] || name == [DOT, DOT] || |name| > 128 { return false; }
    if AsciiSpace(name[0]) || AsciiSpace(name[|name| - 1]) { return false; }
    var offset := 0;
    assert name[0..] == name;
    while offset < |name|
      invariant 0 <= offset <= |name| && (Encodable(name) <==> Encodable(name[offset..]))
    {
      FrontStep(name[offset..]);
      var at := DecodeAt(name, offset);
      if at.None? { return false; }
      var (codepoint, width) := at.value;
      var accepted := IsAccepted(codepoint, width);
      if !accepted { return false; }
      assert name[offset..][width..] == name[offset + width..];
      offset := offset + width;
    }
    EncodableEmpty();
    assert name[offset..] == [];
    return true;
  }

  method IsAccepted(codepoint: nat, width: nat) returns (r: bool)
    ensures r <==> Accepts(codepoint, width)
  {
    var overlong := (width == 2 && codepoint < 0x80) || (width == 3 && codepoint < 0x800) || (width == 4 && codepoint < 0x10000);
    var unicodeSpace := codepoint == 0x85 || codepoint == 0xa0 || codepoint == 0x1680 || (codepoint >= 0x2000 && codepoint <= 0x200a)
      || codepoint == 0x2028 || codepoint == 0x2029 || codepoint == 0x202f || codepoint == 0x205f || codepoint == 0x3000;
    var invisible := codepoint <= 0x1f || codepoint == 0x7f || unicodeSpace || (codepoint >= 0x200b && codepoint <= 0x200f)
      || (codepoint >= 0x202a && codepoint <= 0x202e) || codepoint == 0x2060 || (codepoint >= 0x2066 && codepoint <= 0x2069)
      || codepoint == 0xfeff;
    return !(overlong || codepoint > 0x10ffff || (codepoint >= 0xd800 && codepoint <= 0xdfff) || invisible
             || codepoint == 0x2f || codepoint == 0x5c || codepoint == 0x3a);
  }

  method DecodeAt(name: seq<byte>, offset: nat) returns (r: Option<(nat, nat)>)
    requires offset < |name|
    ensures r == Front(name[offset..])
    ensures r.Some? ==> 1 <= r.value.1 <= |name| - offset
  {
    var lead, s := name[offset], name[offset..];
    var codepoint: nat, width: nat := 0, 0;
    if lead < 0x80 {
      codepoint, width := lead as nat, 1;
    } else if 0xc0 <= lead < 0xe0 && offset + 1 < |name| {
      codepoint, width := lead as nat - 0xc0, 2;
    } else if 0xe0 <= lead < 0xf0 && offset + 2 < |name| {
      codepoint, width := lead as nat - 0xe0, 3;
    } else if 0xf0 <= lead < 0xf8 && offset + 3 < |name| {
      codepoint, width := lead as nat - 0xf0, 4;
    } else {
      return None;
    }
    for index := 1 to width
      invariant Continue(codepoint, s[index..width]) == Continue(Lead(lead).value.0, s[1..width])
    {
      var b := name[offset + index];
      assert s[index..width][0] == b && s[index..width][1..] == s[index + 1..width];
      if !Continuation(b) { return None; }
      codepoint := codepoint * 64 + (b as nat - 0x80);
    }
    return Some((codepoint, width));
  }

  // ---- Names in paths -------------------------------------------------------------------------------------

  predicate Bytewise(name: string) { forall i :: 0 <= i < |name| ==> name[i] as int < 256 }

  function Bytes(name: string): seq<byte>
    requires Bytewise(name)
  {
    seq(|name|, i requires 0 <= i < |name| => name[i] as int as byte)
  }

  ghost predicate SafeName(name: string) { Bytewise(name) && Safe(Bytes(name)) }

  method IsSafeName(name: string) returns (r: bool)
    ensures r <==> SafeName(name)
  {
    if !Bytewise(name) { return false; }
    r := IsSafe(Bytes(name));
  }

  lemma {:induction false} NoSlashByte(cs: seq<nat>)
    requires AllAllowed(cs)
    ensures 0x2f !in Encode(cs)
  {
    if cs != [] {
      NoSlashByte(cs[1..]);
      assert 0x2f !in EncodeOne(cs[0]);
    }
  }

  // A safe name is one path component.
  lemma SafeNameIsComponent(name: string)
    requires SafeName(name)
    ensures name != "" && name != "." && name != ".." && '/' !in name
  {
    var s := Bytes(name);
    var cs :| Encodes(cs, s);
    NoSlashByte(cs);
    forall i | 0 <= i < |name|
      ensures name[i] != '/'
    {
      assert s[i] in s;
    }
    assert name == "." ==> s == [DOT];
    assert name == ".." ==> s == [DOT, DOT];
  }
}
