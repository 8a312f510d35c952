/**
 * The byte-level and text-level parts of `RouterDiscovery` in
 * router_discovery.py: the Router Solicitation it serialises with
 * `struct.pack('!BBHI', ...)` and `struct.pack('!BB', ...)`, the length and
 * type test it applies to received data, and the search of `ip link` output
 * for the interface index. Sockets and processes are not part of this model.
 */
module RouterDiscovery {
  import opened Wrappers
  import opened Text

  type byte = x: int | 0 <= x < 256
  type uint16 = x: int | 0 <= x < 0x1_0000
  type uint32 = x: int | 0 <= x < 0x1_0000_0000

  /** ICMPv6 message types, RFC 4861 sections 4.1 and 4.2. */
  const RouterSolicitationType: byte := 133
  const RouterAdvertisementType: byte := 134
  /** Source Link-Layer Address option type, RFC 4861 section 4.6.1. */
  const SourceLinkLayerAddressType: byte := 1

  function Pow256(n: nat): (p: nat)
    ensures p > 0
  {
    if n == 0 then 1 else 256 * Pow256(n - 1)
  }

  /** `value` as `width` bytes, most significant first (the `!` byte order of `struct`). */
  function BigEndian(value: nat, width: nat): (b: seq<byte>)
    requires value < Pow256(width)
    ensures |b| == width
  {
    if width == 0 then []
    else BigEndian(value / 256, width - 1) + [value % 256]
  }

  /** The number a sequence of bytes stands for, most significant first. */
  function FromBigEndian(b: seq<byte>): nat {
    if b == [] then 0 else 256 * FromBigEndian(b[..|b| - 1]) + b[|b| - 1]
  }

  lemma {:induction false} FromBigEndianBigEndian(value: nat, width: nat)
    requires value < Pow256(width)
    ensures FromBigEndian(BigEndian(value, width)) == value
  {
    if width > 0 {
      var b := BigEndian(value, width);
      assert b[..|b| - 1] == BigEndian(value / 256, width - 1);
      FromBigEndianBigEndian(value / 256, width - 1);
    }
  }

  lemma {:induction false} FromBigEndianBound(b: seq<byte>)
    ensures FromBigEndian(b) < Pow256(|b|)
  {
    if b != [] {
      FromBigEndianBound(b[..|b| - 1]);
    }
  }

  lemma {:induction false} BigEndianFromBigEndian(b: seq<byte>)
    ensures FromBigEndian(b) < Pow256(|b|)
    ensures BigEndian(FromBigEndian(b), |b|) == b
  {
    FromBigEndianBound(b);
    if b != [] {
      var init := b[..|b| - 1];
      BigEndianFromBigEndian(init);
      FromBigEndianBound(init);
    }
  }

  /** The 8-byte ICMPv6 header the solicitation is built from: `!BBHI`. */
  datatype IcmpHeader = IcmpHeader(msgType: byte, code: byte, checksum: uint16, reserved: uint32)

  function EncodeHeader(h: IcmpHeader): (b: seq<byte>)
    ensures |b| == 8
  {
    assert Pow256(2) == 0x1_0000 && Pow256(4) == 0x1_0000_0000;
    [h.msgType, h.code] + BigEndian(h.checksum, 2) + BigEndian(h.reserved, 4)
  }

  /** Reads the header from the first 8 bytes; shorter data has none. */
  function DecodeHeader(b: seq<byte>): (r: Option<IcmpHeader>)
    ensures r.Some? <==> |b| >= 8
  {
    if |b| < 8 then None
    else
      FromBigEndianBound(b[2..4]);
      FromBigEndianBound(b[4..8]);
      assert Pow256(2) == 0x1_0000 && Pow256(4) == 0x1_0000_0000;
      Some(IcmpHeader(b[0], b[1], FromBigEndian(b[2..4]), FromBigEndian(b[4..8])))
  }

  /** Decoding reads back any encoded header, whatever follows it. */
  lemma HeaderRoundTrip(h: IcmpHeader, rest: seq<byte>)
    ensures DecodeHeader(EncodeHeader(h) + rest) == Some(h)
  {
    assert Pow256(2) == 0x1_0000 && Pow256(4) == 0x1_0000_0000;
    var b := EncodeHeader(h) + rest;
    assert b[2..4] == BigEndian(h.checksum, 2);
    assert b[4..8] == BigEndian(h.reserved, 4);
    FromBigEndianBigEndian(h.checksum, 2);
    FromBigEndianBigEndian(h.reserved, 4);
  }

  /** Encoding the header of 8 bytes gives those bytes back. */
  lemma HeaderRoundTripBytes(b: seq<byte>)
    requires |b| == 8
    ensures DecodeHeader(b).Some? && EncodeHeader(DecodeHeader(b).value) == b
  {
    BigEndianFromBigEndian(b[2..4]);
    BigEndianFromBigEndian(b[4..8]);
    assert b == [b[0], b[1]] + b[2..4] + b[4..8];
  }

  /**
   * `_create_router_solicitation`: the header with type 133 and zero code,
   * checksum and reserved field, then the option type and length bytes of a
   * Source Link-Layer Address option and nothing else.
   */
  function RouterSolicitation(): seq<byte> {
    EncodeHeader(IcmpHeader(RouterSolicitationType, 0, 0, 0)) + [SourceLinkLayerAddressType, 1]
  }

  /** The solicitation is exactly the ten bytes 133, 0, 0, 0, 0, 0, 0, 0, 1, 1. */
  lemma RouterSolicitationBytes()
    ensures RouterSolicitation() == [133, 0, 0, 0, 0, 0, 0, 0, 1, 1]
  {
    assert BigEndian(0, 2) == [0, 0];
    assert BigEndian(0, 4) == [0, 0, 0, 0];
  }

  /** Its first 8 bytes read back as an RFC 4861 section 4.1 header: type 133, code 0, checksum 0, reserved 0. */
  lemma RouterSolicitationHeader()
    ensures DecodeHeader(RouterSolicitation()) == Some(IcmpHeader(133, 0, 0, 0))
  {
    HeaderRoundTrip(IcmpHeader(RouterSolicitationType, 0, 0, 0), [SourceLinkLayerAddressType, 1]);
  }

  /**
   * The option's length byte announces one unit of 8 bytes, but only its two
   * type and length bytes follow the header.
   */
  lemma RouterSolicitationOptionIsShort()
    ensures var rs := RouterSolicitation();
      rs[8] == SourceLinkLayerAddressType && rs[9] == 1 && |rs| - 8 == 2 < 8 * rs[9]
  {
    RouterSolicitationBytes();
  }

  /** `_is_router_advertisement`: at least 8 bytes and type 134 in the first. */
  predicate IsRouterAdvertisement(data: seq<byte>) {
    |data| >= 8 && data[0] == RouterAdvertisementType
  }

  /** The test agrees with decoding the header and looking at its type. */
  lemma RouterAdvertisementIffHeaderType(data: seq<byte>)
    ensures IsRouterAdvertisement(data) <==>
      DecodeHeader(data).Some? && DecodeHeader(data).value.msgType == RouterAdvertisementType
  {
  }

  /** Data shorter than 8 bytes is never an RA, whatever it holds. */
  lemma ShortDataIsNotAdvertisement(data: seq<byte>)
    requires |data| < 8
    ensures !IsRouterAdvertisement(data)
  {
  }

  /** The solicitation this module builds is not taken for an advertisement. */
  lemma SolicitationIsNotAdvertisement()
    ensures !IsRouterAdvertisement(RouterSolicitation())
  {
    RouterSolicitationBytes();
  }

  // ---------------------------------------------------------------------------
  // Interface index from `ip link show dev <name>` output

  datatype IndexError =
    | InterfaceNotFound        // no line holds the name
    | NotAnInteger(text: string)  // `int()` rejects the text before the first ':'

  /** The position of the first line that holds `name`. */
  function FirstLineWith(lines: seq<string>, name: string): (r: Option<nat>)
    ensures r.Some? ==> r.value < |lines| && Contains(lines[r.value], name)
    ensures r.Some? ==> forall i :: 0 <= i < r.value ==> !Contains(lines[i], name)
    ensures r.None? ==> forall i :: 0 <= i < |lines| ==> !Contains(lines[i], name)
  {
    if lines == [] then None
    else if Contains(lines[0], name) then Some(0)
    else match FirstLineWith(lines[1..], name)
      case None => None
      case Some(k) => Some(k + 1)
  }

  /** The index `discover_routers` reads: `int()` of the first matching line's text before its first ':'. */
  function IndexFrom(lines: seq<string>, name: string): Result<int, IndexError> {
    match FirstLineWith(lines, name)
    case None => Failure(InterfaceNotFound)
    case Some(k) =>
      var field := BeforeFirst(lines[k], ':');
      match ParseInt(field)
      case None => Failure(NotAnInteger(field))
      case Some(n) => Success(n)
  }

  /** The `for`/`else` loop with `break` over the output lines. */
  method InterfaceIndex(lines: seq<string>, name: string) returns (r: Result<int, IndexError>)
    ensures r == IndexFrom(lines, name)
  {
    var i := 0;
    while i < |lines|
      invariant 0 <= i <= |lines|
      invariant forall j :: 0 <= j < i ==> !Contains(lines[j], name)
    {
      if Contains(lines[i], name) {
        var field := BeforeFirst(lines[i], ':');
        var n := ParseInt(field);
        if n.None? {
          return Failure(NotAnInteger(field));
        }
        return Success(n.value);
      }
      i := i + 1;
    }
    return Failure(InterfaceNotFound);
  }

  /** Not found exactly when no line holds the name. */
  lemma NotFoundIffNoLineMatches(lines: seq<string>, name: string)
    ensures IndexFrom(lines, name) == Failure(InterfaceNotFound) <==>
      forall i :: 0 <= i < |lines| ==> !Contains(lines[i], name)
  {
    if IndexFrom(lines, name) != Failure(InterfaceNotFound) {
      var k := FirstLineWith(lines, name).value;
      assert Contains(lines[k], name);
    }
  }

  /** The first line holding the name decides; the lines after it are never read. */
  lemma FirstMatchDecides(lines: seq<string>, name: string, k: nat, later: seq<string>)
    requires k < |lines| && Contains(lines[k], name)
    requires forall i :: 0 <= i < k ==> !Contains(lines[i], name)
    ensures FirstLineWith(lines, name) == Some(k)
    ensures IndexFrom(lines + later, name) == IndexFrom(lines, name)
  {
    FirstLineWithIs(lines, name, k);
    var all := lines + later;
    assert all[k] == lines[k];
    forall i | 0 <= i < k ensures !Contains(all[i], name) {
      assert all[i] == lines[i];
    }
    FirstLineWithIs(all, name, k);
  }

  lemma FirstLineWithIs(lines: seq<string>, name: string, k: nat)
    requires k < |lines| && Contains(lines[k], name)
    requires forall i :: 0 <= i < k ==> !Contains(lines[i], name)
    ensures FirstLineWith(lines, name) == Some(k)
  {
  }

  /**
   * On the first line of `ip link` output, "<n>: <name>: ...", the index
   * read is n.
   */
  lemma IpLinkLineGivesIndex(n: nat, name: string, rest: string, later: seq<string>)
    ensures IndexFrom([ShowNat(n) + ": " + name + rest] + later, name) == Success(n)
  {
    var digits := ShowNat(n);
    var line := digits + ": " + name + rest;
    assert OccursAt(line, name, |digits| + 2);
    forall i | 0 <= i < |digits| ensures digits[i] != ':' {
      assert IsDigit(digits[i]);
    }
    assert BeforeFirst(line, ':') == digits by {
      BeforeFirstAt(line, digits, ':');
    }
    ParseIntShowNat(n);
    FirstLineWithIs([line] + later, name, 0);
  }

  lemma BeforeFirstAt(s: string, p: string, sep: char)
    requires StartsWith(s, p) && sep !in p && |p| < |s| && s[|p|] == sep
    ensures BeforeFirst(s, sep) == p
  {
  }
}
