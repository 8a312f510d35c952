/**
 * `ScapyPacketHandler` of scapy_handler.py: the gate on each captured packet
 * and the walk over the RA's options. Each option that survives the checks
 * leads to one downstream call, recorded here as a `Dispatch` in the order the
 * walk makes them. The duplicate check is a parameter: its helper is not part
 * of this model.
 */
module ScapyHandling {
  import opened Wrappers
  import opened Text
  import opened Packets

  /** A downstream call made by the walk. */
  datatype Dispatch =
    | UlaPrefix(prefix: string, prefixLen: int, router: string) // `_process_ula_prefix(prefix, len, router)`
    | UlaRoute(prefix: string, prefixLen: int, router: string)  // `route_configurator.configure(base_prefix, len, router)`

  /** `_process_ula_route`: checks "fd" again, drops any "/len" from the prefix text, and configures. */
  function ProcessUlaRoute(prefix: string, prefixLen: int, router: string): seq<Dispatch> {
    if StartsWith(prefix, "fd") then [UlaRoute(BeforeFirst(prefix, '/'), prefixLen, router)] else []
  }

  /** A Route Information option's length: `prefixlen` if the option has it, else `plen`, else none. */
  function RouteLength(prefixLen: Option<int>, plen: Option<int>): Option<int> {
    if prefixLen.Some? then prefixLen else plen
  }

  /** The calls one option of an RA from `src` leads to. */
  function OptionDispatch(opt: NdOption, src: string): seq<Dispatch> {
    match opt
    case PrefixInfo(p, l) =>
      if p.None? || l.None? then []
      else if StartsWith(p.value, "fd") then [UlaPrefix(p.value, l.value, src)]
      else []
    case RouteInfo(p, l, pl) =>
      if p.None? || RouteLength(l, pl).None? then []
      else if StartsWith(p.value, "fd") then ProcessUlaRoute(p.value, RouteLength(l, pl).value, src)
      else []
    case OtherOption(_) => []
  }

  /** The calls of the whole walk over `opts`, option by option. */
  function Dispatches(opts: seq<NdOption>, src: string): seq<Dispatch> {
    if opts == [] then []
    else Dispatches(opts[..|opts| - 1], src) + OptionDispatch(opts[|opts| - 1], src)
  }

  /** What `_handle_packet` leads to for `packet`, given what the duplicate check says of each source. */
  function PacketDispatches(packet: Packet, isDuplicate: string -> bool): seq<Dispatch> {
    if packet.ipv6Src.None? || packet.ra.None? || isDuplicate(packet.ipv6Src.value) then []
    else Dispatches(packet.ra.value, packet.ipv6Src.value)
  }

  // ---------------------------------------------------------------------------
  // Properties of the walk

  /** The walk is option by option: the calls of a concatenation are the calls of each part, in order. */
  lemma {:induction false} DispatchesAppend(a: seq<NdOption>, b: seq<NdOption>, src: string)
    ensures Dispatches(a + b, src) == Dispatches(a, src) + Dispatches(b, src)
  {
    if b == [] {
      assert a + b == a;
    } else {
      var b' := b[..|b| - 1];
      assert (a + b)[..|a + b| - 1] == a + b';
      DispatchesAppend(a, b', src);
    }
  }

  /** A skipped option stops nothing: the options after it are still walked. */
  lemma SkippedOptionKeepsWalking(a: seq<NdOption>, opt: NdOption, b: seq<NdOption>, src: string)
    requires OptionDispatch(opt, src) == []
    ensures Dispatches(a + [opt] + b, src) == Dispatches(a, src) + Dispatches(b, src)
  {
    DispatchesAppend(a + [opt], b, src);
    assert (a + [opt])[..|a + [opt]| - 1] == a;
  }

  /** Each option leads to at most one call. */
  lemma {:induction false} AtMostOneCallPerOption(opts: seq<NdOption>, src: string)
    ensures |Dispatches(opts, src)| <= |opts|
  {
    if opts != [] {
      AtMostOneCallPerOption(opts[..|opts| - 1], src);
    }
  }

  lemma BeforeFirstKeepsStart(s: string, p: string, sep: char)
    requires StartsWith(s, p) && sep !in p
    ensures StartsWith(BeforeFirst(s, sep), p)
  {
    var r := BeforeFirst(s, sep);
    assert r[..|p|] == s[..|p|];
  }

  /**
   * Every call carries the packet's source as its router and a prefix that
   * starts with "fd"; a route call's prefix holds no '/'.
   */
  lemma {:induction false} DispatchesOnlyUla(opts: seq<NdOption>, src: string)
    ensures forall d :: d in Dispatches(opts, src) ==>
      d.router == src && StartsWith(d.prefix, "fd") && (d.UlaRoute? ==> '/' !in d.prefix)
  {
    if opts != [] {
      DispatchesOnlyUla(opts[..|opts| - 1], src);
      match opts[|opts| - 1]
      case RouteInfo(p, l, pl) =>
        if p.Some? && StartsWith(p.value, "fd") {
          BeforeFirstKeepsStart(p.value, "fd", '/');
        }
      case _ =>
    }
  }

  /** A Prefix Information option whose prefix does not start with "fd" leads to no call. */
  lemma NonUlaPrefixIgnored(p: string, l: Option<int>, src: string)
    requires !StartsWith(p, "fd")
    ensures OptionDispatch(PrefixInfo(Some(p), l), src) == []
  {
  }

  /** A Route Information option whose prefix does not start with "fd" leads to no call. */
  lemma NonUlaRouteIgnored(p: string, l: Option<int>, pl: Option<int>, src: string)
    requires !StartsWith(p, "fd")
    ensures OptionDispatch(RouteInfo(Some(p), l, pl), src) == []
  {
  }

  /** A complete ULA Prefix Information option leads to exactly one `_process_ula_prefix` call. */
  lemma UlaPrefixDispatched(p: string, l: int, src: string)
    requires StartsWith(p, "fd")
    ensures OptionDispatch(PrefixInfo(Some(p), Some(l)), src) == [UlaPrefix(p, l, src)]
  {
  }

  /**
   * A ULA Route Information option uses `prefixlen` when present and `plen`
   * otherwise, and configures the prefix text before any '/'.
   */
  lemma UlaRouteLengthFallback(p: string, l: Option<int>, pl: Option<int>, src: string)
    requires StartsWith(p, "fd")
    ensures l.Some? ==> OptionDispatch(RouteInfo(Some(p), l, pl), src) == [UlaRoute(BeforeFirst(p, '/'), l.value, src)]
    ensures l.None? && pl.Some? ==> OptionDispatch(RouteInfo(Some(p), l, pl), src) == [UlaRoute(BeforeFirst(p, '/'), pl.value, src)]
    ensures l.None? && pl.None? ==> OptionDispatch(RouteInfo(Some(p), l, pl), src) == []
  {
  }

  /**
   * A Prefix Information option without its prefix or its length, a Route
   * Information option without a prefix, or another kind of option, leads to
   * no call.
   */
  lemma MalformedOrOtherIgnored(p: string, l: Option<int>, pl: Option<int>, name: string, src: string)
    ensures OptionDispatch(PrefixInfo(None, l), src) == []
    ensures OptionDispatch(PrefixInfo(Some(p), None), src) == []
    ensures OptionDispatch(RouteInfo(None, l, pl), src) == []
    ensures OptionDispatch(OtherOption(name), src) == []
  {
  }

  /** A packet without IPv6 or RA layer, or from a source reported duplicate, leads to no call. */
  lemma GatedPacketsDispatchNothing(packet: Packet, isDuplicate: string -> bool)
    requires packet.ipv6Src.None? || packet.ra.None? || isDuplicate(packet.ipv6Src.value)
    ensures PacketDispatches(packet, isDuplicate) == []
  {
  }

  // ---------------------------------------------------------------------------
  // The handler object

  class ScapyPacketHandler {
    const interface: string
    var running: bool

    constructor (interface: string, running: bool)
      ensures this.interface == interface && this.running == running
    {
      this.interface := interface;
      this.running := running;
    }

    /** `_handle_packet`: the IPv6, RA and duplicate gates, then the option walk. */
    method HandlePacket(packet: Packet, isDuplicate: string -> bool) returns (calls: seq<Dispatch>)
      ensures packet.ipv6Src.None? || packet.ra.None? ==> calls == []
      ensures packet.ipv6Src.Some? && packet.ra.Some? && isDuplicate(packet.ipv6Src.value) ==> calls == []
      ensures calls == PacketDispatches(packet, isDuplicate)
    {
      if packet.ipv6Src.None? {
        return [];
      }
      if packet.ra.None? {
        return [];
      }
      var src := packet.ipv6Src.value;
      if isDuplicate(src) {
        return [];
      }
      calls := ProcessRouterAdvertisement(packet.ra.value, src);
    }

    /** `_process_router_advertisement`: one pass over the options, skipping those that are incomplete. */
    method ProcessRouterAdvertisement(options: seq<NdOption>, src: string) returns (calls: seq<Dispatch>)
      ensures calls == Dispatches(options, src)
    {
      calls := [];
      for i := 0 to |options|
        invariant calls == Dispatches(options[..i], src)
      {
        assert options[..i + 1][..i] == options[..i];
        match options[i]
        case PrefixInfo(p, l) =>
          if p.None? || l.None? {
            continue;
          }
          if StartsWith(p.value, "fd") {
            calls := calls + [UlaPrefix(p.value, l.value, src)];
          }
        case RouteInfo(p, l, pl) =>
          if p.None? {
            continue;
          }
          var len: int;
          if l.Some? {
            len := l.value;
          } else if pl.Some? {
            len := pl.value;
          } else {
            continue;
          }
          if StartsWith(p.value, "fd") {
            calls := calls + ProcessUlaRoute(p.value, len, src);
          }
        case OtherOption(_) =>
      }
      assert options[..|options|] == options;
    }

    /** `stop`: clears the running flag. */
    method Stop()
      modifies this`running
      ensures !running
    {
      running := false;
    }
  }
}
