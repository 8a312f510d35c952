/**
 * A received packet as both packet handlers see it once the capture library
 * has parsed it: the IPv6 source if there is an IPv6 layer, and the options of
 * the Router Advertisement if there is an RA layer. An option attribute that
 * the library object might lack is an `Option`.
 */
module Packets {
  import opened Wrappers

  /** A Neighbor Discovery option on an RA, by the library class it is parsed into. */
  datatype NdOption =
    | PrefixInfo(prefix: Option<string>, prefixLen: Option<int>)                  // RFC 4861 section 4.6.2, type 3
    | RouteInfo(prefix: Option<string>, prefixLen: Option<int>, plen: Option<int>) // RFC 4191 section 2.3, type 24
    | OtherOption(name: string)                                                    // any other option class

  datatype Packet = Packet(ipv6Src: Option<string>, ra: Option<seq<NdOption>>)
}
