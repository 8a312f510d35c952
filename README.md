# ipv6-route-listener, modelled in Dafny

The route listener watches an interface for ICMPv6 Router Advertisements
(RAs). It takes the Prefix Information and Route Information options a router
announces and hands each binding (prefix, router, interface) to a route
configurator. The configurator runs an external script for a binding only
when three things hold: the prefix is a unique local address (text starting
with "fd"), the binding is new, and the script has not already succeeded for
it. The configurator tracks what it has configured in one dictionary,
`seen_routes`, which holds keys of two kinds: `prefix|router` and the bare
prefix.

The model has one Dafny module for each of route_configurator.py,
scapy_handler.py, packet_handler.py and router_discovery.py, plus three support
modules:

- `RouteConfig` (route_configurator.py) covers the `Route` record and its key,
  and one call of `configure` as the specification function `Step`. The class
  `RouteConfigurator` holds `seenRoutes`, a ghost trace of script runs, and an
  imperative `Configure`. `Replay` is a fold of `Step` over a run of calls.
  The script's outcome is an input.
- `ScapyHandling` (scapy_handler.py) covers the IPv6, RA and duplicate gates of
  `_handle_packet`, the option walk of `_process_router_advertisement`,
  `_process_ula_route` and `stop`. Each downstream call the walk makes is a
  `Dispatch` value, in order.
- `PacketHandling` (packet_handler.py) covers `PacketHandler.handle`: it
  collects two prefix lists and configures them, prefixes first.
  `PacketHandler.Handle` is proved against `Replay` applied to the planned
  calls.
- `RouterDiscovery` (router_discovery.py) covers the Router Solicitation
  bytes, the RA recogniser and the search of `ip link` output for the
  interface index.
- `Packets` is a parsed packet as both handlers see it. An option attribute
  the capture library's object may lack is an `Option`.
- `Text` holds the `str` operations the code uses: `startswith`, `in`,
  `split(sep)[0]` and a model of base-10 `int()`.
- `Wrappers` holds the `Option` and `Result` types.

A failed script writes neither key (route_configurator.py:98-104), so the
same binding is tried again on its next call (`FailureRecordsNothing`).

The code also keeps the old `prefix|router` key after a router change. A
move back to an earlier router therefore counts as already configured and
runs no script, while the bare prefix still names the newer router
(`MoveBackIsShadowed`).

## Model

| member | source | states |
|---|---|---|
| RouteConfig.RouteKey | route_listener/route_configurator.py:24-26 | the key is the prefix, one '|' and the router, at those positions and with that length |
| RouteConfig.RouteKeyInjective | route_listener/route_configurator.py:24-26 | for '|'-free prefixes, equal keys mean equal prefix and router |
| RouteConfig.RouteKeyHasBar | route_listener/route_configurator.py:24-26 | a `prefix|router` key always contains a '|', so it never collides with a '|'-free bare prefix key |
| RouteConfig.EmptyIsConsistent | route_listener/route_configurator.py:34 | the empty starting dictionary satisfies the key-coherence invariant |
| RouteConfig.EmptyFieldRejected | route_listener/route_configurator.py:51-52 | an empty prefix or router returns False, runs no script and leaves the dictionary unchanged |
| RouteConfig.NonUlaRejected | route_listener/route_configurator.py:55-59 | a prefix not starting with "fd" returns False, runs no script and leaves the dictionary unchanged |
| RouteConfig.ScriptOnlyForUla | route_listener/route_configurator.py:51-89 | the script runs only for a non-empty ULA binding whose key is not yet present |
| RouteConfig.KnownBindingIsNoOp | route_listener/route_configurator.py:61-65 | a present `prefix|router` key returns True with no script and no change |
| RouteConfig.SuccessRecordsBinding | route_listener/route_configurator.py:93-96 | a successful run returns True, adds exactly the two keys, maps both to the router and changes no other entry |
| RouteConfig.FailureRecordsNothing | route_listener/route_configurator.py:98-104 | a failed run returns False, leaves the dictionary unchanged, and the same call runs the script again |
| RouteConfig.KeysOnlyGrow | route_listener/route_configurator.py:49-104 | no call removes a key |
| RouteConfig.OkMeansKnown | route_listener/route_configurator.py:61-96 | a call that returns True leaves its `prefix|router` key present |
| RouteConfig.ConfigureTwiceRunsOnce | route_listener/route_configurator.py:61-96 | after a successful run, the same route again is already configured, runs no script and changes nothing |
| RouteConfig.StepKeepsConsistent | route_listener/route_configurator.py:93-95 | each call keeps the invariant: every `p|r` key maps to r, and every bare prefix maps to a router whose key is present |
| RouteConfig.RecordKeepsKeysMatchRouters | route_listener/route_configurator.py:93-95 | the two writes keep every `p|r` key mapped to r |
| RouteConfig.RecordKeepsPrefixesBacked | route_listener/route_configurator.py:93-95 | the two writes keep every bare prefix backed by its `prefix|router` key |
| RouteConfig.RouterChangeIsAChange | route_listener/route_configurator.py:67-70 | in a consistent dictionary, a router-change decision names a previous router that differs from the new one |
| RouteConfig.RouterChangeKeepsOldKey | route_listener/route_configurator.py:67-95 | after (p, r1) succeeds, (p, r2), for a `p|r2` key not yet present, runs as a router change from r1; afterwards p maps to r2 and the old `p|r1` key still maps to r1 |
| RouteConfig.MoveBackIsShadowed | route_listener/route_configurator.py:61-95 | after (p, r1) then (p, r2) succeed, (p, r1) again is already configured, runs no script, and p stays mapped to r2 |
| RouteConfig.BarInPrefixBreaksConsistency | route_listener/route_configurator.py:24-26 | a prefix containing '|' writes a key that equals another binding's key, with the wrong router |
| RouteConfig.ReplaySnoc | route_listener/route_configurator.py:49-104 | a run with one more call is the earlier run followed by that call's step |
| RouteConfig.ReplayAppend | route_listener/route_configurator.py:49-104 | a run split in two is the second half replayed from the dictionary the first half left |
| RouteConfig.ReplayKeysGrow | route_listener/route_configurator.py:49-104 | in a run, the keys present before call i are all present before every later call |
| RouteConfig.RepeatAfterOkIsNoOp | route_listener/route_configurator.py:61-65 | once a call returns True, no later call in the run for the same prefix and router runs the script |
| RouteConfig.ReplayRunsOnlyUla | route_listener/route_configurator.py:51-89 | every script run in a run was for a non-empty ULA binding |
| RouteConfig.ReplayKeepsConsistent | route_listener/route_configurator.py:93-95 | a run of calls with '|'-free prefixes keeps the invariant |
| RouteConfig.RouteConfigurator.constructor | route_listener/route_configurator.py:31-35 | a new configurator has an empty dictionary and no script runs |
| RouteConfig.RouteConfigurator.Configure | route_listener/route_configurator.py:49-104 | the result, the new dictionary and the script runs are those of `Step`, and the invariant is kept for '|'-free prefixes |
| RouteConfig.ScenarioNonUlaFiltered | route_listener/route_configurator.py:55-59 | 2001:db8:1:: from 2001:db8::1 is filtered as non-ULA and runs no script |
| RouteConfig.ScenarioNewBinding | route_listener/route_configurator.py:73-74 | the first fd00:abcd:: from fe80::1 is a new route and runs the script |
| RouteConfig.ScenarioRepeatAndChange | route_listener/route_configurator.py:61-74 | the same binding again is already configured; fe80::2 for the same prefix is a router change from fe80::1 and runs the script |
| Text.BeforeFirst | route_listener/scapy_handler.py:157 | `split(sep)[0]` is a prefix of the text, contains no separator, and is followed by the separator when it is shorter than the text |
| Text.BeforeFirstWithoutSeparator | route_listener/scapy_handler.py:156-157 | text without a '/' is passed on unchanged |
| Text.BeforeFirstIdempotent | route_listener/scapy_handler.py:156-157 | stripping the length twice is the same as stripping it once |
| Text.ParseIntShowNat | route_listener/router_discovery.py:41 | `int()` reads back the decimal rendering of every natural number |
| Text.ParseIntNeedsDigit | route_listener/router_discovery.py:41 | text without a digit, including the empty text, is rejected by `int()` |
| ScapyHandling.DispatchesAppend | route_listener/scapy_handler.py:92-148 | the calls of a concatenation of options are the calls of each part, in order |
| ScapyHandling.SkippedOptionKeepsWalking | route_listener/scapy_handler.py:105-134 | an option that is skipped, e.g. by `continue`, does not stop the walk over the later options |
| ScapyHandling.AtMostOneCallPerOption | route_listener/scapy_handler.py:92-148 | the walk makes at most one call per option |
| ScapyHandling.BeforeFirstKeepsStart | route_listener/scapy_handler.py:155-157 | cutting at '/' keeps the "fd" start of the prefix |
| ScapyHandling.DispatchesOnlyUla | route_listener/scapy_handler.py:95-159 | every call carries the packet's source as router and an "fd" prefix, and a route call's prefix contains no '/' |
| ScapyHandling.NonUlaPrefixIgnored | route_listener/scapy_handler.py:100-104 | a non-"fd" Prefix Information option leads to no call |
| ScapyHandling.NonUlaRouteIgnored | route_listener/scapy_handler.py:138-142 | a non-"fd" Route Information option leads to no call |
| ScapyHandling.UlaPrefixDispatched | route_listener/scapy_handler.py:95-102 | a complete ULA Prefix Information option leads to exactly one `_process_ula_prefix` call with its prefix, length and the source |
| ScapyHandling.UlaRouteLengthFallback | route_listener/scapy_handler.py:122-140 | a ULA Route Information option uses `prefixlen`, then `plen`, and is skipped when it has neither; the prefix is cut at '/' |
| ScapyHandling.MalformedOrOtherIgnored | route_listener/scapy_handler.py:95-148 | a Prefix Information option missing its prefix or its length, a Route Information option without a prefix, or an option of another kind leads to no call |
| ScapyHandling.GatedPacketsDispatchNothing | route_listener/scapy_handler.py:47-65 | a packet without an IPv6 layer, without an RA layer, or from a duplicate source leads to no call |
| ScapyHandling.ScapyPacketHandler.HandlePacket | route_listener/scapy_handler.py:47-76 | gated packets give no calls; otherwise the calls are those of the option walk |
| ScapyHandling.ScapyPacketHandler.ProcessRouterAdvertisement | route_listener/scapy_handler.py:78-151 | the loop's calls are exactly `Dispatches` of the options, in order |
| ScapyHandling.ScapyPacketHandler.Stop | route_listener/scapy_handler.py:163-166 | the running flag is cleared |
| PacketHandling.RoutesFor | route_listener/packet_handler.py:40-45 | element i of the result is `Route(prefixes[i], src, interface)` |
| PacketHandling.CollectAppend | route_listener/packet_handler.py:29-37 | both lists keep option order: collecting a concatenation joins the two collections, or fails if either fails |
| PacketHandling.CollectSucceedsIff | route_listener/packet_handler.py:29-37 | collection succeeds if and only if every Prefix or Route Information option has a prefix |
| PacketHandling.CollectFailureStays | route_listener/packet_handler.py:29-37 | once reading a prefix fails, the whole collection fails |
| PacketHandling.CollectOne | route_listener/packet_handler.py:30-37 | a prefix option adds to the prefix list, a route option adds to the route list, and other options add nothing |
| PacketHandling.KeepsEveryPrefix | route_listener/packet_handler.py:29-37 | with no filtering, every option's prefix lands in its list, at the position the earlier options determine |
| PacketHandling.PlannedRoutesCarrySourceAndInterface | route_listener/packet_handler.py:40-45 | every planned route has the IPv6 source as router and the handler's interface |
| PacketHandling.PrefixesBeforeRoutes | route_listener/packet_handler.py:39-45 | the prefix list's calls come first, in order, and the route list's calls follow, in order |
| PacketHandling.RepeatedPrefixInOneAdvertisement | route_listener/packet_handler.py:39-45 | a prefix repeated in one RA runs the script at the later call only if the earlier call returned False |
| PacketHandling.Attempts | route_listener/packet_handler.py:39-45 | the planned calls numbered from `first`: call j is route j, seeing the script report of position `first + j` |
| PacketHandling.ReplayTwoLoops | route_listener/packet_handler.py:39-45 | running the prefix loop and then the route loop leaves the same map and script runs as replaying the concatenated list |
| PacketHandling.AttemptsAppend | route_listener/packet_handler.py:39-45 | the calls of the two loops, numbered on, are the calls of the concatenated list |
| PacketHandling.PacketHandler.constructor | route_listener/packet_handler.py:10-14 | the handler keeps the configurator and interface it is given |
| PacketHandling.PacketHandler.Handle | route_listener/packet_handler.py:16-45 | the outcome follows the RA, IPv6 and prefix checks; the configurator's dictionary and script runs are those of `Replay` over the planned calls |
| PacketHandling.PacketHandler.PlanCalls | route_listener/packet_handler.py:16-37 | the outcome matches the checks; the two route lists, concatenated, are the planned calls, and both are empty unless the packet is handled |
| PacketHandling.PacketHandler.CollectOptions | route_listener/packet_handler.py:26-37 | the collection loop gives `Collect` of the options, or None at a missing prefix |
| PacketHandling.PacketHandler.ConfigureEach | route_listener/packet_handler.py:40-41 | configuring each route in turn leaves the state that `Replay` of those calls gives |
| RouterDiscovery.FromBigEndianBigEndian | route_listener/router_discovery.py:85 | reading back a big-endian (`!`) field gives the value |
| RouterDiscovery.FromBigEndianBound | route_listener/router_discovery.py:85 | the value of n big-endian bytes is below 256^n |
| RouterDiscovery.BigEndianFromBigEndian | route_listener/router_discovery.py:85 | writing back the value of a byte field gives the same bytes |
| RouterDiscovery.EncodeHeader | route_listener/router_discovery.py:85-90 | the `!BBHI` header is 8 bytes |
| RouterDiscovery.DecodeHeader | route_listener/router_discovery.py:100-102 | a header can be read exactly when there are at least 8 bytes |
| RouterDiscovery.HeaderRoundTrip | route_listener/router_discovery.py:85-90 | decoding an encoded header, with any bytes after it, gives the header back |
| RouterDiscovery.HeaderRoundTripBytes | route_listener/router_discovery.py:85-90 | encoding the decoded form of any 8 bytes gives those bytes back |
| RouterDiscovery.RouterSolicitationBytes | route_listener/router_discovery.py:82-98 | the solicitation is the 10 bytes 133, 0, 0, 0, 0, 0, 0, 0, 1, 1 |
| RouterDiscovery.RouterSolicitationHeader | route_listener/router_discovery.py:85-90 | the header is type 133, code 0, checksum 0, reserved 0 |
| RouterDiscovery.RouterSolicitationOptionIsShort | route_listener/router_discovery.py:92-96 | the option's length byte announces 8 bytes, but only 2 follow the header |
| RouterDiscovery.RouterAdvertisementIffHeaderType | route_listener/router_discovery.py:100-102 | the RA test holds if and only if a header decodes and its type is 134 |
| RouterDiscovery.ShortDataIsNotAdvertisement | route_listener/router_discovery.py:100-102 | data shorter than 8 bytes is never taken for an RA |
| RouterDiscovery.SolicitationIsNotAdvertisement | route_listener/router_discovery.py:82-102 | the solicitation the code builds is not recognised as an RA |
| RouterDiscovery.FirstLineWith | route_listener/router_discovery.py:39-40 | the found line contains the name and no earlier line does; None means no line contains it |
| RouterDiscovery.InterfaceIndex | route_listener/router_discovery.py:39-45 | the loop with `break` and `else` gives `IndexFrom`: the first matching line's index, or the error |
| RouterDiscovery.NotFoundIffNoLineMatches | route_listener/router_discovery.py:39-45 | "not found" is raised if and only if no line contains the name |
| RouterDiscovery.FirstMatchDecides | route_listener/router_discovery.py:39-43 | the first matching line decides, and lines after it never change the result |
| RouterDiscovery.FirstLineWithIs | route_listener/router_discovery.py:39-40 | a matching line with no match before it is the one found |
| RouterDiscovery.IpLinkLineGivesIndex | route_listener/router_discovery.py:39-43 | a line of the form "n: name..." gives the index n, for every name |
| RouterDiscovery.BeforeFirstAt | route_listener/router_discovery.py:41 | text followed by the first ':' is what `split(':')[0]` returns |

## Left out

- route_listener/main.py and route_listener/logger.py: argument parsing, startup and logging. Log calls are assumed to succeed, and they are dropped.
- ScapyHandling: `self.logger` and `_log_error` come from `BasePacketHandler`, which is not part of this model. The model assumes that its logger has `debug`. logger.py's `Logger` has no `debug`: with that logger, `_handle_packet` would stop at scapy_handler.py:70, where the exception is caught at :75, and dispatch nothing.
- The route script itself: the `subprocess.run` with its environment, and the `chmod` in `_configure_script`. The script is modelled only by its success or failure, which is an input. `RouteConfigurator.Configure` takes it as a `bool`, and `PacketHandler.Handle` takes it as a function of the call's position in the packet.
- The `CalledProcessError` branch and the broad `except Exception` branch of `configure` are one case: both return False and write nothing.
- `start` in scapy_handler.py, the `sniff` callback set-up, the `conf` settings, and the solicitation thread `_send_router_solicitations`. These are concurrency, sleeping and network I/O.
- `discover_routers`' sockets, its multicast join, the `ip link` subprocess and its receive loop. Only the text search over the command's output lines, the packet bytes and the RA test are modelled.
- `_check_duplicate`, `_process_ula_prefix` and the `BasePacketHandler` base class that scapy_handler.py imports are not part of this model. The duplicate check is a parameter (`isDuplicate`). A `_process_ula_prefix` call is recorded as a `Dispatch`, not carried out. `running`'s initial value is a constructor argument.
- ScapyHandling.ScapyPacketHandler.ProcessRouterAdvertisement: an exception other than `AttributeError` raised inside `_process_ula_prefix` aborts the rest of the walk, through the outer `except Exception`. The model does not capture this: every call is recorded and the walk goes on. An `AttributeError` there is caught by the option's own handler, and the walk goes on, as in the model.
- scapy_handler.py calls `self.route_configurator.configure(base_prefix, prefix_len, router)`. That call has a different attribute name and signature from `RouteConfigurator.configure(route)`. It is kept as the abstract `UlaRoute` event, and the two are not joined.
- The capture library's iteration protocol over `ra.payload` and `ra.iterpayloads()` is not modelled: both handlers walk the parsed list of options. `hasattr(ra, 'payload')` is taken to be always true. What that loses: with scapy's usual `Packet.__iter__`, `for opt in ra.payload` (scapy_handler.py:92) yields the instances generated from the first option layer only, not one item per option. The code as written may therefore look only at the first option, while `ProcessRouterAdvertisement` walks every option.
- `str(opt.prefix)` is taken to be the prefix text itself. Attribute access that raises is modelled as a missing value (`None`).
- Text.ParseInt: Unicode digits and Unicode whitespace are not modelled, only ASCII. `int()` accepts more.
- RouteConfig.RouteConfigurator.Configure: `scriptRuns` records the route the call was made for, not the environment the script saw. The script's environment is `{PREFIX, ROUTER, IFACE, **os.environ}` (route_configurator.py:80-85), so a PREFIX, ROUTER or IFACE already set in the listener's environment overrides the route's value. The model does not capture that override.
- Prefix-length values are passed on unchecked, as the code does; no range is enforced.
- RouteConfig.StepKeepsConsistent: the invariant is stated only for prefixes without '|'. `BarInPrefixBreaksConsistency` shows why it fails otherwise. IPv6 text never contains '|'.
- `Outcome`: an exception inside `handle` is modelled as an outcome value, not as propagation to the caller.
