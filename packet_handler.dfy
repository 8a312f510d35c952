/**
 * `PacketHandler.handle` of packet_handler.py: the simpler handler that
 * collects the prefix text of every Prefix Information option and of every
 * Route Information option of an RA into two lists, then hands each to the
 * configurator, all prefixes first. It filters nothing and deduplicates
 * nothing; the configurator decides.
 */
module PacketHandling {
  import opened Wrappers
  import opened Packets
  import opened RouteConfig

  /** The two lists `handle` builds, in option order. */
  datatype Collection = Collection(prefixes: seq<string>, routes: seq<string>)

  /** How a call of `handle` ends. */
  datatype HandleOutcome =
    | NotAdvertisement   // no RA layer: returns at once
    | NoIpv6Layer        // RA layer but no IPv6 layer: reading the source raises
    | MissingPrefix      // an option without a `prefix` attribute: reading it raises
    | Handled

  /**
   * The collection loop over `opts`. `None` is the point where an option of
   * either kind has no prefix and reading `opt.prefix` raises, before any
   * route is configured.
   */
  function Collect(opts: seq<NdOption>): Option<Collection> {
    if opts == [] then Some(Collection([], []))
    else
      match Collect(opts[..|opts| - 1])
      case None => None
      case Some(c) =>
        match opts[|opts| - 1]
        case PrefixInfo(p, _) => if p.None? then None else Some(Collection(c.prefixes + [p.value], c.routes))
        case RouteInfo(p, _, _) => if p.None? then None else Some(Collection(c.prefixes, c.routes + [p.value]))
        case OtherOption(_) => Some(c)
  }

  /** `Route(prefix, src, self.interface)` for each prefix, in order. */
  function RoutesFor(prefixes: seq<string>, src: string, iface: string): (rs: seq<Route>)
    ensures |rs| == |prefixes|
    ensures forall i :: 0 <= i < |rs| ==> rs[i] == Route(prefixes[i], src, iface)
  {
    if prefixes == [] then []
    else RoutesFor(prefixes[..|prefixes| - 1], src, iface) + [Route(prefixes[|prefixes| - 1], src, iface)]
  }

  /** The configure calls `handle` makes for `packet`: the prefix list's routes, then the route list's. */
  function PlannedRoutes(packet: Packet, iface: string): seq<Route> {
    if packet.ra.None? || packet.ipv6Src.None? then []
    else match Collect(packet.ra.value)
      case None => []
      case Some(c) =>
        RoutesFor(c.prefixes, packet.ipv6Src.value, iface) + RoutesFor(c.routes, packet.ipv6Src.value, iface)
  }

  function Outcome(packet: Packet): HandleOutcome {
    if packet.ra.None? then NotAdvertisement
    else if packet.ipv6Src.None? then NoIpv6Layer
    else if Collect(packet.ra.value).None? then MissingPrefix
    else Handled
  }

  /**
   * The calls for `routes`, numbered from `first` within the handling of one
   * packet: call `first + j` sees the script report `scriptSucceeds(first + j)`.
   */
  function Attempts(routes: seq<Route>, scriptSucceeds: nat -> bool, first: nat): (a: seq<Attempt>)
    ensures |a| == |routes|
    ensures forall j :: 0 <= j < |a| ==> a[j] == Attempt(routes[j], scriptSucceeds(first + j))
  {
    if routes == [] then []
    else Attempts(routes[..|routes| - 1], scriptSucceeds, first) + [Attempt(routes[|routes| - 1], scriptSucceeds(first + |routes| - 1))]
  }

  lemma AppendAssociative<T>(a: seq<T>, b: seq<T>, c: seq<T>)
    ensures a + b + c == a + (b + c)
  {
  }

  lemma AttemptsAppend(p: seq<Route>, q: seq<Route>, scriptSucceeds: nat -> bool, first: nat)
    ensures Attempts(p + q, scriptSucceeds, first) == Attempts(p, scriptSucceeds, first) + Attempts(q, scriptSucceeds, first + |p|)
  {
  }

  /** The two configure loops of `handle`, one after the other, make the calls of the concatenated list. */
  lemma ReplayTwoLoops(seen: map<string, string>, runs: seq<Route>, p: seq<Route>, q: seq<Route>, scriptSucceeds: nat -> bool)
    ensures var r1 := Replay(seen, Attempts(p, scriptSucceeds, 0));
      var r2 := Replay(r1.seen, Attempts(q, scriptSucceeds, |p|));
      var r := Replay(seen, Attempts(p + q, scriptSucceeds, 0));
      r.seen == r2.seen && runs + r.runs == runs + r1.runs + r2.runs
  {
    var first := Attempts(p, scriptSucceeds, 0);
    var second := Attempts(q, scriptSucceeds, |p|);
    AttemptsAppend(p, q, scriptSucceeds, 0);
    assert Attempts(p + q, scriptSucceeds, 0) == first + second;
    ReplayAppend(seen, first, second);
    var r1 := Replay(seen, first);
    var r2 := Replay(r1.seen, second);
    var r := Replay(seen, first + second);
    assert r.seen == r2.seen && r.runs == r1.runs + r2.runs;
    AppendAssociative(runs, r1.runs, r2.runs);
  }

  // ---------------------------------------------------------------------------
  // Properties of the collection

  function Join(x: Option<Collection>, y: Option<Collection>): Option<Collection> {
    if x.None? || y.None? then None
    else Some(Collection(x.value.prefixes + y.value.prefixes, x.value.routes + y.value.routes))
  }

  /** Each list keeps option order: collecting a concatenation is joining what each part collects. */
  lemma {:induction false} CollectAppend(a: seq<NdOption>, b: seq<NdOption>)
    ensures Collect(a + b) == Join(Collect(a), Collect(b))
  {
    if b == [] {
      assert a + b == a;
      if Collect(a).Some? {
        var c := Collect(a).value;
        assert c.prefixes + [] == c.prefixes && c.routes + [] == c.routes;
      }
    } else {
      var b' := b[..|b| - 1];
      assert (a + b)[..|a + b| - 1] == a + b';
      CollectAppend(a, b');
      var last := b[|b| - 1];
      if Collect(a).Some? && Collect(b').Some? {
        var ca, cb := Collect(a).value, Collect(b').value;
        match last
        case PrefixInfo(p, _) =>
          if p.Some? {
            assert ca.prefixes + cb.prefixes + [p.value] == ca.prefixes + (cb.prefixes + [p.value]);
          }
        case RouteInfo(p, _, _) =>
          if p.Some? {
            assert ca.routes + cb.routes + [p.value] == ca.routes + (cb.routes + [p.value]);
          }
        case OtherOption(_) =>
      }
    }
  }

  /** Every option of either kind has a prefix. */
  predicate AllPrefixesPresent(opts: seq<NdOption>) {
    forall i :: 0 <= i < |opts| ==> !opts[i].OtherOption? ==> opts[i].prefix.Some?
  }

  /** Collection succeeds exactly when no Prefix or Route Information option lacks its prefix. */
  lemma {:induction false} CollectSucceedsIff(opts: seq<NdOption>)
    ensures Collect(opts).Some? <==> AllPrefixesPresent(opts)
  {
    if opts != [] {
      var init := opts[..|opts| - 1];
      CollectSucceedsIff(init);
      assert AllPrefixesPresent(opts) <==>
        AllPrefixesPresent(init) && (!opts[|opts| - 1].OtherOption? ==> opts[|opts| - 1].prefix.Some?) by {
        if AllPrefixesPresent(init) && (!opts[|opts| - 1].OtherOption? ==> opts[|opts| - 1].prefix.Some?) {
          forall i | 0 <= i < |opts| ensures !opts[i].OtherOption? ==> opts[i].prefix.Some? {
            if i < |opts| - 1 {
              assert opts[i] == init[i];
            }
          }
        }
      }
    }
  }

  /** A failed collection stays failed as later options are read. */
  lemma {:induction false} CollectFailureStays(opts: seq<NdOption>, k: nat)
    requires k <= |opts|
    requires Collect(opts[..k]) == None
    ensures Collect(opts) == None
  {
    CollectAppend(opts[..k], opts[k..]);
    assert opts[..k] + opts[k..] == opts;
  }

  /** One option's contribution to the two lists. */
  lemma CollectOne(opt: NdOption)
    ensures opt.PrefixInfo? && opt.prefix.Some? ==> Collect([opt]) == Some(Collection([opt.prefix.value], []))
    ensures opt.RouteInfo? && opt.prefix.Some? ==> Collect([opt]) == Some(Collection([], [opt.prefix.value]))
    ensures opt.OtherOption? ==> Collect([opt]) == Some(Collection([], []))
  {
    assert [opt][..0] == [];
    if !opt.OtherOption? && opt.prefix.Some? {
      assert [] + [opt.prefix.value] == [opt.prefix.value];
    }
  }

  /**
   * No filtering: every Prefix Information prefix lands in the prefix list and
   * every Route Information prefix in the route list, ULA or not, repeated or not,
   * at the position given by the options before it.
   */
  lemma KeepsEveryPrefix(opts: seq<NdOption>, i: nat)
    requires i < |opts| && AllPrefixesPresent(opts) && !opts[i].OtherOption?
    ensures Collect(opts).Some? && Collect(opts[..i]).Some?
    ensures var c := Collect(opts).value;
      var before := Collect(opts[..i]).value;
      && (opts[i].PrefixInfo? ==> |before.prefixes| < |c.prefixes| && c.prefixes[|before.prefixes|] == opts[i].prefix.value)
      && (opts[i].RouteInfo? ==> |before.routes| < |c.routes| && c.routes[|before.routes|] == opts[i].prefix.value)
  {
    var a, b := opts[..i], opts[i..];
    assert a + b == opts;
    CollectAppend(a, b);
    assert b == [opts[i]] + opts[i + 1..];
    CollectAppend([opts[i]], opts[i + 1..]);
    CollectOne(opts[i]);
    CollectSucceedsIff(opts);
  }

  /** Every planned route carries the packet's IPv6 source as router and the handler's interface. */
  lemma PlannedRoutesCarrySourceAndInterface(packet: Packet, iface: string)
    ensures forall r :: r in PlannedRoutes(packet, iface) ==>
      packet.ipv6Src.Some? && r.router == packet.ipv6Src.value && r.interface == iface
  {
  }

  /**
   * All prefix-list calls come before all route-list calls: the first
   * |prefixes| calls are the prefix list's, in order, the rest the route list's.
   */
  lemma PrefixesBeforeRoutes(packet: Packet, iface: string)
    requires Outcome(packet) == Handled
    ensures var c := Collect(packet.ra.value).value;
      var rs := PlannedRoutes(packet, iface);
      && |rs| == |c.prefixes| + |c.routes|
      && (forall i :: 0 <= i < |c.prefixes| ==> rs[i].prefix == c.prefixes[i])
      && (forall i :: 0 <= i < |c.routes| ==> rs[|c.prefixes| + i].prefix == c.routes[i])
  {
    var c := Collect(packet.ra.value).value;
    var src := packet.ipv6Src.value;
    var ps, qs := RoutesFor(c.prefixes, src, iface), RoutesFor(c.routes, src, iface);
    var rs := PlannedRoutes(packet, iface);
    assert rs == ps + qs;
    forall i | 0 <= i < |c.routes| ensures rs[|c.prefixes| + i].prefix == c.routes[i] {
      assert rs[|ps| + i] == qs[i];
    }
  }

  /**
   * One RA that carries the same prefix at planned calls i < j runs the script
   * for call j only if call i returned False.
   */
  lemma RepeatedPrefixInOneAdvertisement(
    seen: map<string, string>, packet: Packet, iface: string, scriptSucceeds: nat -> bool, i: nat, j: nat)
    requires var rs := PlannedRoutes(packet, iface); i < j < |rs| && rs[i].prefix == rs[j].prefix
    requires var a := Attempts(PlannedRoutes(packet, iface), scriptSucceeds, 0);
      Step(SeenBefore(seen, a, i), a[i].route, a[i].scriptSucceeds).ok
    ensures var a := Attempts(PlannedRoutes(packet, iface), scriptSucceeds, 0);
      !Step(SeenBefore(seen, a, j), a[j].route, a[j].scriptSucceeds).ran
  {
    var a := Attempts(PlannedRoutes(packet, iface), scriptSucceeds, 0);
    PlannedRoutesCarrySourceAndInterface(packet, iface);
    assert a[i].route in PlannedRoutes(packet, iface) && a[j].route in PlannedRoutes(packet, iface);
    RepeatAfterOkIsNoOp(seen, a, i, j);
  }

  // ---------------------------------------------------------------------------
  // The handler object

  class PacketHandler {
    const configurator: RouteConfigurator
    const interface: string

    constructor (configurator: RouteConfigurator, interface: string)
      ensures this.configurator == configurator && this.interface == interface
    {
      this.configurator := configurator;
      this.interface := interface;
    }

    /**
     * `handle(packet)`. Configure call j of this packet sees the script report
     * `scriptSucceeds(j)` if that call runs it.
     */
    method Handle(packet: Packet, scriptSucceeds: nat -> bool) returns (outcome: HandleOutcome)
      modifies configurator
      ensures outcome == Outcome(packet)
      ensures var r := Replay(old(configurator.seenRoutes), Attempts(PlannedRoutes(packet, interface), scriptSucceeds, 0));
        && configurator.seenRoutes == r.seen
        && configurator.scriptRuns == old(configurator.scriptRuns) + r.runs
    {
      ghost var seen0, runs0 := configurator.seenRoutes, configurator.scriptRuns;
      ghost var planned := PlannedRoutes(packet, interface);
      var prefixRoutes, routeRoutes;
      outcome, prefixRoutes, routeRoutes := PlanCalls(packet);
      if outcome != Handled {
        assert Attempts(planned, scriptSucceeds, 0) == [];
        assert runs0 + [] == runs0;
        return;
      }
      ReplayTwoLoops(seen0, runs0, prefixRoutes, routeRoutes, scriptSucceeds);
      ConfigureEach(prefixRoutes, scriptSucceeds, 0);
      ConfigureEach(routeRoutes, scriptSucceeds, |prefixRoutes|);
      return Handled;
    }

    /**
     * The part of `handle` before any configure call: the RA and IPv6 checks,
     * the collection loop, and the routes built from the two lists.
     */
    method PlanCalls(packet: Packet) returns (outcome: HandleOutcome, prefixRoutes: seq<Route>, routeRoutes: seq<Route>)
      ensures outcome == Outcome(packet)
      ensures prefixRoutes + routeRoutes == PlannedRoutes(packet, interface)
      ensures outcome != Handled ==> prefixRoutes == [] && routeRoutes == []
    {
      if packet.ra.None? {
        return NotAdvertisement, [], [];
      }
      if packet.ipv6Src.None? {
        return NoIpv6Layer, [], [];
      }
      var src := packet.ipv6Src.value;
      var collected := CollectOptions(packet.ra.value);
      if collected.None? {
        return MissingPrefix, [], [];
      }
      prefixRoutes := RoutesFor(collected.value.prefixes, src, interface);
      routeRoutes := RoutesFor(collected.value.routes, src, interface);
      outcome := Handled;
    }

    /** The first loop of `handle`: the two lists, `None` where an option's prefix is missing. */
    method CollectOptions(options: seq<NdOption>) returns (r: Option<Collection>)
      ensures r == Collect(options)
    {
      var prefixes: seq<string> := [];
      var routes: seq<string> := [];
      for i := 0 to |options|
        invariant Collect(options[..i]) == Some(Collection(prefixes, routes))
      {
        assert options[..i + 1][..i] == options[..i];
        match options[i]
        case PrefixInfo(p, _) =>
          if p.None? {
            CollectFailureStays(options, i + 1);
            return None;
          }
          prefixes := prefixes + [p.value];
        case RouteInfo(p, _, _) =>
          if p.None? {
            CollectFailureStays(options, i + 1);
            return None;
          }
          routes := routes + [p.value];
        case OtherOption(_) =>
      }
      assert options[..|options|] == options;
      return Some(Collection(prefixes, routes));
    }

    /** One of the two configure loops of `handle`, its calls numbered from `first`. */
    method ConfigureEach(routes: seq<Route>, scriptSucceeds: nat -> bool, first: nat)
      modifies configurator
      ensures var r := Replay(old(configurator.seenRoutes), Attempts(routes, scriptSucceeds, first));
        && configurator.seenRoutes == r.seen
        && configurator.scriptRuns == old(configurator.scriptRuns) + r.runs
    {
      ghost var seen0, runs0 := configurator.seenRoutes, configurator.scriptRuns;
      ghost var attempts := Attempts(routes, scriptSucceeds, first);
      for j := 0 to |routes|
        invariant configurator.seenRoutes == Replay(seen0, attempts[..j]).seen
        invariant configurator.scriptRuns == runs0 + Replay(seen0, attempts[..j]).runs
      {
        var x := Attempt(routes[j], scriptSucceeds(first + j));
        assert attempts[..j + 1] == attempts[..j] + [x];
        ReplaySnoc(seen0, attempts[..j], x);
        ghost var prev := Replay(seen0, attempts[..j]);
        ghost var step := Step(prev.seen, x.route, x.scriptSucceeds);
        AppendAssociative(runs0, prev.runs, if step.ran then [x.route] else []);
        var _ := configurator.Configure(x.route, x.scriptSucceeds);
      }
      assert attempts[..|routes|] == attempts;
    }
  }
}
