/**
 * The route state tracker: `Route` and `RouteConfigurator.configure` of
 * route_configurator.py. The configurator keeps a dictionary `seen_routes`
 * under two kinds of key, `"prefix|router"` and the bare prefix, both mapping
 * to a router. A call that passes the ULA gate and whose `prefix|router` key is
 * new runs the external route script; only when the script succeeds are both
 * keys written. The script's outcome is an input here, not a process.
 */
module RouteConfig {
  import opened Text

  /** A route as the packet handler builds it: prefix text, router address, interface name. */
  datatype Route = Route(prefix: string, router: string, interface: string)

  /** `Route.is_ula`: the prefix text starts with "fd" (the fd00::/8 half of the ULA block). */
  predicate IsUla(route: Route) {
    StartsWith(route.prefix, "fd")
  }

  /** `Route.get_route_key`: the prefix, a '|', then the router. */
  function RouteKey(route: Route): (k: string)
    ensures |k| == |route.prefix| + 1 + |route.router|
    ensures k[..|route.prefix|] == route.prefix
    ensures k[|route.prefix|] == '|'
    ensures k[|route.prefix| + 1..] == route.router
  {
    route.prefix + "|" + route.router
  }

  /** No '|' in the text: true of every IPv6 address written in text form. */
  predicate NoBar(s: string) {
    '|' !in s
  }

  /** Two bindings whose prefixes hold no '|' have the same key only if they agree on prefix and router. */
  lemma RouteKeyInjective(a: Route, b: Route)
    requires NoBar(a.prefix) && NoBar(b.prefix)
    requires RouteKey(a) == RouteKey(b)
    ensures a.prefix == b.prefix && a.router == b.router
  {
  }

  /** A key that holds no '|' is a bare prefix key, never a `prefix|router` key. */
  lemma RouteKeyHasBar(route: Route)
    ensures !NoBar(RouteKey(route))
  {
    assert RouteKey(route)[|route.prefix|] == '|';
  }

  /** How `configure` classifies a call, following its branch chain and log lines. */
  datatype Decision =
    | EmptyField                   // empty prefix or empty router
    | NotUla                       // "Ignoring non-ULA prefix"
    | AlreadyConfigured            // "Route already configured"
    | NewRoute                     // "Configuring new route"
    | RouterChange(previous: string)  // "Updating route ... (previous: ...)"

  /** What one call of `configure` does: its decision, whether the script ran, the returned bool, the new map. */
  datatype StepResult = StepResult(decision: Decision, ran: bool, ok: bool, seen: map<string, string>)

  /** The two writes after a successful script run: the `prefix|router` key, then the bare prefix. */
  function Record(seen: map<string, string>, route: Route): map<string, string> {
    seen[RouteKey(route) := route.router][route.prefix := route.router]
  }

  /** One call of `configure(route)` against `seen`, the script reporting `scriptSucceeds` if it is run. */
  function Step(seen: map<string, string>, route: Route, scriptSucceeds: bool): StepResult {
    if route.prefix == "" || route.router == "" then
      StepResult(EmptyField, false, false, seen)
    else if !IsUla(route) then
      StepResult(NotUla, false, false, seen)
    else if RouteKey(route) in seen then
      StepResult(AlreadyConfigured, false, true, seen)
    else
      var decision := if route.prefix in seen then RouterChange(seen[route.prefix]) else NewRoute;
      if scriptSucceeds then
        StepResult(decision, true, true, Record(seen, route))
      else
        StepResult(decision, true, false, seen)
  }

  /**
   * The invariant the map keeps while prefixes hold no '|': every `p|r` key
   * maps to `r`, and every bare prefix key `p` maps to a router `r` whose
   * `p|r` key is present.
   */
  ghost predicate Consistent(seen: map<string, string>) {
    KeysMatchRouters(seen) && PrefixesBacked(seen)
  }

  ghost predicate KeysMatchRouters(seen: map<string, string>) {
    forall route: Route :: NoBar(route.prefix) && RouteKey(route) in seen ==> seen[RouteKey(route)] == route.router
  }

  ghost predicate PrefixesBacked(seen: map<string, string>) {
    forall k :: k in seen && NoBar(k) ==> RouteKey(Route(k, seen[k], "")) in seen
  }

  lemma EmptyIsConsistent()
    ensures Consistent(map[])
  {
  }

  // ---------------------------------------------------------------------------
  // Properties of one call

  /** An empty prefix or router: False, no script, map unchanged. */
  lemma EmptyFieldRejected(seen: map<string, string>, route: Route, scriptSucceeds: bool)
    requires route.prefix == "" || route.router == ""
    ensures var s := Step(seen, route, scriptSucceeds);
      s.decision == EmptyField && !s.ok && !s.ran && s.seen == seen
  {
  }

  /** A prefix not starting with "fd": False, no script, map unchanged. */
  lemma NonUlaRejected(seen: map<string, string>, route: Route, scriptSucceeds: bool)
    requires !IsUla(route)
    ensures var s := Step(seen, route, scriptSucceeds);
      !s.ok && !s.ran && s.seen == seen
  {
  }

  /** The script runs only for a non-empty router and a prefix starting with "fd". */
  lemma ScriptOnlyForUla(seen: map<string, string>, route: Route, scriptSucceeds: bool)
    requires Step(seen, route, scriptSucceeds).ran
    ensures IsUla(route) && route.prefix != "" && route.router != ""
    ensures RouteKey(route) !in seen
  {
  }

  /** A known `prefix|router` key: True, no script, map unchanged. */
  lemma KnownBindingIsNoOp(seen: map<string, string>, route: Route, scriptSucceeds: bool)
    requires route.router != "" && IsUla(route)
    requires RouteKey(route) in seen
    ensures Step(seen, route, scriptSucceeds) == StepResult(AlreadyConfigured, false, true, seen)
  {
  }

  /**
   * A successful script run records the binding under both keys, returns
   * True, and changes no other key.
   */
  lemma SuccessRecordsBinding(seen: map<string, string>, route: Route)
    requires Step(seen, route, true).ran
    ensures var s := Step(seen, route, true);
      && s.ok
      && s.seen.Keys == seen.Keys + {RouteKey(route), route.prefix}
      && s.seen[RouteKey(route)] == route.router
      && s.seen[route.prefix] == route.router
      && (forall k :: k in seen && k != RouteKey(route) && k != route.prefix ==> s.seen[k] == seen[k])
  {
  }

  /**
   * A failing script run returns False and leaves the map alone, so the same
   * call made again runs the script again.
   */
  lemma FailureRecordsNothing(seen: map<string, string>, route: Route, later: bool)
    requires Step(seen, route, false).ran
    ensures !Step(seen, route, false).ok
    ensures Step(seen, route, false).seen == seen
    ensures Step(Step(seen, route, false).seen, route, later).ran
  {
  }

  /** A call never removes a key. */
  lemma KeysOnlyGrow(seen: map<string, string>, route: Route, scriptSucceeds: bool)
    ensures seen.Keys <= Step(seen, route, scriptSucceeds).seen.Keys
  {
  }

  /** Once a call for a binding returns True, the binding's key is present. */
  lemma OkMeansKnown(seen: map<string, string>, route: Route, scriptSucceeds: bool)
    requires Step(seen, route, scriptSucceeds).ok
    ensures RouteKey(route) in Step(seen, route, scriptSucceeds).seen
  {
  }

  /** Configuring the same route twice after a success runs the script once. */
  lemma ConfigureTwiceRunsOnce(seen: map<string, string>, route: Route, second: bool)
    requires Step(seen, route, true).ran
    ensures var s1 := Step(seen, route, true);
      var s2 := Step(s1.seen, route, second);
      s2.decision == AlreadyConfigured && !s2.ran && s2.ok && s2.seen == s1.seen
  {
  }

  /** Each call keeps the map consistent, provided the prefix holds no '|'. */
  lemma StepKeepsConsistent(seen: map<string, string>, route: Route, scriptSucceeds: bool)
    requires Consistent(seen)
    requires NoBar(route.prefix)
    ensures Consistent(Step(seen, route, scriptSucceeds).seen)
  {
    var s := Step(seen, route, scriptSucceeds);
    if s.seen != seen {
      assert s.seen == Record(seen, route);
      RecordKeepsKeysMatchRouters(seen, route);
      RecordKeepsPrefixesBacked(seen, route);
    }
  }

  lemma RecordKeepsKeysMatchRouters(seen: map<string, string>, route: Route)
    requires KeysMatchRouters(seen)
    requires NoBar(route.prefix)
    ensures KeysMatchRouters(Record(seen, route))
  {
    var m := Record(seen, route);
    forall other: Route | NoBar(other.prefix) && RouteKey(other) in m
      ensures m[RouteKey(other)] == other.router
    {
      RouteKeyHasBar(other);
      if RouteKey(other) == RouteKey(route) {
        RouteKeyInjective(other, route);
      }
    }
  }

  lemma RecordKeepsPrefixesBacked(seen: map<string, string>, route: Route)
    requires PrefixesBacked(seen)
    ensures PrefixesBacked(Record(seen, route))
  {
    var m := Record(seen, route);
    RouteKeyHasBar(route);
    forall k | k in m && NoBar(k)
      ensures RouteKey(Route(k, m[k], "")) in m
    {
      if k != route.prefix {
        assert k in seen;
      }
    }
  }

  /**
   * In a consistent map, a call classified as a router change names a
   * previous router different from the new one.
   */
  lemma RouterChangeIsAChange(seen: map<string, string>, route: Route, scriptSucceeds: bool)
    requires Consistent(seen)
    requires NoBar(route.prefix)
    requires Step(seen, route, scriptSucceeds).decision.RouterChange?
    ensures Step(seen, route, scriptSucceeds).decision.previous == seen[route.prefix] != route.router
  {
    assert RouteKey(Route(route.prefix, seen[route.prefix], "")) in seen;
  }

  /**
   * Router change: after (p, r1) succeeded, (p, r2) with a new `p|r2` key runs
   * the script as a router change; on success `p` maps to r2 while the key
   * `p|r1` stays.
   */
  lemma RouterChangeKeepsOldKey(seen: map<string, string>, p: string, r1: string, r2: string, iface: string)
    requires Step(seen, Route(p, r1, iface), true).ran
    requires RouteKey(Route(p, r2, iface)) !in seen
    requires r2 != "" && r1 != r2
    ensures var s1 := Step(seen, Route(p, r1, iface), true);
      var s2 := Step(s1.seen, Route(p, r2, iface), true);
      && s2.decision == RouterChange(r1) && s2.ran && s2.ok
      && s2.seen[p] == r2
      && s2.seen[RouteKey(Route(p, r1, iface))] == r1
  {
    var k1, k2 := RouteKey(Route(p, r1, iface)), RouteKey(Route(p, r2, iface));
    var s1 := Step(seen, Route(p, r1, iface), true);
    assert s1.seen == seen[k1 := r1][p := r1];
    assert k2 !in s1.seen;
  }

  /**
   * The retained `p|r1` key shadows a move back: after (p, r1) and then
   * (p, r2) both succeeded, (p, r1) counts as already configured, runs no
   * script, and `p` stays mapped to r2.
   */
  lemma MoveBackIsShadowed(seen: map<string, string>, p: string, r1: string, r2: string, iface: string, third: bool)
    requires Step(seen, Route(p, r1, iface), true).ran
    requires RouteKey(Route(p, r2, iface)) !in seen
    requires r2 != "" && r1 != r2
    ensures var s1 := Step(seen, Route(p, r1, iface), true);
      var s2 := Step(s1.seen, Route(p, r2, iface), true);
      var s3 := Step(s2.seen, Route(p, r1, iface), third);
      s3.decision == AlreadyConfigured && !s3.ran && s3.ok && s3.seen[p] == r2
  {
    RouterChangeKeepsOldKey(seen, p, r1, r2, iface);
  }

  /**
   * Why consistency needs bar-free prefixes: configuring prefix "fd|x" via
   * router "y" leaves the key "fd|x", the `prefix|router` key of ("fd", "x"),
   * mapped to "y".
   */
  lemma BarInPrefixBreaksConsistency()
    ensures var s := Step(map[], Route("fd|x", "y", "eth0"), true);
      RouteKey(Route("fd", "x", "eth0")) in s.seen && s.seen[RouteKey(Route("fd", "x", "eth0"))] == "y"
  {
    assert RouteKey(Route("fd", "x", "eth0")) == "fd|x";
  }

  // ---------------------------------------------------------------------------
  // A run of calls

  /** One call: the route and what the script would report if it were run. */
  datatype Attempt = Attempt(route: Route, scriptSucceeds: bool)

  /** After a run: the map, the routes for which the script ran (in order), and each call's result. */
  datatype ReplayResult = ReplayResult(seen: map<string, string>, runs: seq<Route>, oks: seq<bool>)

  /** The calls of `attempts`, made in order against `seen`. */
  function Replay(seen: map<string, string>, attempts: seq<Attempt>): (r: ReplayResult)
    ensures |r.oks| == |attempts|
  {
    if attempts == [] then ReplayResult(seen, [], [])
    else
      var prev := Replay(seen, attempts[..|attempts| - 1]);
      var last := attempts[|attempts| - 1];
      var s := Step(prev.seen, last.route, last.scriptSucceeds);
      ReplayResult(s.seen, prev.runs + (if s.ran then [last.route] else []), prev.oks + [s.ok])
  }

  /** One more call at the end of a run. */
  lemma ReplaySnoc(seen: map<string, string>, a: seq<Attempt>, x: Attempt)
    ensures var prev := Replay(seen, a);
      var s := Step(prev.seen, x.route, x.scriptSucceeds);
      Replay(seen, a + [x]) == ReplayResult(s.seen, prev.runs + (if s.ran then [x.route] else []), prev.oks + [s.ok])
  {
    assert (a + [x])[..|a|] == a;
  }

  /** A run split in two is the second part replayed from where the first left the map. */
  lemma {:induction false} ReplayAppend(seen: map<string, string>, a: seq<Attempt>, b: seq<Attempt>)
    ensures var ra := Replay(seen, a);
      var rb := Replay(ra.seen, b);
      Replay(seen, a + b) == ReplayResult(rb.seen, ra.runs + rb.runs, ra.oks + rb.oks)
  {
    if b == [] {
      assert a + b == a;
      var ra := Replay(seen, a);
      assert ra.runs + [] == ra.runs && ra.oks + [] == ra.oks;
    } else {
      var b' := b[..|b| - 1];
      assert (a + b)[..|a + b| - 1] == a + b';
      ReplayAppend(seen, a, b');
      var ra := Replay(seen, a);
      var rb' := Replay(ra.seen, b');
      var last := b[|b| - 1];
      var s := Step(rb'.seen, last.route, last.scriptSucceeds);
      var extra := if s.ran then [last.route] else [];
      assert ra.runs + rb'.runs + extra == ra.runs + (rb'.runs + extra);
      assert ra.oks + rb'.oks + [s.ok] == ra.oks + (rb'.oks + [s.ok]);
    }
  }

  /** The map before call `i` of a run. */
  function SeenBefore(seen: map<string, string>, attempts: seq<Attempt>, i: nat): map<string, string>
    requires i <= |attempts|
  {
    Replay(seen, attempts[..i]).seen
  }

  lemma {:induction false} ReplayKeysGrow(seen: map<string, string>, attempts: seq<Attempt>, i: nat, j: nat)
    requires i <= j <= |attempts|
    ensures SeenBefore(seen, attempts, i).Keys <= SeenBefore(seen, attempts, j).Keys
  {
    if i < j {
      ReplayKeysGrow(seen, attempts, i, j - 1);
      var a := attempts[..j];
      assert a[..j - 1] == attempts[..j - 1];
      KeysOnlyGrow(SeenBefore(seen, attempts, j - 1), a[j - 1].route, a[j - 1].scriptSucceeds);
    }
  }

  /**
   * Within a run, once a call for a binding has returned True (the script
   * succeeded or the binding was known), no later call for the same prefix
   * and router runs the script: a repeated binding in one advertisement runs
   * the script at most once when its first run succeeds.
   */
  lemma RepeatAfterOkIsNoOp(seen: map<string, string>, attempts: seq<Attempt>, i: nat, j: nat)
    requires i < j < |attempts|
    requires attempts[j].route.prefix == attempts[i].route.prefix
    requires attempts[j].route.router == attempts[i].route.router
    requires Step(SeenBefore(seen, attempts, i), attempts[i].route, attempts[i].scriptSucceeds).ok
    ensures !Step(SeenBefore(seen, attempts, j), attempts[j].route, attempts[j].scriptSucceeds).ran
  {
    var ai := attempts[i];
    OkMeansKnown(SeenBefore(seen, attempts, i), ai.route, ai.scriptSucceeds);
    assert attempts[..i + 1][..i] == attempts[..i];
    assert RouteKey(ai.route) in SeenBefore(seen, attempts, i + 1);
    ReplayKeysGrow(seen, attempts, i + 1, j);
    assert RouteKey(attempts[j].route) == RouteKey(ai.route);
  }

  /** Every script run of a run was for a ULA prefix with a non-empty router. */
  lemma {:induction false} ReplayRunsOnlyUla(seen: map<string, string>, attempts: seq<Attempt>)
    ensures forall r :: r in Replay(seen, attempts).runs ==> IsUla(r) && r.prefix != "" && r.router != ""
  {
    if attempts != [] {
      ReplayRunsOnlyUla(seen, attempts[..|attempts| - 1]);
    }
  }

  /** A run keeps the map consistent when no prefix in it holds a '|'. */
  lemma {:induction false} ReplayKeepsConsistent(seen: map<string, string>, attempts: seq<Attempt>)
    requires Consistent(seen)
    requires forall i :: 0 <= i < |attempts| ==> NoBar(attempts[i].route.prefix)
    ensures Consistent(Replay(seen, attempts).seen)
  {
    if attempts != [] {
      var init := attempts[..|attempts| - 1];
      ReplayKeepsConsistent(seen, init);
      var last := attempts[|attempts| - 1];
      StepKeepsConsistent(Replay(seen, init).seen, last.route, last.scriptSucceeds);
    }
  }

  // ---------------------------------------------------------------------------
  // The configurator object

  /** `RouteConfigurator`: owns `seen_routes`; `scriptRuns` records each script invocation. */
  class RouteConfigurator {
    var seenRoutes: map<string, string>
    ghost var scriptRuns: seq<Route>

    constructor ()
      ensures seenRoutes == map[] && scriptRuns == []
    {
      seenRoutes := map[];
      scriptRuns := [];
    }

    /**
     * `configure(route)`. The script reports `scriptSucceeds`; it is run only
     * past the empty, ULA and already-known checks. Its environment holds
     * PREFIX, ROUTER and IFACE from `route` merged under the listener's own
     * environment, whose values win where both set a name; `scriptRuns`
     * records the route of the call.
     */
    method Configure(route: Route, scriptSucceeds: bool) returns (ok: bool)
      modifies this
      ensures var s := Step(old(seenRoutes), route, scriptSucceeds);
        && ok == s.ok
        && seenRoutes == s.seen
        && scriptRuns == old(scriptRuns) + (if s.ran then [route] else [])
      ensures old(Consistent(seenRoutes)) && NoBar(route.prefix) ==> Consistent(seenRoutes)
    {
      ghost var before := seenRoutes;
      if route.prefix == "" || route.router == "" {
        return false;
      }
      if !StartsWith(route.prefix, "fd") {
        return false;
      }
      var routeKey := route.prefix + "|" + route.router;
      if routeKey in seenRoutes {
        return true;
      }
      scriptRuns := scriptRuns + [route];
      if scriptSucceeds {
        seenRoutes := seenRoutes[routeKey := route.router];
        seenRoutes := seenRoutes[route.prefix := route.router];
        ok := true;
      } else {
        ok := false;
      }
      if Consistent(before) && NoBar(route.prefix) {
        StepKeepsConsistent(before, route, scriptSucceeds);
      }
    }
  }

  // ---------------------------------------------------------------------------
  // Example runs

  /** A non-ULA prefix from 2001:db8::1 is filtered out and runs no script. */
  lemma ScenarioNonUlaFiltered(seen: map<string, string>, ok: bool)
    ensures var s := Step(seen, Route("2001:db8:1::", "2001:db8::1", "eth0"), ok);
      s.decision == NotUla && !s.ran
  {
    assert "2001:db8:1::"[0] != 'f';
  }

  /** A first ULA prefix from fe80::1 is new and runs the script with that binding. */
  lemma ScenarioNewBinding()
    ensures Step(map[], Route("fd00:abcd::", "fe80::1", "eth0"), true).decision == NewRoute
    ensures Step(map[], Route("fd00:abcd::", "fe80::1", "eth0"), true).ran
  {
  }

  /** The same advertisement again is already configured; a new router fe80::2 is a router change. */
  lemma ScenarioRepeatAndChange(ok: bool)
    ensures var s1 := Step(map[], Route("fd00:abcd::", "fe80::1", "eth0"), true);
      && Step(s1.seen, Route("fd00:abcd::", "fe80::1", "eth0"), ok).decision == AlreadyConfigured
      && Step(s1.seen, Route("fd00:abcd::", "fe80::2", "eth0"), ok).decision == RouterChange("fe80::1")
      && Step(s1.seen, Route("fd00:abcd::", "fe80::2", "eth0"), ok).ran
  {
    var s1 := Step(map[], Route("fd00:abcd::", "fe80::1", "eth0"), true);
    assert NoBar("fd00:abcd::");
    if RouteKey(Route("fd00:abcd::", "fe80::2", "eth0")) == RouteKey(Route("fd00:abcd::", "fe80::1", "eth0")) {
      RouteKeyInjective(Route("fd00:abcd::", "fe80::2", "eth0"), Route("fd00:abcd::", "fe80::1", "eth0"));
    }
  }
}
