// Port forwarding: from the services of the spec to the ports of the one Kubernetes service and back.
module Services {
  import opened Basics
  import opened Text
  import opened Api

  type ServiceSpec = map<string, seq<PortConfig>>

  // The outside port defaults to the inside port.
  function Effective(p: PortConfig): PortConfig {
    if p.outside == 0 then PortConfig(p.inside, p.inside) else p
  }

  // A pair wanted by a service, and the port name it would get.
  datatype Claim = Claim(service: string, pair: PortConfig, key: string)

  function PortKey(service: string, p: PortConfig): string { ToLower(service + Decimal(p.inside)) }

  function ClaimFor(service: string, p: PortConfig): Claim { Claim(service, p, PortKey(service, p)) }

  function ClaimsOf(service: string, ports: seq<PortConfig>): seq<Claim> {
    if ports == [] then []
    else ClaimsOf(service, ports[..|ports| - 1]) + [ClaimFor(service, Effective(ports[|ports| - 1]))]
  }

  function ClaimsIn(names: seq<string>, services: ServiceSpec): seq<Claim>
    requires forall n :: n in names ==> n in services
  {
    if names == [] then []
    else
      var last := names[|names| - 1];
      ClaimsIn(names[..|names| - 1], services) + ClaimsOf(last, services[last])
  }

  // Every port of every service, services in sort order.
  ghost function Claims(services: ServiceSpec): seq<Claim> {
    SortedKeysMembers(services.Keys);
    ClaimsIn(SortedKeys(services.Keys), services)
  }

  datatype Forwarding = Forwarding(serviceMap: map<string, PortConfig>, outIn: map<int, int>, inOut: map<int, int>)

  const NO_FORWARDING := Forwarding(map[], map[], map[])

  // One turn of the inner loop.
  function ForwardOne(f: Forwarding, c: Claim): Result<Forwarding> {
    var p := c.pair;
    if p.outside in f.outIn && f.outIn[p.outside] != p.inside then Err
    else if p.inside in f.inOut && f.inOut[p.inside] != p.outside then Err
    else if p.inside in f.inOut then Ok(f)
    else Ok(Forwarding(f.serviceMap[c.key := p], f.outIn[p.outside := p.inside], f.inOut[p.inside := p.outside]))
  }

  function Forward(claims: seq<Claim>): Result<Forwarding> {
    if claims == [] then Ok(NO_FORWARDING)
    else
      var f :- Forward(claims[..|claims| - 1]);
      ForwardOne(f, claims[|claims| - 1])
  }

  ghost function ServiceMap(services: ServiceSpec): Result<map<string, PortConfig>> {
    var f :- Forward(Claims(services));
    Ok(f.serviceMap)
  }

  lemma ForwardStep(claims: seq<Claim>, c: Claim)
    ensures Forward(claims + [c]) == if Forward(claims).Err? then Err else ForwardOne(Forward(claims).value, c)
  {
  }

  lemma {:induction false} ForwardFailsForGood(claims: seq<Claim>, all: seq<Claim>)
    requires Forward(claims).Err? && claims <= all
    ensures Forward(all).Err?
  {
    if claims == all {
    } else {
      ForwardFailsForGood(claims, all[..|all| - 1]);
    }
  }

  // The claims seen when the outer loop is at `i` and the inner loop at `j`.
  ghost function ClaimsUpTo(names: seq<string>, services: ServiceSpec, i: nat, j: nat): seq<Claim>
    requires forall n :: n in names ==> n in services
    requires i < |names| && j <= |services[names[i]]|
  {
    ClaimsIn(names[..i], services) + ClaimsOf(names[i], services[names[i]][..j])
  }

  lemma UpToStep(names: seq<string>, services: ServiceSpec, i: nat, j: nat)
    requires forall n :: n in names ==> n in services
    requires i < |names| && j < |services[names[i]]|
    ensures ClaimsUpTo(names, services, i, j + 1)
         == ClaimsUpTo(names, services, i, j) + [ClaimFor(names[i], Effective(services[names[i]][j]))]
  {
    var ports := services[names[i]];
    assert ports[..j + 1][..j] == ports[..j];
  }

  lemma UpToBounds(names: seq<string>, services: ServiceSpec, i: nat)
    requires forall n :: n in names ==> n in services
    requires i < |names|
    ensures ClaimsUpTo(names, services, i, 0) == ClaimsIn(names[..i], services)
    ensures ClaimsUpTo(names, services, i, |services[names[i]]|) == ClaimsIn(names[..i + 1], services)
  {
    var ports := services[names[i]];
    assert ports[..|ports|] == ports;
    assert names[..i + 1][..i] == names[..i];
  }

  lemma {:induction false} UpToPrefix(names: seq<string>, services: ServiceSpec, i: nat, j: nat)
    requires forall n :: n in names ==> n in services
    requires i < |names| && j <= |services[names[i]]|
    ensures ClaimsUpTo(names, services, i, j) <= ClaimsIn(names[..i + 1], services)
    decreases |services[names[i]]| - j
  {
    if j == |services[names[i]]| {
      UpToBounds(names, services, i);
    } else {
      UpToStep(names, services, i, j);
      UpToPrefix(names, services, i, j + 1);
    }
  }

  lemma {:induction false} ClaimsInPrefix(names: seq<string>, services: ServiceSpec, i: nat)
    requires i <= |names| && forall n :: n in names ==> n in services
    ensures ClaimsIn(names[..i], services) <= ClaimsIn(names, services)
  {
    if i == |names| {
      assert names[..i] == names;
    } else {
      ClaimsInPrefix(names[..|names| - 1], services, i);
      assert names[..|names| - 1][..i] == names[..i];
    }
  }

  lemma FailureReachesEnd(names: seq<string>, services: ServiceSpec, i: nat, j: nat)
    requires forall n :: n in names ==> n in services
    requires i < |names| && j <= |services[names[i]]|
    requires Forward(ClaimsUpTo(names, services, i, j)).Err?
    ensures Forward(ClaimsIn(names, services)).Err?
  {
    UpToPrefix(names, services, i, j);
    ForwardFailsForGood(ClaimsUpTo(names, services, i, j), ClaimsIn(names[..i + 1], services));
    ClaimsInPrefix(names, services, i + 1);
    ForwardFailsForGood(ClaimsIn(names[..i + 1], services), ClaimsIn(names, services));
  }

  // One turn of the inner loop; if it fails, so does the whole.
  lemma TurnOfInnerLoop(names: seq<string>, services: ServiceSpec, i: nat, j: nat, f: Forwarding)
    requires forall n :: n in names ==> n in services
    requires i < |names| && j < |services[names[i]]|
    requires Forward(ClaimsUpTo(names, services, i, j)) == Ok(f)
    ensures var turn := ForwardOne(f, ClaimFor(names[i], Effective(services[names[i]][j])));
            && Forward(ClaimsUpTo(names, services, i, j + 1)) == turn
            && (turn.Err? ==> Forward(ClaimsIn(names, services)).Err?)
  {
    UpToStep(names, services, i, j);
    ForwardStep(ClaimsUpTo(names, services, i, j), ClaimFor(names[i], Effective(services[names[i]][j])));
    if Forward(ClaimsUpTo(names, services, i, j + 1)).Err? {
      FailureReachesEnd(names, services, i, j + 1);
    }
  }

  // getServiceMap: one result whatever order the services are ranged over.
  method GetServiceMap(services: ServiceSpec) returns (r: Result<map<string, PortConfig>>)
    ensures r == ServiceMap(services)
  {
    var names := SortedRange(services.Keys);
    var serviceMap: map<string, PortConfig> := map[];
    var portMappingOutIn: map<int, int> := map[];
    var portMappingInOut: map<int, int> := map[];
    for i := 0 to |names|
      invariant Forward(ClaimsIn(names[..i], services))
                == Ok(Forwarding(serviceMap, portMappingOutIn, portMappingInOut))
    {
      var ports := services[names[i]];
      UpToBounds(names, services, i);
      for j := 0 to |ports|
        invariant Forward(ClaimsUpTo(names, services, i, j))
               == Ok(Forwarding(serviceMap, portMappingOutIn, portMappingInOut))
      {
        var effective := ports[j];
        if ports[j].outside == 0 {
          effective := effective.(outside := ports[j].inside);
        }
        TurnOfInnerLoop(names, services, i, j, Forwarding(serviceMap, portMappingOutIn, portMappingInOut));
        if effective.outside in portMappingOutIn && portMappingOutIn[effective.outside] != effective.inside {
          return Err;
        }
        if effective.inside in portMappingInOut && portMappingInOut[effective.inside] != effective.outside {
          return Err;
        }
        if effective.inside in portMappingInOut {
          continue;
        }
        portMappingOutIn := portMappingOutIn[effective.outside := effective.inside];
        portMappingInOut := portMappingInOut[effective.inside := effective.outside];
        serviceMap := serviceMap[ToLower(names[i] + Decimal(effective.inside)) := effective];
      }
    }
    assert names[..|names|] == names;
    r := Ok(serviceMap);
  }

  // ----- When forwarding succeeds, and what it then records -----

  // The two pairs agree on one side and differ on the other.
  predicate Conflict(p: PortConfig, q: PortConfig) {
    (p.inside == q.inside) != (p.outside == q.outside)
  }

  ghost predicate ConflictFree(pairs: set<PortConfig>) {
    forall p, q :: p in pairs && q in pairs ==> !Conflict(p, q)
  }

  ghost function PairsOf(claims: seq<Claim>): set<PortConfig> {
    if claims == [] then {} else PairsOf(claims[..|claims| - 1]) + {claims[|claims| - 1].pair}
  }

  // The claims that are the first for their pair.
  ghost function Firsts(claims: seq<Claim>): set<Claim> {
    if claims == [] then {}
    else
      var rest, last := claims[..|claims| - 1], claims[|claims| - 1];
      if last.pair in PairsOf(rest) then Firsts(rest) else Firsts(rest) + {last}
  }

  // The two port maps hold exactly these pairs, one map from each side.
  ghost predicate Tracks(pairs: set<PortConfig>, f: Forwarding) {
    && (forall p :: p in pairs ==> p.outside in f.outIn && f.outIn[p.outside] == p.inside)
    && (forall p :: p in pairs ==> p.inside in f.inOut && f.inOut[p.inside] == p.outside)
    && (forall o :: o in f.outIn ==> PortConfig(f.outIn[o], o) in pairs)
    && (forall n :: n in f.inOut ==> PortConfig(n, f.inOut[n]) in pairs)
  }

  // Every first claim owns a key, and every entry is a first claim's.
  ghost predicate Named(firsts: set<Claim>, m: map<string, PortConfig>) {
    && (forall c :: c in firsts ==> c.key in m)
    && (forall k :: k in m ==> exists c :: c in firsts && c.key == k && c.pair == m[k])
  }

  lemma ForwardOneExact(pairs: set<PortConfig>, f: Forwarding, c: Claim)
    requires ConflictFree(pairs) && Tracks(pairs, f)
    ensures ForwardOne(f, c).Ok? <==> ConflictFree(pairs + {c.pair})
    ensures ForwardOne(f, c).Ok? ==> Tracks(pairs + {c.pair}, ForwardOne(f, c).value)
    ensures ForwardOne(f, c).Ok? ==> (c.pair in pairs <==> c.pair.inside in f.inOut)
  {
  }

  lemma NamedOneMore(firsts: set<Claim>, m: map<string, PortConfig>, c: Claim)
    requires Named(firsts, m)
    ensures Named(firsts + {c}, m[c.key := c.pair])
  {
  }

  lemma {:induction false} ForwardExact(claims: seq<Claim>)
    ensures Forward(claims).Ok? <==> ConflictFree(PairsOf(claims))
    ensures Forward(claims).Ok? ==> Tracks(PairsOf(claims), Forward(claims).value)
    ensures Forward(claims).Ok? ==> Named(Firsts(claims), Forward(claims).value.serviceMap)
  {
    if claims == [] {
    } else {
      var rest, last := claims[..|claims| - 1], claims[|claims| - 1];
      ForwardExact(rest);
      if Forward(rest).Ok? {
        ForwardOneExact(PairsOf(rest), Forward(rest).value, last);
        NamedOneMore(Firsts(rest), Forward(rest).value.serviceMap, last);
      } else {
        var p, q :| p in PairsOf(rest) && q in PairsOf(rest) && Conflict(p, q);
        assert p in PairsOf(claims) && q in PairsOf(claims);
      }
    }
  }

  // Throughout the loops the two port maps are inverse bijections.
  lemma PortMapsInverse(claims: seq<Claim>)
    requires Forward(claims).Ok?
    ensures var f := Forward(claims).value;
            && (forall o :: o in f.outIn ==> f.outIn[o] in f.inOut && f.inOut[f.outIn[o]] == o)
            && (forall n :: n in f.inOut ==> f.inOut[n] in f.outIn && f.outIn[f.inOut[n]] == n)
  {
  }

  // ----- From claims back to the spec -----

  ghost function EffectivePairs(services: ServiceSpec): set<PortConfig> {
    set s, i | s in services && 0 <= i < |services[s]| :: Effective(services[s][i])
  }

  ghost predicate Claimant(services: ServiceSpec, s: string, p: PortConfig) {
    s in services && Wants(services[s], p)
  }

  ghost predicate Wants(ports: seq<PortConfig>, p: PortConfig) {
    exists i :: 0 <= i < |ports| && Effective(ports[i]) == p
  }

  // `s` is the first service, in sort order, that wants `p`.
  ghost predicate LeastClaimant(services: ServiceSpec, s: string, p: PortConfig) {
    Claimant(services, s, p) && forall t :: Claimant(services, t, p) ==> LessEq(s, t)
  }

  ghost predicate Ordered(claims: seq<Claim>) {
    forall i, j :: 0 <= i <= j < |claims| ==> LessEq(claims[i].service, claims[j].service)
  }

  lemma {:induction false} FirstsComeFirst(claims: seq<Claim>)
    requires Ordered(claims)
    ensures forall c :: c in claims ==> c.pair in PairsOf(claims)
    ensures forall c :: c in Firsts(claims) ==> c in claims
    ensures forall c, d :: c in Firsts(claims) && d in claims && c.pair == d.pair ==> LessEq(c.service, d.service)
  {
    if claims == [] {
    } else {
      var rest, last := claims[..|claims| - 1], claims[|claims| - 1];
      assert claims == rest + [last];
      assert Ordered(rest);
      FirstsComeFirst(rest);
      assert LessEq(last.service, last.service);
      forall c | c in rest ensures LessEq(c.service, last.service) {
        var i :| 0 <= i < |rest| && rest[i] == c;
        assert claims[i] == c;
      }
    }
  }

  lemma {:induction false} FirstOfPair(claims: seq<Claim>, p: PortConfig) returns (c: Claim)
    requires p in PairsOf(claims)
    ensures c in Firsts(claims) && c in claims && c.pair == p
  {
    var rest, last := claims[..|claims| - 1], claims[|claims| - 1];
    if p in PairsOf(rest) {
      c := FirstOfPair(rest, p);
    } else {
      c := last;
    }
  }

  lemma {:induction false} ClaimsOfMembers(service: string, ports: seq<PortConfig>)
    ensures forall c :: c in ClaimsOf(service, ports) ==> Wants(ports, c.pair) && c == ClaimFor(service, c.pair)
    ensures forall p :: Wants(ports, p) ==> ClaimFor(service, p) in ClaimsOf(service, ports)
  {
    if ports == [] {
    } else {
      var rest, last := ports[..|ports| - 1], ports[|ports| - 1];
      ClaimsOfMembers(service, rest);
      forall p ensures Wants(ports, p) <==> Wants(rest, p) || p == Effective(last) {
        if Wants(rest, p) {
          var i :| 0 <= i < |rest| && Effective(rest[i]) == p;
          assert Effective(ports[i]) == p;
        }
      }
    }
  }

  lemma {:induction false} ClaimsInMembers(names: seq<string>, services: ServiceSpec)
    requires forall n :: n in names ==> n in services
    ensures forall c :: c in ClaimsIn(names, services) ==>
              c.service in names && Claimant(services, c.service, c.pair) && c == ClaimFor(c.service, c.pair)
    ensures forall s, p :: s in names && Claimant(services, s, p) ==> ClaimFor(s, p) in ClaimsIn(names, services)
  {
    if names == [] {
    } else {
      var rest, last := names[..|names| - 1], names[|names| - 1];
      assert names == rest + [last];
      ClaimsInMembers(rest, services);
      ClaimsOfMembers(last, services[last]);
    }
  }

  lemma {:induction false} ClaimsInOrdered(names: seq<string>, services: ServiceSpec)
    requires forall n :: n in names ==> n in services
    requires Ascending(names)
    ensures Ordered(ClaimsIn(names, services))
  {
    if names == [] {
    } else {
      var rest, last := names[..|names| - 1], names[|names| - 1];
      ClaimsInOrdered(rest, services);
      ClaimsInMembers(rest, services);
      ClaimsOfMembers(last, services[last]);
      LessEqTotal(last, last);
      var before, mine := ClaimsIn(rest, services), ClaimsOf(last, services[last]);
      forall c | c in before ensures LessEq(c.service, last) {
        var k :| 0 <= k < |rest| && rest[k] == c.service;
        assert names[k] == c.service;
      }
      forall c | c in mine ensures c.service == last {
      }
      OrderedAppend(before, mine, last);
    }
  }

  lemma OrderedAppend(before: seq<Claim>, mine: seq<Claim>, last: string)
    requires Ordered(before) && LessEq(last, last)
    requires forall c :: c in before ==> LessEq(c.service, last)
    requires forall c :: c in mine ==> c.service == last
    ensures Ordered(before + mine)
  {
  }

  lemma ClaimsAreSpec(services: ServiceSpec)
    ensures Ordered(Claims(services))
    ensures forall c :: c in Claims(services) <==>
              Claimant(services, c.service, c.pair) && c == ClaimFor(c.service, c.pair)
    ensures PairsOf(Claims(services)) == EffectivePairs(services)
  {
    var names := SortedKeys(services.Keys);
    SortedKeysMembers(services.Keys);
    SortedKeysAscend(services.Keys);
    ClaimsInMembers(names, services);
    ClaimsInOrdered(names, services);
    FirstsComeFirst(Claims(services));
    forall p | p in EffectivePairs(services) ensures p in PairsOf(Claims(services)) {
      var s := PairClaimant(services, p);
      assert ClaimFor(s, p) in Claims(services);
    }
    forall p | p in PairsOf(Claims(services)) ensures p in EffectivePairs(services) {
      var c := FirstOfPair(Claims(services), p);
      assert Claimant(services, c.service, p);
    }
  }

  lemma PairClaimant(services: ServiceSpec, p: PortConfig) returns (s: string)
    requires p in EffectivePairs(services)
    ensures Claimant(services, s, p)
  {
    var i: int;
    s, i :| s in services && 0 <= i < |services[s]| && Effective(services[s][i]) == p;
  }

  // The first claim for a pair is made by the least service that wants it, and the other way round.
  lemma FirstsAreLeast(services: ServiceSpec, s: string, p: PortConfig)
    ensures LeastClaimant(services, s, p) <==> ClaimFor(s, p) in Firsts(Claims(services))
  {
    var cs := Claims(services);
    ClaimsAreSpec(services);
    FirstsComeFirst(cs);
    if LeastClaimant(services, s, p) {
      assert ClaimFor(s, p) in cs && p in PairsOf(cs);
      var c := FirstOfPair(cs, p);
      assert Claimant(services, c.service, p);
      LessEqTotal(s, c.service);
    }
    if ClaimFor(s, p) in Firsts(cs) {
      forall t | Claimant(services, t, p) ensures LessEq(s, t) {
        assert ClaimFor(t, p) in cs;
      }
    }
  }

  // getServiceMap fails if and only if two effective pairs agree on one side and differ on the other.
  lemma FailsIffConflict(services: ServiceSpec)
    ensures ServiceMap(services).Err? <==>
            exists p, q :: p in EffectivePairs(services) && q in EffectivePairs(services) && Conflict(p, q)
  {
    ForwardExact(Claims(services));
    ClaimsAreSpec(services);
  }

  ghost predicate Forwards(services: ServiceSpec, k: string, p: PortConfig) {
    ServiceMap(services).Ok? && k in ServiceMap(services).value && ServiceMap(services).value[k] == p
  }

  // Every entry forwards a pair of the spec, under the name of the least service that wants it; no two
  // entries share a port on either side.
  lemma EntryNamedAfterLeast(services: ServiceSpec, k: string, p: PortConfig) returns (s: string)
    requires Forwards(services, k, p)
    ensures LeastClaimant(services, s, p) && k == PortKey(s, p)
  {
    var cs := Claims(services);
    ForwardExact(cs);
    ClaimsAreSpec(services);
    FirstsComeFirst(cs);
    var c :| c in Firsts(cs) && c.key == k && c.pair == p;
    s := c.service;
    assert c == ClaimFor(s, p);
    FirstsAreLeast(services, s, p);
  }

  lemma LeastClaimantGetsKey(services: ServiceSpec, s: string, p: PortConfig)
    requires ServiceMap(services).Ok? && LeastClaimant(services, s, p)
    ensures PortKey(s, p) in ServiceMap(services).value
  {
    ForwardExact(Claims(services));
    FirstsAreLeast(services, s, p);
  }

  lemma EntriesOneToOne(services: ServiceSpec, k: string, p: PortConfig, l: string, q: PortConfig)
    requires Forwards(services, k, p) && Forwards(services, l, q)
    requires p.inside == q.inside || p.outside == q.outside
    ensures k == l
  {
    var s := EntryNamedAfterLeast(services, k, p);
    var t := EntryNamedAfterLeast(services, l, q);
    PairOfClaimant(services, s, p);
    PairOfClaimant(services, t, q);
    FailsIffConflict(services);
    assert !Conflict(p, q);
    LessEqTotal(s, t);
  }

  lemma PairOfClaimant(services: ServiceSpec, s: string, p: PortConfig)
    requires Claimant(services, s, p)
    ensures p in EffectivePairs(services)
  {
  }

  // Two different pairs whose least claimants produce one port name.
  ghost predicate KeysCollide(services: ServiceSpec) {
    exists s, p, t, q :: Collision(services, s, p, t, q)
  }

  ghost predicate Collision(services: ServiceSpec, s: string, p: PortConfig, t: string, q: PortConfig) {
    LeastClaimant(services, s, p) && LeastClaimant(services, t, q) && p != q && PortKey(s, p) == PortKey(t, q)
  }

  lemma PairHasLeastClaimant(services: ServiceSpec, p: PortConfig) returns (s: string)
    requires p in EffectivePairs(services)
    ensures LeastClaimant(services, s, p)
  {
    var cs := Claims(services);
    ClaimsAreSpec(services);
    FirstsComeFirst(cs);
    var c := FirstOfPair(cs, p);
    s := c.service;
    assert c == ClaimFor(s, p);
    FirstsAreLeast(services, s, p);
  }

  // No forwarded port is lost exactly when no two port names collide.
  lemma NothingLostIffNoCollision(services: ServiceSpec)
    requires ServiceMap(services).Ok?
    ensures ServiceMap(services).value.Values == EffectivePairs(services) <==> !KeysCollide(services)
  {
    var m := ServiceMap(services).value;
    forall k | k in m ensures m[k] in EffectivePairs(services) {
      var s := EntryNamedAfterLeast(services, k, m[k]);
      PairOfClaimant(services, s, m[k]);
    }
    if !KeysCollide(services) {
      forall p | p in EffectivePairs(services) ensures p in m.Values {
        var s := PairHasLeastClaimant(services, p);
        LeastClaimantGetsKey(services, s, p);
        var k := PortKey(s, p);
        var t := EntryNamedAfterLeast(services, k, m[k]);
        assert !Collision(services, s, p, t, m[k]);
      }
    } else {
      var s, p, t, q :| Collision(services, s, p, t, q);
      PairOfClaimant(services, s, p);
      PairOfClaimant(services, t, q);
      if p in m.Values {
        KeptUnderOwnKey(services, s, p);
      }
      if q in m.Values {
        KeptUnderOwnKey(services, t, q);
      }
    }
  }

  lemma KeptUnderOwnKey(services: ServiceSpec, s: string, p: PortConfig)
    requires ServiceMap(services).Ok? && LeastClaimant(services, s, p)
    requires p in ServiceMap(services).value.Values
    ensures Forwards(services, PortKey(s, p), p)
  {
    var m := ServiceMap(services).value;
    var k :| k in m && m[k] == p;
    var t := EntryNamedAfterLeast(services, k, p);
    LessEqTotal(s, t);
  }

  lemma PortKeyTellsPort(s: string, p: PortConfig, t: string, q: PortConfig)
    requires PortKey(s, p) == PortKey(t, q)
    requires p.inside >= 0 && q.inside >= 0 && !EndsInDigit(s) && !EndsInDigit(t)
    ensures p.inside == q.inside
  {
    DigitsAreDigits(p.inside);
    DigitsAreDigits(q.inside);
    ToLowerOnDigits(s, Digits(p.inside));
    ToLowerOnDigits(t, Digits(q.inside));
    ToLowerKeepsDigits(s);
    ToLowerKeepsDigits(t);
    TrailingNumber(ToLower(s), p.inside, ToLower(t), q.inside);
  }

  // So no port is lost when ports are non-negative and no service name ends in a digit.
  lemma NothingLostForPlainNames(services: ServiceSpec)
    requires ServiceMap(services).Ok?
    requires forall s :: s in services ==> !EndsInDigit(s)
    requires forall p :: p in EffectivePairs(services) ==> p.inside >= 0
    ensures ServiceMap(services).value.Values == EffectivePairs(services)
  {
    if KeysCollide(services) {
      var s, p, t, q :| Collision(services, s, p, t, q);
      PairOfClaimant(services, s, p);
      PairOfClaimant(services, t, q);
      FailsIffConflict(services);
      assert !Conflict(p, q);
      PortKeyTellsPort(s, p, t, q);
    }
    NothingLostIffNoCollision(services);
  }

  // A service name that ends in a digit can swallow another service's port.
  lemma DigitsInNamesLosePorts()
    ensures var services: ServiceSpec := map["foo1" := [PortConfig(22, 0)], "foo" := [PortConfig(122, 0)]];
            && ServiceMap(services).Ok?
            && ServiceMap(services).value.Values != EffectivePairs(services)
  {
    FooKeys();
    assert |"foo"| != |"foo1"|;
    CollidingNamesLosePort("foo1", 22, "foo", 122);
  }

  lemma CollidingNamesLosePort(s: string, m: int, t: string, n: int)
    requires s != t && m != n && PortKey(s, PortConfig(m, m)) == PortKey(t, PortConfig(n, n))
    ensures var services: ServiceSpec := map[s := [PortConfig(m, 0)], t := [PortConfig(n, 0)]];
            && ServiceMap(services).Ok?
            && ServiceMap(services).value.Values != EffectivePairs(services)
  {
    var services: ServiceSpec := map[s := [PortConfig(m, 0)], t := [PortConfig(n, 0)]];
    var p, q := PortConfig(m, m), PortConfig(n, n);
    TwoServices(services, s, p, t, q);
    forall x | x in EffectivePairs(services) ensures x == p || x == q {
      var u := PairClaimant(services, x);
    }
    FailsIffConflict(services);
    assert Collision(services, s, p, t, q);
    NothingLostIffNoCollision(services);
  }

  lemma TwoServices(services: ServiceSpec, s: string, p: PortConfig, t: string, q: PortConfig)
    requires s != t && p != q && p.outside == p.inside && q.outside == q.inside
    requires services == map[s := [PortConfig(p.inside, 0)], t := [PortConfig(q.inside, 0)]]
    ensures forall u, x :: Claimant(services, u, x) ==> (u == s && x == p) || (u == t && x == q)
    ensures LeastClaimant(services, s, p) && LeastClaimant(services, t, q)
  {
    assert Effective(services[s][0]) == p && Effective(services[t][0]) == q;
    LessEqTotal(s, s);
    LessEqTotal(t, t);
  }

  lemma FooKeys()
    ensures PortKey("foo1", PortConfig(22, 22)) == PortKey("foo", PortConfig(122, 122))
  {
    assert Digits(22) == "22" by { assert Digits(2) == "2"; }
    assert Digits(122) == "122" by { assert Digits(1) == "1" && Digits(12) == "12"; }
    assert "foo1" + Decimal(22) == "foo122" == "foo" + Decimal(122);
  }

  // ----- To the Kubernetes API and back -----

  function PortFor(name: string, p: PortConfig): ServicePort { ServicePort(name, p.outside, p.inside) }

  function PortsInOrder(order: seq<string>, m: map<string, PortConfig>): seq<ServicePort>
    requires forall n :: n in order ==> n in m
  {
    if order == [] then []
    else PortsInOrder(order[..|order| - 1], m) + [PortFor(order[|order| - 1], m[order[|order| - 1]])]
  }

  ghost function ServicePortsApi(m: map<string, PortConfig>): seq<ServicePort> {
    SortedKeysMembers(m.Keys);
    PortsInOrder(SortedKeys(m.Keys), m)
  }

  method GetServicePortsApi(m: map<string, PortConfig>) returns (ports: seq<ServicePort>)
    ensures ports == ServicePortsApi(m)
  {
    var services := SortedRange(m.Keys);
    ports := [];
    for i := 0 to |services|
      invariant ports == PortsInOrder(services[..i], m)
    {
      assert services[..i + 1][..i] == services[..i];
      ports := ports + [PortFor(services[i], m[services[i]])];
    }
    assert services[..|services|] == services;
  }

  function ServiceMapFromApi(ports: seq<ServicePort>): map<string, PortConfig> {
    if ports == [] then map[]
    else
      var last := ports[|ports| - 1];
      ServiceMapFromApi(ports[..|ports| - 1])[last.name := PortConfig(last.targetPort, last.port)]
  }

  method GetServiceMapFromApi(ports: seq<ServicePort>) returns (m: map<string, PortConfig>)
    ensures m == ServiceMapFromApi(ports)
  {
    m := map[];
    for i := 0 to |ports|
      invariant m == ServiceMapFromApi(ports[..i])
    {
      m := m[ports[i].name := PortConfig(ports[i].targetPort, ports[i].port)];
      assert ports[..i + 1][..i] == ports[..i];
    }
    assert ports[..|ports|] == ports;
  }

  lemma {:induction false} PortsInOrderReadBack(order: seq<string>, m: map<string, PortConfig>)
    requires forall n :: n in order ==> n in m
    ensures ServiceMapFromApi(PortsInOrder(order, m)) == map n | n in order :: m[n]
  {
    if order == [] {
    } else {
      var rest, last := order[..|order| - 1], order[|order| - 1];
      assert order == rest + [last];
      PortsInOrderReadBack(rest, m);
      assert PortsInOrder(order, m)[..|PortsInOrder(order, m)| - 1] == PortsInOrder(rest, m);
    }
  }

  // What was pushed to the API is what is read from it.
  lemma ServicePortsReadBack(m: map<string, PortConfig>)
    ensures ServiceMapFromApi(ServicePortsApi(m)) == m
  {
    var order := SortedKeys(m.Keys);
    SortedKeysMembers(m.Keys);
    PortsInOrderReadBack(order, m);
    assert (map n | n in order :: m[n]) == m;
  }
}
