// The forwarded ports in terms of the spec alone, whatever names collide.
module AskedServices {
  import opened Basics
  import opened Text
  import opened Api
  import opened Services
  import opened Reading

  // ----- What the spec asks for -----

  // The `i`-th port of service `s` asks for a pair; the outside port defaults to the inside port.
  predicate Asks(services: ServiceSpec, s: string, i: nat, inside: int, outside: int) {
    && s in services && i < |services[s]|
    && inside == services[s][i].inside
    && outside == if services[s][i].outside == 0 then services[s][i].inside else services[s][i].outside
  }

  // Services in sort order, the ports of each in the order of the spec.
  predicate Before(s: string, i: nat, t: string, j: nat) {
    if s == t then i < j else LessEq(s, t)
  }

  // Nothing before it asks for the same pair.
  ghost predicate AsksFirst(services: ServiceSpec, s: string, i: nat, inside: int, outside: int) {
    && Asks(services, s, i, inside, outside)
    && forall t, j: nat :: Asks(services, t, j, inside, outside) ==> !Before(t, j, s, i)
  }

  // Among the first to ask for a pair, the last with this name decides.
  ghost predicate Decides(services: ServiceSpec, k: string, s: string, i: nat, inside: int, outside: int) {
    && AsksFirst(services, s, i, inside, outside) && k == ToLower(s + Decimal(inside))
    && forall t, j: nat, n, o ::
         AsksFirst(services, t, j, n, o) && k == ToLower(t + Decimal(n)) ==> !Before(s, i, t, j)
  }

  ghost predicate Forwarded(services: ServiceSpec, k: string, inside: int, outside: int) {
    exists s, i: nat :: Decides(services, k, s, i, inside, outside)
  }

  // Two ports of the spec agree on one side and differ on the other.
  ghost predicate AsksConflict(services: ServiceSpec) {
    exists s, i: nat, t, j: nat, n, o, n', o' :: ConflictingAsks(services, s, i, n, o, t, j, n', o')
  }

  predicate ConflictingAsks(services: ServiceSpec, s: string, i: nat, n: int, o: int,
                            t: string, j: nat, n': int, o': int)
  {
    Asks(services, s, i, n, o) && Asks(services, t, j, n', o') && (n == n') != (o == o')
  }

  // The ports from which the service map is read: of those with one name the last counts.
  ghost predicate PortsRead(ports: seq<ServicePort>, k: string, inside: int, outside: int) {
    exists i :: LastPort(ports, i, k, inside, outside)
  }

  predicate LastPort(ports: seq<ServicePort>, i: int, k: string, inside: int, outside: int) {
    && 0 <= i < |ports| && ports[i] == ServicePort(k, outside, inside)
    && forall j :: i < j < |ports| ==> ports[j].name != k
  }

  function PortNames(ports: seq<ServicePort>): seq<string> {
    seq(|ports|, i requires 0 <= i < |ports| => ports[i].name)
  }

  // ----- The pairs -----

  lemma EffectiveIsAsked(services: ServiceSpec, s: string, i: nat, inside: int, outside: int)
    ensures Asks(services, s, i, inside, outside) <==>
            s in services && i < |services[s]| && Effective(services[s][i]) == PortConfig(inside, outside)
  {
  }

  lemma EffectivePairsExactly(services: ServiceSpec)
    ensures EffectivePairs(services) == set s, i | s in services && 0 <= i < |services[s]| ::
              PortConfig(services[s][i].inside,
                         if services[s][i].outside == 0 then services[s][i].inside else services[s][i].outside)
  {
    forall s, i: nat | s in services && i < |services[s]|
      ensures var p := services[s][i];
              Effective(p) == PortConfig(p.inside, if p.outside == 0 then p.inside else p.outside)
    {
      var p := Effective(services[s][i]);
      EffectiveIsAsked(services, s, i, p.inside, p.outside);
    }
  }

  lemma FailsIffAsksConflict(services: ServiceSpec)
    ensures ServiceMap(services).Err? <==> AsksConflict(services)
  {
    FailsIffConflict(services);
    if ServiceMap(services).Err? {
      var p, q :| p in EffectivePairs(services) && q in EffectivePairs(services) && Conflict(p, q);
      var s, i: int :| s in services && 0 <= i < |services[s]| && Effective(services[s][i]) == p;
      var t, j: int :| t in services && 0 <= j < |services[t]| && Effective(services[t][j]) == q;
      EffectiveIsAsked(services, s, i, p.inside, p.outside);
      EffectiveIsAsked(services, t, j, q.inside, q.outside);
      assert ConflictingAsks(services, s, i, p.inside, p.outside, t, j, q.inside, q.outside);
    }
    if AsksConflict(services) {
      var s, i: nat, t, j: nat, n, o, n', o' :| ConflictingAsks(services, s, i, n, o, t, j, n', o');
      EffectiveIsAsked(services, s, i, n, o);
      EffectiveIsAsked(services, t, j, n', o');
      assert Conflict(PortConfig(n, o), PortConfig(n', o'));
    }
  }

  // ----- Which claim decides about a name -----

  ghost predicate FirstAt(claims: seq<Claim>, x: int) {
    0 <= x < |claims| && forall y :: 0 <= y < x ==> claims[y].pair != claims[x].pair
  }

  ghost predicate Wins(claims: seq<Claim>, x: int, k: string) {
    FirstAt(claims, x) && claims[x].key == k && forall y :: x < y && FirstAt(claims, y) ==> claims[y].key != k
  }

  lemma {:induction false} PairsAt(claims: seq<Claim>)
    ensures forall p :: p in PairsOf(claims) <==> exists x :: 0 <= x < |claims| && claims[x].pair == p
  {
    if claims == [] {
    } else {
      PairsAt(claims[..|claims| - 1]);
    }
  }

  lemma WinsBefore(claims: seq<Claim>, k: string)
    requires claims != []
    ensures var last := |claims| - 1;
            && (forall x :: x < last ==> (FirstAt(claims, x) <==> FirstAt(claims[..last], x)))
            && (forall x :: x < last && !(FirstAt(claims, last) && claims[last].key == k) ==>
                  (Wins(claims, x, k) <==> Wins(claims[..last], x, k)))
  {
    var last := |claims| - 1;
    forall x | x < last ensures FirstAt(claims, x) <==> FirstAt(claims[..last], x) {
    }
    forall x | x < last && !(FirstAt(claims, last) && claims[last].key == k)
      ensures Wins(claims, x, k) <==> Wins(claims[..last], x, k)
    {
      forall y | x < y ensures FirstAt(claims, y) && y != last <==> FirstAt(claims[..last], y) {
      }
    }
  }

  ghost predicate MapTells(claims: seq<Claim>, m: map<string, PortConfig>, k: string, p: PortConfig) {
    k in m && m[k] == p <==> exists x :: Wins(claims, x, k) && claims[x].pair == p
  }

  lemma NewPairIsFirst(claims: seq<Claim>)
    requires claims != []
    ensures FirstAt(claims, |claims| - 1) <==> claims[|claims| - 1].pair !in PairsOf(claims[..|claims| - 1])
  {
    var last := |claims| - 1;
    PairsAt(claims[..last]);
    if claims[last].pair in PairsOf(claims[..last]) {
      var x :| 0 <= x < last && claims[..last][x].pair == claims[last].pair;
      assert claims[x].pair == claims[last].pair;
    }
  }

  // Whether the last claim is the first for its pair, as the loop decides it.
  lemma LastIsFirst(claims: seq<Claim>)
    requires claims != [] && Forward(claims).Ok?
    ensures var last := |claims| - 1;
            && Forward(claims[..last]).Ok?
            && (FirstAt(claims, last) <==> claims[last].pair.inside !in Forward(claims[..last]).value.inOut)
  {
    var rest := claims[..|claims| - 1];
    NewPairIsFirst(claims);
    ForwardExact(rest);
    ForwardOneExact(PairsOf(rest), Forward(rest).value, claims[|claims| - 1]);
  }

  lemma {:induction false} LastFirstClaimDecides(claims: seq<Claim>, k: string, p: PortConfig)
    requires Forward(claims).Ok?
    ensures MapTells(claims, Forward(claims).value.serviceMap, k, p)
  {
    if claims == [] {
    } else {
      var last := |claims| - 1;
      LastFirstClaimDecides(claims[..last], k, p);
      LastIsFirst(claims);
      LastClaimDecides(claims, k, p);
    }
  }

  lemma LastClaimDecides(claims: seq<Claim>, k: string, p: PortConfig)
    requires claims != [] && Forward(claims).Ok? && Forward(claims[..|claims| - 1]).Ok?
    requires MapTells(claims[..|claims| - 1], Forward(claims[..|claims| - 1]).value.serviceMap, k, p)
    requires var last := |claims| - 1;
             FirstAt(claims, last) <==> claims[last].pair.inside !in Forward(claims[..last]).value.inOut
    ensures MapTells(claims, Forward(claims).value.serviceMap, k, p)
  {
    var last := |claims| - 1;
    WinsBefore(claims, k);
    if FirstAt(claims, last) && claims[last].key == k {
      assert Wins(claims, last, k);
      forall x | Wins(claims, x, k) ensures x == last {
      }
    } else {
      assert !Wins(claims, last, k);
      forall x ensures Wins(claims, x, k) <==> Wins(claims[..last], x, k) {
      }
    }
  }

  // ----- From claims to the spec -----

  datatype Slot = Slot(service: string, index: nat)

  function SlotsIn(names: seq<string>, services: ServiceSpec): seq<Slot>
    requires forall n :: n in names ==> n in services
  {
    if names == [] then []
    else
      var last := names[|names| - 1];
      SlotsIn(names[..|names| - 1], services) + OwnSlots(last, |services[last]|)
  }

  lemma {:induction false} ClaimsOfAt(service: string, ports: seq<PortConfig>)
    ensures |ClaimsOf(service, ports)| == |ports|
    ensures forall i :: 0 <= i < |ports| ==> ClaimsOf(service, ports)[i] == ClaimFor(service, Effective(ports[i]))
  {
    if ports == [] {
    } else {
      var rest := ports[..|ports| - 1];
      ClaimsOfAt(service, rest);
      forall i | 0 <= i < |rest| ensures ClaimsOf(service, ports)[i] == ClaimFor(service, Effective(ports[i])) {
        assert ClaimsOf(service, ports)[i] == ClaimsOf(service, rest)[i];
      }
    }
  }

  predicate SlotClaims(services: ServiceSpec, slot: Slot, c: Claim) {
    && slot.service in services && slot.index < |services[slot.service]|
    && c == ClaimFor(slot.service, Effective(services[slot.service][slot.index]))
  }

  function OwnSlots(service: string, n: nat): seq<Slot> { seq(n, i requires 0 <= i => Slot(service, i)) }

  ghost predicate AllMatch(services: ServiceSpec, slots: seq<Slot>, claims: seq<Claim>) {
    |slots| == |claims| && forall x :: 0 <= x < |slots| ==> SlotClaims(services, slots[x], claims[x])
  }

  lemma MatchAppend(services: ServiceSpec, slots: seq<Slot>, claims: seq<Claim>, more: seq<Slot>, others: seq<Claim>)
    requires AllMatch(services, slots, claims) && AllMatch(services, more, others)
    ensures AllMatch(services, slots + more, claims + others)
  {
    var n := |slots|;
    forall x | 0 <= x < n + |more| ensures SlotClaims(services, (slots + more)[x], (claims + others)[x]) {
      if x < n {
        assert (slots + more)[x] == slots[x] && (claims + others)[x] == claims[x];
      } else {
        assert (slots + more)[x] == more[x - n] && (claims + others)[x] == others[x - n];
      }
    }
  }

  lemma OwnMatch(services: ServiceSpec, s: string)
    requires s in services
    ensures AllMatch(services, OwnSlots(s, |services[s]|), ClaimsOf(s, services[s]))
  {
    ClaimsOfAt(s, services[s]);
  }

  lemma {:induction false} SlotsMatch(names: seq<string>, services: ServiceSpec)
    requires forall n :: n in names ==> n in services
    ensures AllMatch(services, SlotsIn(names, services), ClaimsIn(names, services))
  {
    if names == [] {
    } else {
      var rest, last := names[..|names| - 1], names[|names| - 1];
      SlotsMatch(rest, services);
      OwnMatch(services, last);
      MatchAppend(services, SlotsIn(rest, services), ClaimsIn(rest, services),
                  OwnSlots(last, |services[last]|), ClaimsOf(last, services[last]));
    }
  }

  lemma {:induction false} SlotsMembers(names: seq<string>, services: ServiceSpec)
    requires forall n :: n in names ==> n in services
    ensures forall slot :: slot in SlotsIn(names, services) <==>
              slot.service in names && slot.index < |services[slot.service]|
  {
    if names == [] {
    } else {
      var rest, last := names[..|names| - 1], names[|names| - 1];
      assert names == rest + [last];
      SlotsMembers(rest, services);
      SlotsOfOne(last, |services[last]|);
    }
  }

  lemma SlotsOfOne(service: string, n: nat)
    ensures forall slot :: slot in OwnSlots(service, n) <==> slot.service == service && slot.index < n
  {
    var slots := OwnSlots(service, n);
    forall slot: Slot | slot.service == service && slot.index < n ensures slot in slots {
      assert slots[slot.index] == slot;
    }
  }

  predicate Earlier(a: Slot, b: Slot) { Before(a.service, a.index, b.service, b.index) }

  ghost predicate InOrder(slots: seq<Slot>) {
    forall x, y :: 0 <= x < y < |slots| ==> Earlier(slots[x], slots[y])
  }

  lemma {:induction false} SlotsInOrder(names: seq<string>, services: ServiceSpec)
    requires forall n :: n in names ==> n in services
    requires StrictlyAscending(names)
    ensures InOrder(SlotsIn(names, services))
  {
    if names == [] {
    } else {
      var rest, last := names[..|names| - 1], names[|names| - 1];
      SlotsInOrder(rest, services);
      SlotsMembers(rest, services);
      var before, mine := SlotsIn(rest, services), OwnSlots(last, |services[last]|);
      forall slot, other | slot in before && other in mine ensures Earlier(slot, other) {
        SlotsOfOne(last, |services[last]|);
        var x :| 0 <= x < |rest| && rest[x] == slot.service;
        assert names[x] == slot.service;
      }
      InOrderAppend(before, mine);
    }
  }

  lemma InOrderAppend(before: seq<Slot>, mine: seq<Slot>)
    requires InOrder(before) && InOrder(mine)
    requires forall slot, other :: slot in before && other in mine ==> Earlier(slot, other)
    ensures InOrder(before + mine)
  {
  }

  lemma EarlierIsStrict(a: Slot, b: Slot)
    ensures !(Earlier(a, b) && Earlier(b, a))
  {
    LessEqTotal(a.service, b.service);
  }

  // The claims, in order, with the slots they come from.
  ghost function Slots(services: ServiceSpec): seq<Slot> {
    SortedKeysMembers(services.Keys);
    SlotsIn(SortedKeys(services.Keys), services)
  }

  lemma SlotsAreSpec(services: ServiceSpec)
    ensures |Slots(services)| == |Claims(services)| && InOrder(Slots(services))
    ensures forall x :: 0 <= x < |Slots(services)| ==> SlotClaims(services, Slots(services)[x], Claims(services)[x])
    ensures forall slot :: slot in Slots(services) <==>
              slot.service in services && slot.index < |services[slot.service]|
  {
    var names := SortedKeys(services.Keys);
    SortedKeysMembers(services.Keys);
    SortedKeysAscend(services.Keys);
    SlotsMatch(names, services);
    SlotsMembers(names, services);
    SlotsInOrder(names, services);
  }

  lemma OrderTells(slots: seq<Slot>, x: int, y: int)
    requires InOrder(slots) && 0 <= x < |slots| && 0 <= y < |slots|
    ensures Earlier(slots[x], slots[y]) <==> x < y
  {
    EarlierIsStrict(slots[x], slots[y]);
  }

  lemma SlotAt(services: ServiceSpec, s: string, i: nat) returns (x: int)
    requires s in services && i < |services[s]|
    ensures 0 <= x < |Slots(services)| && Slots(services)[x] == Slot(s, i)
  {
    SlotsAreSpec(services);
    assert Slot(s, i) in Slots(services);
    x :| 0 <= x < |Slots(services)| && Slots(services)[x] == Slot(s, i);
  }

  // The claim at `x` is what its slot asks for.
  lemma ClaimAsks(services: ServiceSpec, x: int, inside: int, outside: int)
    requires 0 <= x < |Slots(services)| == |Claims(services)|
    requires SlotClaims(services, Slots(services)[x], Claims(services)[x])
    ensures var slot, c := Slots(services)[x], Claims(services)[x];
            && (Asks(services, slot.service, slot.index, inside, outside) <==> c.pair == PortConfig(inside, outside))
            && c.key == ToLower(slot.service + Decimal(c.pair.inside))
  {
    var slot := Slots(services)[x];
    EffectiveIsAsked(services, slot.service, slot.index, inside, outside);
  }

  lemma FirstAskIsFirstClaim(services: ServiceSpec, x: int, inside: int, outside: int)
    requires 0 <= x < |Slots(services)|
    ensures |Claims(services)| == |Slots(services)|
    ensures var slot := Slots(services)[x];
            AsksFirst(services, slot.service, slot.index, inside, outside) <==>
            FirstAt(Claims(services), x) && Claims(services)[x].pair == PortConfig(inside, outside)
  {
    var slots, claims := Slots(services), Claims(services);
    var slot := slots[x];
    SlotsAreSpec(services);
    ClaimAsks(services, x, inside, outside);
    if AsksFirst(services, slot.service, slot.index, inside, outside) {
      forall y | 0 <= y < x ensures claims[y].pair != claims[x].pair {
        ClaimAsks(services, y, inside, outside);
        OrderTells(slots, y, x);
      }
    }
    if FirstAt(claims, x) && claims[x].pair == PortConfig(inside, outside) {
      forall t, j: nat | Asks(services, t, j, inside, outside) ensures !Before(t, j, slot.service, slot.index) {
        var y := SlotAt(services, t, j);
        ClaimAsks(services, y, inside, outside);
        OrderTells(slots, y, x);
      }
    }
  }

  lemma DecidingIsWinning(services: ServiceSpec, x: int, k: string, inside: int, outside: int)
    requires 0 <= x < |Slots(services)|
    ensures |Claims(services)| == |Slots(services)|
    ensures var slot := Slots(services)[x];
            Decides(services, k, slot.service, slot.index, inside, outside) <==>
            Wins(Claims(services), x, k) && Claims(services)[x].pair == PortConfig(inside, outside)
  {
    var slots, claims := Slots(services), Claims(services);
    var slot := slots[x];
    SlotsAreSpec(services);
    FirstAskIsFirstClaim(services, x, inside, outside);
    ClaimAsks(services, x, inside, outside);
    if Decides(services, k, slot.service, slot.index, inside, outside) {
      forall y | x < y && FirstAt(claims, y) ensures claims[y].key != k {
        var p := claims[y].pair;
        FirstAskIsFirstClaim(services, y, p.inside, p.outside);
        ClaimAsks(services, y, p.inside, p.outside);
        OrderTells(slots, x, y);
      }
    }
    if Wins(claims, x, k) && claims[x].pair == PortConfig(inside, outside) {
      forall t, j: nat, n, o | AsksFirst(services, t, j, n, o) && k == ToLower(t + Decimal(n))
        ensures !Before(slot.service, slot.index, t, j)
      {
        var y := SlotAt(services, t, j);
        FirstAskIsFirstClaim(services, y, n, o);
        ClaimAsks(services, y, n, o);
        OrderTells(slots, x, y);
      }
    }
  }

  // getServiceMap, exactly: it fails if the spec asks for conflicting pairs; otherwise it has the entries
  // that are forwarded and no others.
  lemma ServiceMapExactly(services: ServiceSpec, k: string, inside: int, outside: int)
    ensures ServiceMap(services).Err? <==> AsksConflict(services)
    ensures ServiceMap(services).Ok? ==>
              var m := ServiceMap(services).value;
              k in m && m[k] == PortConfig(inside, outside) <==> Forwarded(services, k, inside, outside)
  {
    FailsIffAsksConflict(services);
    if ServiceMap(services).Ok? {
      var claims := Claims(services);
      SlotsAreSpec(services);
      LastFirstClaimDecides(claims, k, PortConfig(inside, outside));
      if x :| Wins(claims, x, k) && claims[x].pair == PortConfig(inside, outside) {
        DecidingIsWinning(services, x, k, inside, outside);
      }
      if Forwarded(services, k, inside, outside) {
        var s, i: nat :| Decides(services, k, s, i, inside, outside);
        var x := SlotAt(services, s, i);
        DecidingIsWinning(services, x, k, inside, outside);
      }
    }
  }

  // ----- The ports of the service -----

  lemma {:induction false} PortsAt(order: seq<string>, m: map<string, PortConfig>)
    requires forall n :: n in order ==> n in m
    ensures var ports := PortsInOrder(order, m);
            && |ports| == |order|
            && forall i :: 0 <= i < |order| ==>
                 ports[i] == ServicePort(order[i], m[order[i]].outside, m[order[i]].inside)
  {
    if order == [] {
    } else {
      PortsAt(order[..|order| - 1], m);
    }
  }

  // The ports pushed to the API: sorted by name, and exactly what is forwarded, from the outside port to
  // the inside port.
  lemma ServicePortsExactly(services: ServiceSpec)
    requires ServiceMap(services).Ok?
    ensures var ports := ServicePortsApi(ServiceMap(services).value);
            && StrictlyAscending(PortNames(ports))
            && forall e :: e in ports <==> Forwarded(services, e.name, e.targetPort, e.port)
  {
    var m := ServiceMap(services).value;
    PortsSorted(m);
    forall e: ServicePort
      ensures e in ServicePortsApi(m) <==> Forwarded(services, e.name, e.targetPort, e.port)
    {
      ServiceMapExactly(services, e.name, e.targetPort, e.port);
      PortsTell(m, e);
    }
  }

  lemma PortsTell(m: map<string, PortConfig>, e: ServicePort)
    ensures e in ServicePortsApi(m) <==> e.name in m && m[e.name] == PortConfig(e.targetPort, e.port)
  {
    var order := SortedKeys(m.Keys);
    SortedKeysMembers(m.Keys);
    PortsAt(order, m);
    if e.name in m && m[e.name] == PortConfig(e.targetPort, e.port) {
      var i :| 0 <= i < |order| && order[i] == e.name;
      assert ServicePortsApi(m)[i] == e;
    }
    if e in ServicePortsApi(m) {
      var i :| 0 <= i < |ServicePortsApi(m)| && ServicePortsApi(m)[i] == e;
      assert order[i] in m;
    }
  }

  lemma PortsSorted(m: map<string, PortConfig>)
    ensures StrictlyAscending(PortNames(ServicePortsApi(m)))
  {
    SortedKeysMembers(m.Keys);
    SortedKeysAscend(m.Keys);
    PortsAt(SortedKeys(m.Keys), m);
    assert PortNames(ServicePortsApi(m)) == SortedKeys(m.Keys);
  }

  lemma {:induction false} ServiceMapReads(ports: seq<ServicePort>, k: string, inside: int, outside: int)
    ensures var m := ServiceMapFromApi(ports);
            k in m && m[k] == PortConfig(inside, outside) <==> PortsRead(ports, k, inside, outside)
  {
    if ports == [] {
    } else {
      var last := |ports| - 1;
      var rest := ports[..last];
      ServiceMapReads(rest, k, inside, outside);
      if ports[last].name == k {
        forall i | LastPort(ports, i, k, inside, outside) ensures i == last {
        }
        if ports[last] == ServicePort(k, outside, inside) {
          assert LastPort(ports, last, k, inside, outside);
        }
      } else {
        forall i ensures LastPort(ports, i, k, inside, outside) <==> LastPort(rest, i, k, inside, outside) {
        }
      }
    }
  }

  // The ports are those asked for.
  ghost predicate PortsAsked(services: ServiceSpec, ports: seq<ServicePort>) {
    && !AsksConflict(services)
    && forall k, n, o :: PortsRead(ports, k, n, o) <==> Forwarded(services, k, n, o)
  }

  lemma ServiceAgreesExactly(services: ServiceSpec, ports: seq<ServicePort>)
    ensures ServiceMap(services) == Ok(ServiceMapFromApi(ports)) <==> PortsAsked(services, ports)
  {
    FailsIffAsksConflict(services);
    forall k, n, o
      ensures var m := ServiceMapFromApi(ports);
              k in m && m[k] == PortConfig(n, o) <==> PortsRead(ports, k, n, o)
      ensures ServiceMap(services).Ok? ==>
                var m := ServiceMap(services).value;
                k in m && m[k] == PortConfig(n, o) <==> Forwarded(services, k, n, o)
    {
      ServiceMapExactly(services, k, n, o);
      ServiceMapReads(ports, k, n, o);
    }
    if PortsAsked(services, ports) {
      SameEntries(ServiceMap(services).value, ServiceMapFromApi(ports));
    }
  }

  lemma SameEntries(a: map<string, PortConfig>, b: map<string, PortConfig>)
    requires forall k, n, o :: (k in a && a[k] == PortConfig(n, o)) <==> (k in b && b[k] == PortConfig(n, o))
    ensures a == b
  {
    forall k ensures k in a <==> k in b ensures k in a && k in b ==> a[k] == b[k] {
      if k in a {
        assert k in a && a[k] == PortConfig(a[k].inside, a[k].outside);
      }
      if k in b {
        assert k in b && b[k] == PortConfig(b[k].inside, b[k].outside);
      }
    }
  }
}
