/** The rendezvous server's index of waiting clients and its matching rule (src/rendezvous/handler.h).
    External endpoints are numbers, in the order of the source's ordered containers. */
module Rendezvous {
  import opened NatSets

  type Endpoint = nat

  datatype Service = Service(kind: nat, internal: Endpoint, reflectedPort: nat, isHost: bool)

  /** What the first bytes of a client's message turn out to be. */
  datatype Request =
    | Unreadable
    | Close
    | GetReflector
    | UnknownMethod
    | BadAddress
    | Truncated
    | Fetch(kind: nat, internal: Endpoint, reflectedPort: nat, isHost: bool)

  /** What the server sends: where the matched peer can be found, or where the reflector is. */
  datatype Notice =
    | Match(to: Endpoint, external: Endpoint, internal: Endpoint, reflectedPort: nat)
    | Reflector(to: Endpoint)

  predicate Matchable(a: Service, b: Service) {
    !a.isHost || !b.isHost
  }

  /** The registration of `from` after its fetch: what is known keeps its addresses. */
  function Registered(known: map<Endpoint, Service>, from: Endpoint, r: Request): Service
    requires r.Fetch?
  {
    if from in known then known[from].(kind := r.kind, isHost := r.isHost)
    else Service(r.kind, r.internal, r.reflectedPort, r.isHost)
  }

  /** Waiting clients other than `from` that it can be matched with. */
  function Candidates(known: map<Endpoint, Service>, from: Endpoint, r: Request): set<Endpoint>
    requires r.Fetch?
  {
    set e <- known.Keys | e != from && known[e].kind == r.kind && (!r.isHost || !known[e].isHost)
  }

  /** The two maps are inverses of each other, and no empty set is kept. */
  ghost predicate Inverse(known: map<Endpoint, Service>, waiting: map<nat, set<Endpoint>>) {
    && (forall e <- known.Keys :: known[e].kind in waiting && e in waiting[known[e].kind])
    && (forall k <- waiting.Keys, e <- waiting[k] :: e in known && known[e].kind == k)
    && (forall k <- waiting.Keys :: waiting[k] != {})
  }

  /** The waiting clients without e, and without the service if nobody else waits for it. */
  function Without(waiting: map<nat, set<Endpoint>>, e: Endpoint, k: nat): map<nat, set<Endpoint>> {
    if k !in waiting then waiting
    else if waiting[k] - {e} == {} then waiting - {k}
    else waiting[k := waiting[k] - {e}]
  }

  /** Every waiting client is known under the addresses of the fetch that it came with. */
  ghost predicate Genuine(known: map<Endpoint, Service>, origin: map<Endpoint, Request>) {
    && origin.Keys == known.Keys
    && forall e <- known.Keys ::
         && origin[e].Fetch?
         && known[e].internal == origin[e].internal && known[e].reflectedPort == origin[e].reflectedPort
  }

  /** The fetch a client came with, after one more. */
  function OriginAfter(origin: map<Endpoint, Request>, from: Endpoint, r: Request): map<Endpoint, Request> {
    if from in origin then origin else origin[from := r]
  }

  /** Nobody waits who could be matched. */
  ghost predicate Settled(known: map<Endpoint, Service>) {
    forall a <- known.Keys, b <- known.Keys ::
      a != b && known[a].kind == known[b].kind ==> !Matchable(known[a], known[b])
  }

  /** Seen from the service: its waiting clients are one alone, or all of them hosts. */
  lemma AloneOrHosts(known: map<Endpoint, Service>, waiting: map<nat, set<Endpoint>>, k: nat)
    requires Inverse(known, waiting) && Settled(known) && k in waiting
    ensures (exists e :: waiting[k] == {e}) || forall e <- waiting[k] :: known[e].isHost
  {
    var e :| e in waiting[k];
    if waiting[k] != {e} {
      var f :| f in waiting[k] && f != e;
      forall x <- waiting[k]
        ensures known[x].isHost
      {
        var y := if x == e then f else e;
        assert !Matchable(known[x], known[y]);
      }
    }
  }

  lemma IndexInside(known: map<Endpoint, Service>, w1: map<nat, set<Endpoint>>, w2: map<nat, set<Endpoint>>, k: nat)
    requires Inverse(known, w1) && Inverse(known, w2) && k in w1
    ensures k in w2 && w1[k] <= w2[k]
  {
    forall e <- w1[k]
      ensures k in w2 && e in w2[k]
    {
      assert known[e].kind == k;
    }
  }

  /** The service map is determined by the endpoint map. */
  lemma IndexIsDetermined(known: map<Endpoint, Service>, w1: map<nat, set<Endpoint>>, w2: map<nat, set<Endpoint>>)
    requires Inverse(known, w1) && Inverse(known, w2)
    ensures w1 == w2
  {
    forall k <- w1.Keys
      ensures k in w2 && w1[k] == w2[k]
    {
      IndexInside(known, w1, w2, k);
      IndexInside(known, w2, w1, k);
    }
    forall k <- w2.Keys
      ensures k in w1
    {
      IndexInside(known, w2, w1, k);
    }
  }

  lemma RemovalSettles(known: map<Endpoint, Service>, es: set<Endpoint>)
    requires Settled(known)
    ensures Settled(known - es)
  {
  }

  /** Registering `from` under service k, when it is not waiting for any other. */
  lemma RegisterInverse(known: map<Endpoint, Service>, waiting: map<nat, set<Endpoint>>, from: Endpoint, s: Service)
    requires from !in known || known[from].kind == s.kind
    requires Inverse(known, waiting)
    ensures var others := if s.kind in waiting then waiting[s.kind] else {};
            Inverse(known[from := s], waiting[s.kind := others + {from}])
  {
  }

  /** Taking `from` out of its service. */
  lemma RemoveInverse(known: map<Endpoint, Service>, waiting: map<nat, set<Endpoint>>, from: Endpoint)
    requires Inverse(known, waiting) && from in known
    ensures Inverse(known - {from}, Without(waiting, from, known[from].kind))
  {
  }

  class Handler {
    var epToService: map<Endpoint, Service>
    var serviceToEndpoints: map<nat, set<Endpoint>>
    ghost var notices: seq<Notice>
    ghost var origin: map<Endpoint, Request>

    ghost predicate Consistent()
      reads this
    {
      Inverse(epToService, serviceToEndpoints) && Genuine(epToService, origin)
    }

    ghost predicate Valid()
      reads this
    {
      Consistent() && Settled(epToService)
    }

    constructor ()
      ensures Valid() && epToService == map[] && notices == []
    {
      epToService, serviceToEndpoints, notices, origin := map[], map[], [], map[];
    }

    /** Also what happens when a client has been silent for too long. */
    method Forget(from: Endpoint)
      requires Consistent()
      modifies this`epToService, this`serviceToEndpoints, this`origin
      ensures Consistent() && epToService == old(epToService) - {from} && origin == old(origin) - {from}
      ensures Settled(old(epToService)) ==> Settled(epToService)
    {
      hide Inverse, Settled;
      if Settled(epToService) {
        RemovalSettles(epToService, {from});
      }
      if from in epToService {
        RemoveInverse(epToService, serviceToEndpoints, from);
        var k := epToService[from].kind;
        RemoveFromService(from, k);
        epToService := epToService - {from};
      }
      origin := origin - {from};
    }

    method RemoveFromService(e: Endpoint, k: nat)
      modifies this`serviceToEndpoints
      ensures serviceToEndpoints == Without(old(serviceToEndpoints), e, k)
    {
      if k !in serviceToEndpoints {
        return;
      }
      serviceToEndpoints := serviceToEndpoints[k := serviceToEndpoints[k] - {e}];
      if serviceToEndpoints[k] == {} {
        serviceToEndpoints := serviceToEndpoints - {k};
      }
    }

    method FindOrCreateEntry(from: Endpoint, r: Request)
      requires Consistent() && r.Fetch?
      modifies this`epToService, this`serviceToEndpoints, this`origin
      ensures Consistent() && epToService == old(epToService)[from := Registered(old(epToService), from, r)]
      ensures origin == OriginAfter(old(origin), from, r)
    {
      hide Inverse, Without;
      ghost var known := epToService;
      if from !in epToService {
        epToService := epToService[from := Service(r.kind, r.internal, r.reflectedPort, r.isHost)];
      } else {
        var service := epToService[from];
        if service.kind != r.kind {
          RemoveInverse(epToService, serviceToEndpoints, from);
          RemoveFromService(from, service.kind);
          known := known - {from};
        }
        epToService := epToService[from := service.(kind := r.kind, isHost := r.isHost)];
      }
      assert epToService == known[from := epToService[from]];
      RegisterInverse(known, serviceToEndpoints, from, epToService[from]);
      var waiting := if r.kind in serviceToEndpoints then serviceToEndpoints[r.kind] else {};
      serviceToEndpoints := serviceToEndpoints[r.kind := waiting + {from}];
      origin := OriginAfter(origin, from, r);
    }

    /** Looks through the service's clients in order for one that can be matched. */
    method FindMatch(from: Endpoint, r: Request) returns (found: bool, other: Endpoint)
      requires Consistent() && r.Fetch? && from in epToService && epToService[from].kind == r.kind
      ensures found <==> Candidates(epToService, from, r) != {}
      ensures found ==> IsLeast(Candidates(epToService, from, r), other)
    {
      var rest := serviceToEndpoints[r.kind];
      while rest != {}
        invariant rest <= serviceToEndpoints[r.kind]
        invariant forall e <- Candidates(epToService, from, r) :: e in rest
        decreases rest
      {
        var e := Least(rest);
        if e != from && (!r.isHost || !epToService[e].isHost) {
          assert e in Candidates(epToService, from, r);
          return true, e;
        }
        rest := rest - {e};
      }
      return false, 0;
    }

    /** One message from a client. A fetch is matched with the first waiting client of the same service unless
        both are hosts; then both are told about each other, what the fetches they came with said, and forgotten.
        Otherwise it waits. */
    method Handle(from: Endpoint, r: Request)
      requires Valid()
      modifies this
      ensures Valid()
      ensures r.Unreadable? ==> epToService == old(epToService) && notices == old(notices)
      ensures r.GetReflector? ==> epToService == old(epToService) && notices == old(notices) + [Reflector(from)]
      ensures r.Close? || r.UnknownMethod? || r.BadAddress? || r.Truncated? ==>
                epToService == old(epToService) - {from} && notices == old(notices)
      ensures r.Fetch? && Candidates(old(epToService), from, r) == {} ==>
                && epToService == old(epToService)[from := Registered(old(epToService), from, r)]
                && origin == OriginAfter(old(origin), from, r) && notices == old(notices)
      ensures r.Fetch? && Candidates(old(epToService), from, r) != {} ==>
                exists other :: IsLeast(Candidates(old(epToService), from, r), other) &&
                  epToService == old(epToService) - {from, other} && origin == old(origin) - {from, other} &&
                  var s := old(origin)[other];
                  s.Fetch? &&
                  notices == old(notices) + [Match(other, from, r.internal, r.reflectedPort),
                                             Match(from, other, s.internal, s.reflectedPort)]
    {
      hide Inverse, Settled;
      ghost var origin0 := origin;
      match r {
        case Unreadable => return;
        case GetReflector =>
          notices := notices + [Reflector(from)];
          return;
        case Fetch(_, _, _, _) =>
        case _ =>
          Forget(from);
          return;
      }
      ghost var before := epToService;
      FindOrCreateEntry(from, r);
      assert Candidates(epToService, from, r) == Candidates(before, from, r);
      var found, other := FindMatch(from, r);
      if found {
        var s := epToService[other];
        assert s == before[other];
        notices := notices + [Match(other, from, r.internal, r.reflectedPort),
                              Match(from, other, s.internal, s.reflectedPort)];
        Forget(from);
        Forget(other);
        assert epToService == before - {from, other} && origin == origin0 - {from, other};
        RemovalSettles(before, {from, other});
      } else {
        WaitingSettles(before, from, r);
      }
    }
  }

  lemma WaitingSettles(known: map<Endpoint, Service>, from: Endpoint, r: Request)
    requires Settled(known) && r.Fetch? && Candidates(known, from, r) == {}
    ensures Settled(known[from := Registered(known, from, r)])
  {
    var now := known[from := Registered(known, from, r)];
    forall a <- now.Keys, b <- now.Keys | a != b && now[a].kind == now[b].kind
      ensures !Matchable(now[a], now[b])
    {
      var other := if a == from then b else a;
      assert other !in Candidates(known, from, r);
    }
  }
}
