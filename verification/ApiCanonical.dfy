/** Exactly which contracts survive the round trip, and that one pass settles every contract. */
module ApiCanonical {
  import opened Prelude
  import opened Text
  import opened ApiSpec
  import opened ApiParser
  import opened ApiPrinter
  import opened ApiFields
  import opened ApiLexical
  import opened ApiBlocks
  import opened ApiRoundTrip

  /** No route lacks a server after one that has it. */
  ghost predicate ServersStick(routes: seq<RestRoute>) {
    forall i, j | 0 <= i < j < |routes| && routes[i].server.Some? :: routes[j].server.Some?
  }

  /** The names agree with the tag that the source prints. */
  predicate NamesAgree(f: Field) {
    && (f.embedded ==> f.name == EmbeddedName(f.ty))
    && match f.source
       case Auto => f.jsonName.None? && f.wireName.None?
       case Header => f.jsonName.None? && f.wireName.Some?
       case _ => f.wireName.Some? && f.jsonName == f.wireName
  }

  ghost predicate FieldsAgree(types: seq<TypeDef>) {
    forall i, j | 0 <= i < |types| && 0 <= j < |types[i].fields| :: NamesAgree(types[i].fields[j])
  }

  ghost predicate NothingBlank(spec: Spec) {
    && (forall i | 0 <= i < |spec.restRoutes| ::
          Trim(spec.restRoutes[i].request) != "" && Trim(spec.restRoutes[i].response) != "")
    && (forall i | 0 <= i < |spec.rpcMethods| ::
          Trim(spec.rpcMethods[i].request) != "" && Trim(spec.rpcMethods[i].response) != "")
  }

  ghost predicate EmptyTypesDeclared(spec: Spec) {
    && (AsksRequest(spec.restRoutes, spec.rpcMethods) ==> Declares(spec.types, EMPTY_REQUEST_TYPE))
    && (AsksResponse(spec.restRoutes, spec.rpcMethods) ==> Declares(spec.types, EMPTY_RESPONSE_TYPE))
  }

  ghost predicate Canonical(spec: Spec) {
    && spec.rpcPackage.None?
    && (!NoRouteServer(spec.restRoutes) ==> spec.server == FirstServer(spec.restRoutes))
    && ServersStick(spec.restRoutes)
    && (forall i | 0 <= i < |spec.rpcMethods| :: spec.rpcMethods[i].middlewares == [])
    && FieldsAgree(spec.types)
    && NothingBlank(spec) && EmptyTypesDeclared(spec)
  }

  // --------------------------------------------------------------- part by part

  lemma CanonFieldFixed(f: Field)
    ensures CanonField(f) == f <==> NamesAgree(f)
    ensures NamesAgree(CanonField(f))
  {
    hide EmbeddedName;
  }

  lemma CanonTypesFixed(types: seq<TypeDef>)
    ensures CanonTypes(types) == types <==> FieldsAgree(types)
    ensures FieldsAgree(CanonTypes(types))
  {
    hide CanonField, NamesAgree;
    forall i, j | 0 <= i < |types| && 0 <= j < |types[i].fields|
      ensures CanonTypes(types)[i].fields[j] == CanonField(types[i].fields[j])
      ensures CanonField(types[i].fields[j]) == types[i].fields[j] <==> NamesAgree(types[i].fields[j])
      ensures NamesAgree(CanonTypes(types)[i].fields[j])
    {
      CanonFieldFixed(types[i].fields[j]);
    }
    if FieldsAgree(types) {
      forall i | 0 <= i < |types| ensures CanonTypes(types)[i] == types[i] {
        assert CanonFields(types[i].fields) == types[i].fields;
      }
    }
  }

  /**
   * With `current` in force in front, the routes are unchanged exactly when none falls back on it or on an earlier one.
   */
  lemma {:induction false} StickyFixed(routes: seq<RestRoute>, current: Option<ServerSpec>)
    ensures |Sticky(routes, current)| == |routes|
    ensures Sticky(routes, current) == routes <==>
              ServersStick(routes) && (current.Some? ==> forall i | 0 <= i < |routes| :: routes[i].server.Some?)
  {
    if routes != [] {
      var server, rest := InForce(routes[0], current), routes[1..];
      StickyFixed(rest, server);
      assert routes == [routes[0]] + rest;
      assert forall i | 0 <= i < |rest| :: rest[i] == routes[i + 1];
      assert Sticky(routes, current) == routes <==> routes[0].server == server && Sticky(rest, server) == rest by {
        assert Sticky(routes, current)[1..] == Sticky(rest, server);
        assert Sticky(routes, current)[0] == routes[0].(server := server);
      }
      StickTail(routes);
    }
  }

  lemma StickTail(routes: seq<RestRoute>)
    requires routes != []
    ensures ServersStick(routes) <==>
              ServersStick(routes[1..])
                  && (routes[0].server.Some? ==> forall i | 0 <= i < |routes[1..]| :: routes[1..][i].server.Some?)
  {
    var rest := routes[1..];
    if ServersStick(routes) {
      forall i, j | 0 <= i < j < |rest| && rest[i].server.Some? ensures rest[j].server.Some? {
        assert routes[i + 1].server.Some?;
        assert routes[j + 1].server.Some?;
      }
      forall i | 0 <= i < |rest| && routes[0].server.Some? ensures rest[i].server.Some? {
        assert routes[i + 1].server.Some?;
      }
    }
    if ServersStick(rest) && (routes[0].server.Some? ==> forall i | 0 <= i < |rest| :: rest[i].server.Some?) {
      forall i, j | 0 <= i < j < |routes| && routes[i].server.Some? ensures routes[j].server.Some? {
        assert rest[j - 1] == routes[j];
        if i > 0 { assert rest[i - 1].server.Some?; }
      }
    }
  }

  lemma {:induction false} StickySettles(routes: seq<RestRoute>, current: Option<ServerSpec>)
    ensures ServersStick(Sticky(routes, current))
    ensures current.Some? ==> forall i | 0 <= i < |Sticky(routes, current)| :: Sticky(routes, current)[i].server.Some?
    ensures current.None? ==> FirstServer(Sticky(routes, current)) == FirstServer(routes)
    ensures |Sticky(routes, current)| == |routes|
    ensures forall i | 0 <= i < |routes| ::
              Sticky(routes, current)[i] == routes[i].(server := Sticky(routes, current)[i].server)
  {
    if routes != [] {
      var server := InForce(routes[0], current);
      StickySettles(routes[1..], server);
      var all := Sticky(routes, current);
      assert all[1..] == Sticky(routes[1..], server);
      StickTail(all);
    }
  }

  lemma OrEmptyFixed(ty: string, empty: string)
    requires Trim(empty) != ""
    ensures OrEmpty(ty, empty) == ty <==> Trim(ty) != ""
    ensures Trim(OrEmpty(ty, empty)) != ""
  {
    hide Trim;
  }

  lemma EmptyNames()
    ensures Trim(EMPTY_REQUEST_TYPE) != "" && Trim(EMPTY_RESPONSE_TYPE) != ""
  {
    TrimOfTrimmed(EMPTY_REQUEST_TYPE);
    TrimOfTrimmed(EMPTY_RESPONSE_TYPE);
  }

  lemma NormalRoutesFixed(routes: seq<RestRoute>)
    ensures NormalRoutes(routes) == routes <==>
              forall i | 0 <= i < |routes| :: Trim(routes[i].request) != "" && Trim(routes[i].response) != ""
    ensures forall i | 0 <= i < |routes| ::
              Trim(NormalRoutes(routes)[i].request) != "" && Trim(NormalRoutes(routes)[i].response) != ""
  {
    hide Trim, OrEmpty;
    EmptyNames();
    forall i | 0 <= i < |routes|
      ensures NormalRoutes(routes)[i] == routes[i] <==> Trim(routes[i].request) != "" && Trim(routes[i].response) != ""
      ensures Trim(NormalRoutes(routes)[i].request) != "" && Trim(NormalRoutes(routes)[i].response) != ""
    {
      OrEmptyFixed(routes[i].request, EMPTY_REQUEST_TYPE);
      OrEmptyFixed(routes[i].response, EMPTY_RESPONSE_TYPE);
    }
  }

  lemma NormalRpcsFixed(rpcs: seq<RpcMethod>)
    ensures NormalRpcs(rpcs) == rpcs <==>
              forall i | 0 <= i < |rpcs| :: Trim(rpcs[i].request) != "" && Trim(rpcs[i].response) != ""
    ensures forall i | 0 <= i < |rpcs| ::
              Trim(NormalRpcs(rpcs)[i].request) != "" && Trim(NormalRpcs(rpcs)[i].response) != ""
  {
    hide Trim, OrEmpty;
    EmptyNames();
    forall i | 0 <= i < |rpcs|
      ensures NormalRpcs(rpcs)[i] == rpcs[i] <==> Trim(rpcs[i].request) != "" && Trim(rpcs[i].response) != ""
      ensures Trim(NormalRpcs(rpcs)[i].request) != "" && Trim(NormalRpcs(rpcs)[i].response) != ""
    {
      OrEmptyFixed(rpcs[i].request, EMPTY_REQUEST_TYPE);
      OrEmptyFixed(rpcs[i].response, EMPTY_RESPONSE_TYPE);
    }
  }

  lemma WithTypeFixed(types: seq<TypeDef>, wanted: bool, name: string)
    ensures WithType(types, wanted, name) == types <==> (wanted ==> Declares(types, name))
    ensures |WithType(types, wanted, name)| >= |types|
    ensures wanted ==> Declares(WithType(types, wanted, name), name)
    ensures forall n | Declares(types, n) :: Declares(WithType(types, wanted, name), n)
    ensures forall n | n != name && Declares(WithType(types, wanted, name), n) :: Declares(types, n)
  {
    var all := WithType(types, wanted, name);
    if wanted && !Declares(types, name) { assert all[|types|].name == name; }
    forall n | Declares(types, n) ensures Declares(all, n) {
      var i :| 0 <= i < |types| && types[i].name == n;
      assert all[i].name == n;
    }
  }

  lemma NormalTypesFixed(types: seq<TypeDef>, canon: seq<TypeDef>, routes: seq<RestRoute>, rpcs: seq<RpcMethod>)
    requires |canon| == |types|
    ensures NormalTypes(canon, routes, rpcs) == types <==>
              && canon == types
              && (AsksRequest(routes, rpcs) ==> Declares(types, EMPTY_REQUEST_TYPE))
              && (AsksResponse(routes, rpcs) ==> Declares(types, EMPTY_RESPONSE_TYPE))
    ensures AsksRequest(routes, rpcs) ==> Declares(NormalTypes(canon, routes, rpcs), EMPTY_REQUEST_TYPE)
    ensures AsksResponse(routes, rpcs) ==> Declares(NormalTypes(canon, routes, rpcs), EMPTY_RESPONSE_TYPE)
  {
    hide AsksRequest, AsksResponse, Declares;
    var wantReq, wantResp := AsksRequest(routes, rpcs), AsksResponse(routes, rpcs);
    var one := WithType(canon, wantReq, EMPTY_REQUEST_TYPE);
    WithTypeFixed(canon, wantReq, EMPTY_REQUEST_TYPE);
    WithTypeFixed(one, wantResp, EMPTY_RESPONSE_TYPE);
  }

  lemma NormalTypesAgree(canon: seq<TypeDef>, routes: seq<RestRoute>, rpcs: seq<RpcMethod>)
    requires FieldsAgree(canon)
    ensures FieldsAgree(NormalTypes(canon, routes, rpcs))
  {
    hide AsksRequest, AsksResponse, Declares, NamesAgree;
  }

  lemma BareFixed(rpcs: seq<RpcMethod>)
    ensures WithoutMiddlewares(rpcs) == rpcs <==> forall i | 0 <= i < |rpcs| :: rpcs[i].middlewares == []
  {
    forall i | 0 <= i < |rpcs| ensures WithoutMiddlewares(rpcs)[i] == rpcs[i] <==> rpcs[i].middlewares == [] {
    }
  }

  // --------------------------------------------------------------- together

  lemma RoutesFixed(routes: seq<RestRoute>)
    ensures NormalRoutes(Sticky(routes, None)) == routes <==>
              Sticky(routes, None) == routes && NormalRoutes(routes) == routes
  {
    hide OrEmpty, Sticky, ServersStick;
    StickySettles(routes, None);
    var sticky := Sticky(routes, None);
    if NormalRoutes(sticky) == routes {
      forall i | 0 <= i < |routes| ensures sticky[i] == routes[i] {
        assert NormalRoutes(sticky)[i] == NormalRoute(sticky[i]) == routes[i];
      }
      assert sticky == routes;
    }
  }

  lemma RpcsFixed(rpcs: seq<RpcMethod>)
    ensures NormalRpcs(WithoutMiddlewares(rpcs)) == rpcs <==>
              WithoutMiddlewares(rpcs) == rpcs && NormalRpcs(rpcs) == rpcs
  {
    hide OrEmpty;
    var bare := WithoutMiddlewares(rpcs);
    if NormalRpcs(bare) == rpcs {
      forall i | 0 <= i < |rpcs| ensures bare[i] == rpcs[i] {
        assert NormalRpcs(bare)[i] == NormalRpc(bare[i]) == rpcs[i];
      }
      assert bare == rpcs;
    }
  }

  /** Canonical, spelled out: what a caller can check before formatting. */
  lemma CanonicalMeans(spec: Spec)
    ensures Canon(spec) == spec <==> Canonical(spec)
  {
    hide NormalRoutes, NormalRpcs, NormalTypes, Sticky, WithoutMiddlewares, CanonTypes, FirstServer, ServersStick,
         FieldsAgree, AsksRequest, AsksResponse, Declares, NoRouteServer, Trim;
    RoutesFixed(spec.restRoutes);
    RpcsFixed(spec.rpcMethods);
    StickyFixed(spec.restRoutes, None);
    BareFixed(spec.rpcMethods);
    NormalRoutesFixed(spec.restRoutes);
    NormalRpcsFixed(spec.rpcMethods);
    CanonTypesFixed(spec.types);
    CanonTypesCount(spec.types);
    NormalTypesFixed(spec.types, CanonTypes(spec.types), NormalRoutes(Sticky(spec.restRoutes, None)),
                     NormalRpcs(WithoutMiddlewares(spec.rpcMethods)));
  }

  lemma CanonTypesCount(types: seq<TypeDef>)
    ensures |CanonTypes(types)| == |types|
  {
  }

  /** One pass through the text settles a contract: what it states is canonical. */
  lemma CanonIsCanonical(spec: Spec)
    ensures Canonical(Canon(spec))
  {
    hide NormalTypes, CanonTypes, FieldsAgree, AsksRequest, AsksResponse, Declares, Trim, OrEmpty;
    var routes, rpcs := NormalRoutes(Sticky(spec.restRoutes, None)), NormalRpcs(WithoutMiddlewares(spec.rpcMethods));
    CanonServerSettles(spec);
    NormalRoutesFixed(Sticky(spec.restRoutes, None));
    NormalRpcsFixed(WithoutMiddlewares(spec.rpcMethods));
    CanonTypesFixed(spec.types);
    CanonTypesCount(spec.types);
    NormalTypesFixed(spec.types, CanonTypes(spec.types), routes, rpcs);
    NormalTypesAgree(CanonTypes(spec.types), routes, rpcs);
  }

  lemma CanonServerSettles(spec: Spec)
    ensures var routes := NormalRoutes(Sticky(spec.restRoutes, None));
            ServersStick(routes) && (!NoRouteServer(routes) ==> CanonServer(spec) == FirstServer(routes))
  {
    hide Sticky, OrEmpty;
    var sticky := Sticky(spec.restRoutes, None);
    var routes := NormalRoutes(sticky);
    StickySettles(spec.restRoutes, None);
    SameServers(sticky, routes);
    NoneFirst(spec.restRoutes);
    NoneFirst(routes);
    forall i, j | 0 <= i < j < |routes| && routes[i].server.Some? ensures routes[j].server.Some? {
      assert sticky[i].server.Some?;
      assert sticky[j].server.Some?;
    }
  }

  lemma {:induction false} SameServers(a: seq<RestRoute>, b: seq<RestRoute>)
    requires |a| == |b| && forall i | 0 <= i < |a| :: a[i].server == b[i].server
    ensures FirstServer(a) == FirstServer(b)
    decreases |a|
  {
    if a != [] {
      assert a[0].server == b[0].server;
      forall i | 0 <= i < |a[1..]| ensures a[1..][i].server == b[1..][i].server {
        assert a[i + 1].server == b[i + 1].server;
      }
      SameServers(a[1..], b[1..]);
    }
  }

  /** Hence settling a contract is idempotent. */
  lemma CanonIdempotent(spec: Spec)
    ensures Canon(Canon(spec)) == Canon(spec)
  {
    hide Canon, Canonical;
    CanonIsCanonical(spec);
    CanonicalMeans(Canon(spec));
  }

  /** The printer drops RPC middlewares: a contract with one never comes back. */
  lemma RpcMiddlewaresAreLost(spec: Spec, i: nat)
    requires Printable(spec) && i < |spec.rpcMethods| && spec.rpcMethods[i].middlewares != []
    ensures Parse(Format(spec)) != Ok(spec)
  {
    hide Printable, Parse, Format, Canon, FieldsAgree, NothingBlank, EmptyTypesDeclared, ServersStick;
    RoundTripIffCanonical(spec);
    CanonicalMeans(spec);
  }

  /** Formatting then parsing gives a printable contract back if and only if it is canonical. */
  lemma RoundTrip(spec: Spec)
    requires Printable(spec)
    ensures Parse(Format(spec)) == Ok(spec) <==> Canonical(spec)
  {
    hide Printable, Parse, Format, Canon, Canonical;
    RoundTripIffCanonical(spec);
    CanonicalMeans(spec);
  }

  const GuardedPing := Spec("demo", None, None, [], [], [], [RpcMethod("Ping", "Req", "Resp", ["auth"], [])])

  lemma GuardedPingIsPrintable()
    ensures Printable(GuardedPing)
  {
    hide Find;
    SlashFreeSafe("demo");
    SlashFreeSafe("Ping");
    SlashFreeSafe("Req");
    SlashFreeSafe("Resp");
    hide Safe;
    assert Find("Req", "returns").None?;
  }

  /** A contract that is lost: the middleware of its one RPC method is not printed. */
  lemma GuardedPingIsLost()
    ensures Printable(GuardedPing) && Parse(Format(GuardedPing)) != Ok(GuardedPing)
  {
    hide Printable, Parse, Format;
    GuardedPingIsPrintable();
    RpcMiddlewaresAreLost(GuardedPing, 0);
  }

  /** A route without a server after one with a server never comes back: it is read under that server. */
  lemma BareRouteIsLost(spec: Spec, i: nat, j: nat)
    requires Printable(spec) && i < j < |spec.restRoutes|
    requires spec.restRoutes[i].server.Some? && spec.restRoutes[j].server.None?
    ensures Parse(Format(spec)) != Ok(spec)
  {
    hide Printable, Parse, Format, Canon, FieldsAgree, NothingBlank, EmptyTypesDeclared;
    RoundTripIffCanonical(spec);
    CanonicalMeans(spec);
  }

  const ApiGroup := ServerSpec(None, Some("api"), [], None)

  const TwoRoutes := Spec("demo", None, Some(ApiGroup), [], [],
    [RestRoute(None, None, false, false, [], [], Some(ApiGroup), Get, "/a", "Req", "Resp"),
     RestRoute(None, None, false, false, [], [], None, Get, "/b", "Req", "Resp")], [])

  lemma PlainRouteOk(path: string, server: Option<ServerSpec>)
    requires |path| == 2 && path[0] == '/' && path[1] in "ab"
    requires server.Some? ==> ServerOk(server.value)
    ensures RouteOk(RestRoute(None, None, false, false, [], [], server, Get, path, "Req", "Resp"))
  {
    hide Find, ServerOk;
    SlashFreeSafe("Req");
    SlashFreeSafe("Resp");
    assert forall i :: !SlashPair(path, i);
    assert Safe(path);
    hide Safe;
    assert Find("Req", "returns").None?;
  }

  lemma ApiGroupOk()
    ensures ServerOk(ApiGroup)
  {
    SlashFreeSafe("api");
    hide Safe;
  }

  /** Such a contract: its second route comes back in the group of the first. */
  lemma TwoRoutesAreLost()
    ensures Printable(TwoRoutes) && Parse(Format(TwoRoutes)) != Ok(TwoRoutes)
    ensures Parse(Format(TwoRoutes)).Ok? && |Parse(Format(TwoRoutes)).value.restRoutes| == 2
    ensures Parse(Format(TwoRoutes)).value.restRoutes[1].server == Some(ApiGroup)
  {
    TwoRoutesPrintable();
    hide Printable, Parse, Format;
    BareRouteIsLost(TwoRoutes, 0, 1);
    ParseOfFormat(TwoRoutes);
    TwoRoutesSettle();
  }

  lemma TwoRoutesPrintable()
    ensures Printable(TwoRoutes)
  {
    hide RouteOk, ServerOk;
    ApiGroupOk();
    PlainRouteOk("/a", Some(ApiGroup));
    PlainRouteOk("/b", None);
    SlashFreeSafe("demo");
  }

  lemma TwoRoutesSettle()
    ensures |Canon(TwoRoutes).restRoutes| == 2 && Canon(TwoRoutes).restRoutes[1].server == Some(ApiGroup)
  {
    hide NormalTypes, CanonTypes, OrEmpty;
    var routes := TwoRoutes.restRoutes;
    assert routes[1..] == [routes[1]] && routes[1..][1..] == [];
    assert Sticky(routes[1..], Some(ApiGroup)) == [routes[1].(server := Some(ApiGroup))] + Sticky([], Some(ApiGroup));
    assert Sticky(routes, None) == [routes[0]] + Sticky(routes[1..], Some(ApiGroup));
  }
}
