/** A settled contract can be printed again, so formatting settles a text for good. */
module ApiSettled {
  import opened Prelude
  import opened Text
  import opened ApiSpec
  import opened ApiParser
  import opened ApiPrinter
  import opened ApiLexical
  import opened ApiFields
  import opened ApiBlocks
  import opened ApiRoundTrip
  import opened ApiCanonical

  // --------------------------------------------------------------- types

  lemma CanonFieldOk(f: Field)
    requires FieldOk(f)
    ensures FieldOk(CanonField(f))
  {
    hide FieldWord, Valued, EmbeddedName;
  }

  lemma CanonTypesOk(types: seq<TypeDef>)
    requires TypesOk(types)
    ensures TypesOk(CanonTypes(types))
  {
    hide FieldOk, TypeName, CanonField;
    var all := CanonTypes(types);
    forall i | 0 <= i < |all| ensures TypeOk(all[i]) {
      assert TypeOk(types[i]);
      forall k | 0 <= k < |all[i].fields| ensures FieldOk(all[i].fields[k]) {
        CanonFieldOk(types[i].fields[k]);
      }
    }
  }

  lemma WithTypeOk(types: seq<TypeDef>, asked: bool, name: string)
    requires TypesOk(types) && TypeName(name)
    ensures TypesOk(WithType(types, asked, name))
  {
    hide TypeName;
  }

  lemma EmptyTypeNames()
    ensures TypeName(EMPTY_REQUEST_TYPE) && RequestRef(EMPTY_REQUEST_TYPE)
    ensures TypeName(EMPTY_RESPONSE_TYPE) && TypeRef(EMPTY_RESPONSE_TYPE)
  {
    hide Find, Safe;
    SlashFreeSafe(EMPTY_REQUEST_TYPE);
    SlashFreeSafe(EMPTY_RESPONSE_TYPE);
    var s := EMPTY_REQUEST_TYPE;
    if Find(s, "returns").Some? {
      var i := Find(s, "returns").value;
      OccursChar(s, "returns", i, 0);
    }
  }

  // --------------------------------------------------------------- routes and methods

  lemma NormalRouteOk(route: RestRoute)
    requires RouteOk(route)
    ensures RouteOk(NormalRoute(route))
  {
    hide RequestRef, TypeRef, Doc, Handler, AnnotationNames, ServerOk, RoutePath;
    EmptyTypeNames();
  }

  lemma NormalRoutesOk(routes: seq<RestRoute>)
    requires RoutesOk(routes)
    ensures RoutesOk(NormalRoutes(routes))
  {
    hide RouteOk, NormalRoute;
    forall i | 0 <= i < |routes| ensures RouteOk(NormalRoutes(routes)[i]) {
      NormalRouteOk(routes[i]);
    }
  }

  lemma SettledRpcsOk(rpcs: seq<RpcMethod>)
    requires RpcsOk(rpcs)
    ensures RpcsOk(NormalRpcs(WithoutMiddlewares(rpcs)))
  {
    hide RequestRef, TypeRef, RpcName, AnnotationNames;
    EmptyTypeNames();
    var all := NormalRpcs(WithoutMiddlewares(rpcs));
    forall i | 0 <= i < |all| ensures RpcOk(all[i]) {
      assert RpcOk(rpcs[i]);
    }
  }

  lemma WithServerOk(route: RestRoute, server: Option<ServerSpec>)
    requires RouteOk(route) && (server.Some? ==> ServerOk(server.value))
    ensures RouteOk(route.(server := server))
  {
    hide RequestRef, TypeRef, RoutePath, Doc, Handler, AnnotationNames, ServerOk;
  }

  lemma {:induction false} StickyOk(routes: seq<RestRoute>, current: Option<ServerSpec>)
    requires RoutesOk(routes) && (current.Some? ==> ServerOk(current.value))
    ensures RoutesOk(Sticky(routes, current))
  {
    if routes != [] {
      var server := InForce(routes[0], current);
      assert RouteOk(routes[0]);
      assert RoutesOk(routes[1..]) by {
        forall k | 0 <= k < |routes[1..]| ensures RouteOk(routes[1..][k]) {
          assert routes[1..][k] == routes[k + 1];
        }
      }
      ServerOfRoute(routes[0]);
      hide RouteOk, ServerOk;
      WithServerOk(routes[0], server);
      StickyOk(routes[1..], server);
    }
  }

  lemma ServerOfRoute(route: RestRoute)
    requires RouteOk(route)
    ensures route.server.Some? ==> ServerOk(route.server.value)
  {
  }

  lemma {:induction false} FirstServerOk(routes: seq<RestRoute>)
    requires RoutesOk(routes)
    ensures FirstServer(routes).Some? ==> ServerOk(FirstServer(routes).value)
  {
    if routes != [] {
      assert RouteOk(routes[0]);
      ServerOfRoute(routes[0]);
      hide RouteOk, ServerOk;
      assert RoutesOk(routes[1..]) by {
        forall k | 0 <= k < |routes[1..]| ensures RouteOk(routes[1..][k]) {
          assert routes[1..][k] == routes[k + 1];
        }
      }
      FirstServerOk(routes[1..]);
    }
  }

  // --------------------------------------------------------------- the second pass

  /** What comes back from the text lies in the lexical domain again. */
  lemma SettledIsPrintable(spec: Spec)
    requires Printable(spec)
    ensures Printable(Canon(spec))
  {
    hide ServiceName, InfoOk, ServerOk, RoutesOk, RpcsOk, TypesOk, TypeName, NormalRoutes, NormalRpcs, CanonTypes,
         WithType, Sticky, WithoutMiddlewares, FirstServer, NoRouteServer, AsksRequest, AsksResponse;
    StickyOk(spec.restRoutes, None);
    NormalRoutesOk(Sticky(spec.restRoutes, None));
    SettledRpcsOk(spec.rpcMethods);
    CanonTypesOk(spec.types);
    EmptyTypeNames();
    var routes, rpcs := NormalRoutes(Sticky(spec.restRoutes, None)), NormalRpcs(WithoutMiddlewares(spec.rpcMethods));
    var types := CanonTypes(spec.types);
    WithTypeOk(types, AsksRequest(routes, rpcs), EMPTY_REQUEST_TYPE);
    WithTypeOk(WithType(types, AsksRequest(routes, rpcs), EMPTY_REQUEST_TYPE), AsksResponse(routes, rpcs),
               EMPTY_RESPONSE_TYPE);
    FirstServerOk(spec.restRoutes);
  }

  /** Formatting and parsing what came back gives it back: the first pass settles a contract for good. */
  lemma SecondPassChangesNothing(spec: Spec)
    requires Printable(spec)
    ensures Parse(Format(spec)).Ok?
    ensures var once := Parse(Format(spec)).value;
            Parse(Format(once)) == Ok(once) && Canonical(once)
  {
    hide Printable, Parse, Format, Canon, Canonical;
    ParseOfFormat(spec);
    SettledIsPrintable(spec);
    CanonIsCanonical(spec);
    RoundTrip(Canon(spec));
  }
}
