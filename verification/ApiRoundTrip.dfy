/** Printing a contract and parsing the text gives the contract back, settled as far as the text can say. */
module ApiRoundTrip {
  import opened Prelude
  import opened Text
  import opened ApiSpec
  import opened ApiParser
  import opened ApiPrinter
  import opened ApiLexical
  import opened ApiFields
  import opened ApiBlocks

  // --------------------------------------------------------------- what the text can say

  /** The server in force after a route: its own, or the one before. */
  function InForce(route: RestRoute, current: Option<ServerSpec>): Option<ServerSpec> {
    if route.server.Some? then route.server else current
  }

  /** A server block stays in force until the next one. */
  function Sticky(routes: seq<RestRoute>, current: Option<ServerSpec>): seq<RestRoute> {
    if routes == [] then [] else
      var server := InForce(routes[0], current);
      [routes[0].(server := server)] + Sticky(routes[1..], server)
  }

  function FirstServer(routes: seq<RestRoute>): Option<ServerSpec> {
    if routes == [] then None
    else if routes[0].server.Some? then routes[0].server
    else FirstServer(routes[1..])
  }

  function WithoutMiddlewares(rpcs: seq<RpcMethod>): seq<RpcMethod> {
    seq(|rpcs|, i requires 0 <= i < |rpcs| => rpcs[i].(middlewares := []))
  }

  function CanonFields(fields: seq<Field>): seq<Field> {
    seq(|fields|, i requires 0 <= i < |fields| => CanonField(fields[i]))
  }

  function CanonTypes(types: seq<TypeDef>): seq<TypeDef> {
    seq(|types|, i requires 0 <= i < |types| => TypeDef(types[i].name, CanonFields(types[i].fields)))
  }

  function CanonServer(spec: Spec): Option<ServerSpec> {
    if NoRouteServer(spec.restRoutes) then spec.server else FirstServer(spec.restRoutes)
  }

  /** The contract as the printed text states it. */
  function Canon(spec: Spec): Spec {
    var routes, rpcs := NormalRoutes(Sticky(spec.restRoutes, None)), NormalRpcs(WithoutMiddlewares(spec.rpcMethods));
    Spec(spec.service, None, CanonServer(spec), spec.info, NormalTypes(CanonTypes(spec.types), routes, rpcs), routes,
         rpcs)
  }

  // --------------------------------------------------------------- which contracts can be printed

  ghost predicate RpcOk(m: RpcMethod) {
    RpcTexted(m) && AnnotationNames(m.permissions)
  }

  ghost predicate TypeOk(ty: TypeDef) {
    TypeName(ty.name) && forall k | 0 <= k < |ty.fields| :: FieldOk(ty.fields[k])
  }

  ghost predicate RoutesOk(routes: seq<RestRoute>) {
    forall k | 0 <= k < |routes| :: RouteOk(routes[k])
  }

  ghost predicate RpcsOk(rpcs: seq<RpcMethod>) {
    forall k | 0 <= k < |rpcs| :: RpcOk(rpcs[k])
  }

  ghost predicate TypesOk(types: seq<TypeDef>) {
    forall k | 0 <= k < |types| :: TypeOk(types[k])
  }

  /** Every text of the contract lies in the lexical domain, and the route annotations do not clash. */
  ghost predicate Printable(spec: Spec) {
    && ServiceName(spec.service) && InfoOk(spec.info)
    && (spec.server.Some? ==> ServerOk(spec.server.value))
    && RoutesOk(spec.restRoutes) && RpcsOk(spec.rpcMethods) && TypesOk(spec.types)
  }

  // --------------------------------------------------------------- the service block

  function AfterRoute(st: Service, route: RestRoute): Service {
    var inForce := if route.server.Some? then WithServer(st, route.server.value) else st;
    inForce.(routes := st.routes + [route.(server := InForce(route, st.current))])
  }

  lemma OneRouteReads(lines: seq<string>, i: nat, route: RestRoute, st: Service)
    requires RouteOk(route) && Settled(st) && At(lines, i, RouteLines(route))
    ensures ServiceBlock(lines, i, st) == ServiceBlock(lines, i + |RouteLines(route)|, AfterRoute(st, route))
  {
    hide ServiceBlock, ServerLines, RouteTexts, Settled, At;
    if route.server.Some? {
      var server := route.server.value;
      AtSplit(lines, i, ServerLines(server, Tab), Indent(Tab, RouteTexts(route)));
      RouteServerReads(lines, i, server, st);
      SettledServer(st, server);
      RouteReads(lines, i + |ServerLines(server, Tab)|, route, WithServer(st, server));
    } else {
      assert [] + Indent(Tab, RouteTexts(route)) == Indent(Tab, RouteTexts(route));
      RouteReads(lines, i, route, st);
    }
  }

  lemma SettledServer(st: Service, server: ServerSpec)
    requires Settled(st)
    ensures Settled(WithServer(st, server))
  {
  }

  lemma {:induction false} RoutesRead(lines: seq<string>, i: nat, routes: seq<RestRoute>, st: Service)
    requires RoutesOk(routes) && Settled(st) && At(lines, i, RoutesLines(routes))
    ensures exists st': Service :: ServiceBlock(lines, i, st) == ServiceBlock(lines, i + |RoutesLines(routes)|, st')
                          && Settled(st') && st'.rpcs == st.rpcs
                          && st'.routes == st.routes + Sticky(routes, st.current)
                          && st'.first == if st.first.Some? then st.first else FirstServer(routes)
    decreases |routes|
  {
    hide ServiceBlock, RouteLines, RouteOk, At;
    if routes == [] {
      assert st.routes + [] == st.routes;
    } else {
      var rest := routes[1..];
      AtSplit(lines, i, RouteLines(routes[0]), RoutesLines(rest));
      OneRouteReads(lines, i, routes[0], st);
      var next := AfterRoute(st, routes[0]);
      RoutesRead(lines, i + |RouteLines(routes[0])|, rest, next);
      var server := InForce(routes[0], st.current);
      assert next.current == server;
      assert st.routes + [routes[0].(server := server)] + Sticky(rest, server)
             == st.routes + ([routes[0].(server := server)] + Sticky(rest, server));
    }
  }

  lemma RpcReads(lines: seq<string>, i: nat, m: RpcMethod, st: Service)
    requires RpcOk(m) && Settled(st) && At(lines, i, Indent(Tab, RpcTexts(m)))
    ensures ServiceBlock(lines, i, st) ==
              ServiceBlock(lines, i + |RpcTexts(m)|, st.(rpcs := st.rpcs + [m.(middlewares := [])]))
  {
    hide ServiceBlock, RpcTexted, ServiceLine, ItemLine, AnnotationName;
    var marks := Prefixed("@permission ", m.permissions);
    IndentSplit(lines, i, Tab, marks, [RpcText(m)]);
    PermissionsRead(lines, i, m.permissions, 0, st);
    var j, pending := i + |marks|, st.(permissions := m.permissions);
    RpcItemReads(pending, m, j);
    RpcCore(m);
    assert lines[j + 0] == Indent(Tab, [RpcText(m)])[0] == Tab + RpcText(m);
    ItemStep(lines, j, pending, RpcText(m), st.(rpcs := st.rpcs + [m.(middlewares := [])]));
  }

  lemma {:induction false} RpcsRead(lines: seq<string>, i: nat, rpcs: seq<RpcMethod>, st: Service)
    requires RpcsOk(rpcs) && Settled(st) && At(lines, i, RpcsLines(rpcs))
    ensures ServiceBlock(lines, i, st) == ServiceBlock(lines, i + |RpcsLines(rpcs)|,
                                                       st.(rpcs := st.rpcs + WithoutMiddlewares(rpcs)))
    decreases |rpcs|
  {
    hide ServiceBlock, RpcTexts, RpcOk, At;
    if rpcs == [] {
      assert st.rpcs + [] == st.rpcs;
      assert st.(rpcs := st.rpcs) == st;
    } else {
      var m, rest := rpcs[0], rpcs[1..];
      AtSplit(lines, i, Indent(Tab, RpcTexts(m)), RpcsLines(rest));
      RpcReads(lines, i, m, st);
      var next := st.(rpcs := st.rpcs + [m.(middlewares := [])]);
      RpcsRead(lines, i + |RpcTexts(m)|, rest, next);
      assert WithoutMiddlewares(rpcs) == [m.(middlewares := [])] + WithoutMiddlewares(rest);
      assert st.rpcs + [m.(middlewares := [])] + WithoutMiddlewares(rest) == st.rpcs + WithoutMiddlewares(rpcs);
    }
  }

  lemma ServiceEnds(lines: seq<string>, i: nat, st: Service)
    requires i < |lines| && lines[i] == "}"
    ensures ServiceBlock(lines, i, st) == Ok((st, i + 1))
  {
    hide Clean;
    FixedClean("", "}");
    assert "" + "}" == "}";
  }

  /** The whole body of a printed service. */
  lemma ServiceReads(lines: seq<string>, i: nat, routes: seq<RestRoute>, rpcs: seq<RpcMethod>)
    requires RoutesOk(routes) && RpcsOk(rpcs) && At(lines, i, RoutesLines(routes) + RpcsLines(rpcs) + ["}"])
    ensures exists st: Service :: ServiceBlock(lines, i, EnterService(EmptyFile))
                         == Ok((st, i + |RoutesLines(routes)| + |RpcsLines(rpcs)| + 1))
                         && st.routes == Sticky(routes, None) && st.rpcs == WithoutMiddlewares(rpcs)
                            && st.first == FirstServer(routes)
  {
    hide ServiceBlock, RoutesLines, RpcsLines, Sticky, WithoutMiddlewares, FirstServer, RoutesOk, RpcsOk;
    var a, b := RoutesLines(routes), RpcsLines(rpcs);
    AtSplit(lines, i, a + b, ["}"]);
    AtSplit(lines, i, a, b);
    var st0 := EnterService(EmptyFile);
    RoutesRead(lines, i, routes, st0);
    var st1: Service :| ServiceBlock(lines, i, st0) == ServiceBlock(lines, i + |a|, st1)
               && Settled(st1) && st1.rpcs == st0.rpcs && st1.routes == st0.routes + Sticky(routes, st0.current)
               && st1.first == if st0.first.Some? then st0.first else FirstServer(routes);
    assert st0.routes + Sticky(routes, None) == Sticky(routes, None);
    RpcsRead(lines, i + |a|, rpcs, st1);
    var st2 := st1.(rpcs := st1.rpcs + WithoutMiddlewares(rpcs));
    assert [] + WithoutMiddlewares(rpcs) == WithoutMiddlewares(rpcs);
    assert lines[i + |a| + |b| + 0] == ["}"][0];
    ServiceEnds(lines, i + |a| + |b|, st2);
  }

  // --------------------------------------------------------------- types

  lemma FieldLineCore(f: Field)
    requires FieldOk(f)
    ensures Core(FieldText(f)) && FieldText(f) != "" && FieldText(f) != "}"
  {
    FieldSafe(f);
    TagsStart(f);
    hide Safe, TagsText, TagsOk;
    var head, tags := HeadText(f), TagsText(f);
    assert FieldText(f) == head + tags;
    assert head != "" && !IsWhitespace(head[0]) && !IsWhitespace(head[|head| - 1]);
    if tags == "" { assert head + tags == head; }
  }

  lemma FieldSafe(f: Field)
    requires FieldOk(f)
    ensures Safe(FieldText(f))
  {
    hide Safe, WireName, TagName;
    var head := HeadText(f);
    assert Safe(head) && '"' !in head by {
      if !f.embedded {
        SafeWrap([], f.name, " ");
        assert [] + f.name + " " == f.name + " ";
        SafeCat(f.name + " ", f.ty);
      }
    }
    TagsSafe(f);
    TagsStart(f);
    assert TagsText(f) != "" ==> TagsText(f)[0] != '/';
    SafeCat(head, TagsText(f));
    assert FieldText(f) == head + TagsText(f);
  }

  lemma SourceTagSafe(f: Field)
    requires TagsOk(f) && !f.source.Auto?
    ensures Safe(" `" + TagText(TagName(f.source), WireName(f)) + "`")
    ensures Safe(" `" + TagText(TagName(f.source), WireName(f)))
  {
    hide Safe, WireName;
    TagNameSlashFree(f);
    SafeWrap(" `" + TagName(f.source) + ":\"", WireName(f), "\"`");
    SafeWrap(" `" + TagName(f.source) + ":\"", WireName(f), "\"");
    assert " `" + TagName(f.source) + ":\"" + WireName(f) + "\"`" == " `" + TagText(TagName(f.source), WireName(f))
           + "`";
    assert " `" + TagName(f.source) + ":\"" + WireName(f) + "\"" == " `" + TagText(TagName(f.source), WireName(f));
  }

  lemma ValidateTagSafe(f: Field)
    requires TagsOk(f) && f.validate.Some?
    ensures Safe(" `" + TagText("validate", f.validate.value) + "`")
    ensures Safe(" " + TagText("validate", f.validate.value) + "`")
  {
    hide Safe;
    SafeWrap(" `validate:\"", f.validate.value, "\"`");
    assert " `validate:\"" + f.validate.value + "\"`" == " `" + TagText("validate", f.validate.value) + "`";
    SafeWrap(" validate:\"", f.validate.value, "\"`");
    assert " validate:\"" + f.validate.value + "\"`" == " " + TagText("validate", f.validate.value) + "`";
  }

  lemma TagsSafe(f: Field)
    requires TagsOk(f)
    ensures Safe(TagsText(f))
  {
    hide Safe, WireName, TagText, TagName;
    if !f.source.Auto? {
      SourceTagSafe(f);
    }
    if f.validate.Some? {
      ValidateTagSafe(f);
      if !f.source.Auto? {
        var front, tail := " `" + TagText(TagName(f.source), WireName(f)),
            " " + TagText("validate", f.validate.value) + "`";
        SafeCat(front, tail);
        assert TagsText(f) == front + tail;
      }
    } else if f.source.Auto? {
      SlashFreeSafe("");
    }
  }

  lemma TagNameSlashFree(f: Field)
    ensures SlashFree(TagName(f.source))
  {
  }

  lemma {:induction false} FieldsRead(lines: seq<string>, i: nat, fields: seq<Field>, k: nat)
    requires (forall j | 0 <= j < |fields| :: FieldOk(fields[j])) && k <= |fields| && i + |fields| < |lines|
    requires At(lines, i, Indent(Tab + Tab, FieldTexts(fields))) && lines[i + |fields|] == Tab + "}"
    ensures FieldsBlock(lines, i + k, CanonFields(fields)[..k]) == Ok((CanonFields(fields), i + |fields| + 1))
    decreases |fields| - k
  {
    hide Clean, FieldLine, FieldOk, FieldText, Core, CanonField;
    if k == |fields| {
      FixedClean(Tab, "}");
      assert CanonFields(fields)[..k] == CanonFields(fields);
    } else {
      FieldReads(fields[k], i + k);
      FieldLineCore(fields[k]);
      assert FieldTexts(fields)[k] == FieldText(fields[k]);
      IndentedClean(lines, i, Tab + Tab, FieldTexts(fields), k);
      assert CanonFields(fields)[..k] + [CanonField(fields[k])] == CanonFields(fields)[..k + 1];
      FieldsRead(lines, i, fields, k + 1);
    }
  }

  lemma TypeReads(lines: seq<string>, i: nat, ty: TypeDef, acc: seq<TypeDef>)
    requires TypeOk(ty) && At(lines, i, TypeLines(ty))
    ensures TypesBlock(lines, i, acc) == TypesBlock(lines, i + |TypeLines(ty)|,
                                                    acc + [TypeDef(ty.name, CanonFields(ty.fields))])
  {
    hide Clean, FieldsBlock, FieldOk, Core, BraceName, FieldTexts, CanonFields;
    var header, body := Tab + (ty.name + " {"), Indent(Tab + Tab, FieldTexts(ty.fields));
    var n := |ty.fields|;
    FieldCounts(ty.fields);
    AtSplit(lines, i, [header] + body, [Tab + "}"]);
    AtSplit(lines, i, [header], body);
    assert lines[i + 0] == [header][0];
    assert lines[i + 1 + n + 0] == [Tab + "}"][0];
    TypeHeaderCore(ty.name);
    CleanCore(Tab, ty.name + " {");
    BraceOf(ty.name);
    FieldsRead(lines, i + 1, ty.fields, 0);
    assert CanonFields(ty.fields)[..0] == [];
  }

  lemma FieldCounts(fields: seq<Field>)
    ensures |FieldTexts(fields)| == |fields| == |CanonFields(fields)|
  {
  }

  lemma BraceOf(n: string)
    requires TypeName(n)
    ensures BraceName(n + " {") == n
  {
    BraceReads(n);
  }

  lemma {:induction false} TypesRead(lines: seq<string>, i: nat, types: seq<TypeDef>, acc: seq<TypeDef>)
    requires TypesOk(types) && At(lines, i, TypesLines(types) + [")"])
    ensures TypesBlock(lines, i, acc) == Ok((acc + CanonTypes(types), i + |TypesLines(types)| + 1))
    decreases |types|
  {
    hide TypeOk, TypeLines, CanonFields, TypesBlock;
    AtSplit(lines, i, TypesLines(types), [")"]);
    if types == [] {
      assert lines[i + 0] == [")"][0];
      TypesEnd(lines, i, acc);
      assert acc + CanonTypes(types) == acc;
    } else {
      var ty, rest := types[0], types[1..];
      var canon := TypeDef(ty.name, CanonFields(ty.fields));
      assert TypesLines(types) + [")"] == TypeLines(ty) + (TypesLines(rest) + [")"]);
      AtSplit(lines, i, TypeLines(ty), TypesLines(rest) + [")"]);
      TypeReads(lines, i, ty, acc);
      TypesRead(lines, i + |TypeLines(ty)|, rest, acc + [canon]);
      assert CanonTypes(types) == [canon] + CanonTypes(rest);
      assert acc + [canon] + CanonTypes(rest) == acc + CanonTypes(types);
    }
  }

  lemma TypesEnd(lines: seq<string>, i: nat, acc: seq<TypeDef>)
    requires i < |lines| && lines[i] == ")"
    ensures TypesBlock(lines, i, acc) == Ok((acc, i + 1))
  {
    hide Clean;
    FixedClean("", ")");
    assert "" + ")" == ")";
  }

  // --------------------------------------------------------------- the file

  lemma SyntaxLine(rest: string)
    ensures IsSyntaxDecl("syntax " + ['='] + rest)
  {
    hide Trim;
    var word := "syntax";
    var head := "syntax ";
    assert head == word + " ";
    var line := head + ['='] + rest;
    FindCharAt(head, '=', rest);
    assert line[..|head|] == head == [] + word + " ";
    TrimAround([], word, " ");
  }

  lemma SyntaxText()
    ensures Clean("syntax = \"v1\"") == "syntax = \"v1\"" && IsSyntaxDecl("syntax = \"v1\"")
  {
    hide Clean, IsSyntaxDecl;
    var line := "syntax = \"v1\"";
    FixedClean("", line);
    assert "" + line == line;
    SyntaxLine(" \"v1\"");
    assert line == "syntax " + ['='] + " \"v1\"";
  }

  lemma SkipStep(lines: seq<string>, i: nat, file: File)
    requires i < |lines| && IsSyntaxDecl(Clean(lines[i]))
    ensures TopDecl(lines, i, file) == Ok((file, i + 1))
  {
    hide Clean, IsSyntaxDecl, IsBlockStart, InfoBlock, ServerBlock, TypesBlock, ServiceBlock, FieldsBlock, TopLine;
  }

  lemma SyntaxStep(lines: seq<string>, i: nat, file: File)
    requires i < |lines| && lines[i] == "syntax = \"v1\""
    ensures FileFrom(lines, i, file) == FileFrom(lines, i + 1, file)
  {
    hide Clean, IsSyntaxDecl, TopDecl, FileFrom;
    SyntaxText();
    SkipStep(lines, i, file);
    TopStep(lines, i, file, file, i + 1);
  }

  lemma BlankStep(lines: seq<string>, i: nat, file: File)
    requires i < |lines| && lines[i] == ""
    ensures FileFrom(lines, i, file) == FileFrom(lines, i + 1, file)
  {
    BlankClean();
    hide Clean, IsSyntaxDecl;
  }

  lemma NotSyntax(line: string)
    requires '=' !in line
    ensures !IsSyntaxDecl(line)
  {
    hide Trim;
    assert FindChar(line, '=') == |line|;
  }

  lemma Opens(word: string, line: string)
    requires line == word + " (" && SlashFree(line) && Trimmed(line) && '=' !in line
    ensures Clean(line) == line && IsBlockStart(line, word) && !IsSyntaxDecl(line)
  {
    hide Clean, Trim, TrimStart, IsSyntaxDecl;
    FixedClean("", line);
    assert "" + line == line;
    NotSyntax(line);
    PrefixOfConcat(word, " (");
    TrimAround(" ", "(", []);
    assert " " + "(" == " (";
  }

  /** The opening lines of the three kinds of block, each only its own. */
  lemma OpeningLines()
    ensures Clean("info (") == "info (" && IsBlockStart("info (", "info") && !IsSyntaxDecl("info (")
    ensures Clean("type (") == "type (" && IsBlockStart("type (", "type") && !IsSyntaxDecl("type (")
    ensures Clean("@server (") == "@server (" && IsBlockStart("@server (", "@server") && !IsSyntaxDecl("@server (")
  {
    hide Clean, IsBlockStart, IsSyntaxDecl;
    Opens("info", "info (");
    Opens("type", "type (");
    Opens("@server", "@server (");
  }

  lemma InfoBlockStep(lines: seq<string>, i: nat, info: seq<InfoPair>, file: File)
    requires InfoOk(info) && file.info == [] && i < |lines| && lines[i] == "info ("
    requires At(lines, i + 1, Indent(Tab, InfoTexts(info))) && |InfoTexts(info)| == |info|
    requires i + 1 + |info| < |lines| && lines[i + 1 + |info|] == ")"
    ensures i + 2 + |info| <= |lines|
    ensures FileFrom(lines, i, file) == FileFrom(lines, i + 2 + |info|, file.(info := info))
  {
    hide Clean, IsSyntaxDecl, IsBlockStart, InfoBlock, InfoTexts, FileFrom, InfoOk, At, Indent;
    OpeningLines();
    InfoBlockReads(lines, i + 1, info, 0, []);
    assert [] + info[..0] == [] && [] + info == info;
    TopStep(lines, i, file, file.(info := info), i + 2 + |info|);
  }

  lemma InfoStepSome(lines: seq<string>, i: nat, info: seq<InfoPair>, file: File)
    requires info != [] && InfoOk(info) && file.info == [] && At(lines, i, InfoLines(info))
    ensures FileFrom(lines, i, file) == FileFrom(lines, i + |InfoLines(info)|, file.(info := info))
  {
    hide InfoTexts, FileFrom, InfoOk, At, Indent;
    var n := |info|;
    InfoCount(info);
    IndentCount(Tab, InfoTexts(info));
    AtSplit(lines, i, ["info ("] + Indent(Tab, InfoTexts(info)), [")", ""]);
    AtSplit(lines, i, ["info ("], Indent(Tab, InfoTexts(info)));
    LastLine(lines, i, "info (");
    AtTwo(lines, i + 1 + n, [")", ""]);
    InfoBlockStep(lines, i, info, file);
    BlankStep(lines, i + 2 + n, file.(info := info));
  }

  lemma InfoStep(lines: seq<string>, i: nat, info: seq<InfoPair>, file: File)
    requires InfoOk(info) && file.info == [] && At(lines, i, InfoLines(info))
    ensures FileFrom(lines, i, file) == FileFrom(lines, i + |InfoLines(info)|, file.(info := info))
  {
    hide FileFrom, InfoOk, At, InfoTexts, Indent;
    if info == [] {
      assert file.(info := info) == file;
    } else {
      InfoStepSome(lines, i, info, file);
    }
  }

  lemma InfoCount(info: seq<InfoPair>)
    ensures |InfoTexts(info)| == |info|
  {
  }

  lemma TopStep(lines: seq<string>, i: nat, file: File, next: File, j: nat)
    requires i < |lines| && TopDecl(lines, i, file) == Ok((next, j))
    ensures i < j <= |lines| && FileFrom(lines, i, file) == FileFrom(lines, j, next)
  {
    hide TopDecl;
  }

  lemma TopServerStep(lines: seq<string>, i: nat, server: ServerSpec, file: File)
    requires ServerOk(server) && At(lines, i, ServerLines(server, "") + [""])
    ensures FileFrom(lines, i, file) == FileFrom(lines, i + |ServerLines(server, "")| + 1,
                                                 file.(server := Some(server)))
  {
    hide Clean, IsSyntaxDecl, IsBlockStart, ServerBlock, ServerTexts, FileFrom, ServerOk;
    var body := Indent("" + Tab, ServerTexts(server)) + ["" + ")"];
    assert ServerLines(server, "") == ["" + "@server ("] + body;
    AtSplit(lines, i, ServerLines(server, ""), [""]);
    AtSplit(lines, i, ["" + "@server ("], body);
    assert lines[i + 0] == ["" + "@server ("][0] == "@server (";
    var j := i + |ServerLines(server, "")|;
    assert lines[j + 0] == [""][0];
    OpeningLines();
    NotInfo();
    ServerBlockReads(lines, i + 1, "", server);
    TopStep(lines, i, file, file.(server := Some(server)), j);
    BlankStep(lines, j, file.(server := Some(server)));
  }

  lemma NotInfo()
    ensures !IsBlockStart("@server (", "info") && !IsBlockStart("type (", "info") && !IsBlockStart("type (", "@server")
  {
    NotPrefix("info", "@server (", 0);
    NotPrefix("info", "type (", 0);
    NotPrefix("@server", "type (", 0);
  }

  /** The file once the service has been read. */
  function WithService(file: File, spec: Spec): File {
    file.(service := Some(spec.service), routes := Sticky(spec.restRoutes, None),
          rpcs := WithoutMiddlewares(spec.rpcMethods),
          server := if file.server.None? && FirstServer(spec.restRoutes).Some? then FirstServer(spec.restRoutes)
              else file.server)
  }

  /** A printed service header opens a service of that name. */
  lemma ServiceDecl(lines: seq<string>, i: nat, name: string, file: File, st: Service, j: nat)
    requires ServiceName(name) && i < |lines| && lines[i] == ServiceText(name)
    requires ServiceBlock(lines, i + 1, EnterService(file)) == Ok((st, j))
    ensures TopDecl(lines, i, file) == Ok((LeaveService(file, name, st), j))
  {
    hide Clean, IsSyntaxDecl, IsBlockStart, InfoBlock, ServerBlock, TypesBlock, ServiceBlock, FieldsBlock, TopLine, Core,
         BraceName, EnterService, LeaveService;
    ServiceHeaderCore(name);
    ServiceHeaderIsNew(name);
    CleanCore("", ServiceText(name));
    assert "" + ServiceText(name) == ServiceText(name);
    ServiceBrace(name);
  }

  lemma ServiceStep(lines: seq<string>, i: nat, spec: Spec, file: File)
    requires Printable(spec) && file.routes == [] && file.rpcs == [] && At(lines, i, ServiceLines(spec))
    ensures FileFrom(lines, i, file) == FileFrom(lines, i + |ServiceLines(spec)|, WithService(file, spec))
  {
    hide ServiceBlock, RoutesLines, RpcsLines, FileFrom, TopDecl, At, InfoOk, TypesOk, RoutesOk, RpcsOk, ServerOk,
         ServiceName, ServiceText, Sticky, WithoutMiddlewares, FirstServer;
    var header, body := ServiceText(spec.service), RoutesLines(spec.restRoutes) + RpcsLines(spec.rpcMethods) + ["}"];
    assert ServiceLines(spec) == [header] + body;
    AtSplit(lines, i, [header], body);
    LastLine(lines, i, header);
    ServiceReads(lines, i + 1, spec.restRoutes, spec.rpcMethods);
    var j := i + |ServiceLines(spec)|;
    var st: Service :| ServiceBlock(lines, i + 1, EnterService(EmptyFile)) == Ok((st, j))
             && st.routes == Sticky(spec.restRoutes, None) && st.rpcs == WithoutMiddlewares(spec.rpcMethods)
             && st.first == FirstServer(spec.restRoutes);
    assert EnterService(file) == EnterService(EmptyFile);
    ServiceDecl(lines, i, spec.service, file, st, j);
    TopStep(lines, i, file, WithService(file, spec), j);
  }

  lemma ServiceBrace(n: string)
    requires ServiceName(n)
    ensures BraceName(n + " {") == n
  {
    BraceReads(n);
  }

  lemma TypeBlockStep(lines: seq<string>, i: nat, types: seq<TypeDef>, file: File)
    requires TypesOk(types) && file.types == [] && i < |lines| && lines[i] == "type ("
    requires At(lines, i + 1, TypesLines(types) + [")"])
    ensures FileFrom(lines, i, file) == FileFrom(lines, i + |TypesLines(types)| + 2, file.(types := CanonTypes(types)))
  {
    hide Clean, IsSyntaxDecl, IsBlockStart, TypesBlock, TypesLines, FileFrom, TypesOk, CanonTypes, At;
    OpeningLines();
    NotInfo();
    TypesRead(lines, i + 1, types, []);
    assert [] + CanonTypes(types) == CanonTypes(types);
    TopStep(lines, i, file, file.(types := CanonTypes(types)), i + |TypesLines(types)| + 2);
  }

  lemma TypesStepSome(lines: seq<string>, i: nat, types: seq<TypeDef>, file: File)
    requires types != [] && TypesOk(types) && file.types == [] && At(lines, i, TypeBlockLines(types))
    ensures FileFrom(lines, i, file) == FileFrom(lines, i + |TypeBlockLines(types)|, file.(types := CanonTypes(types)))
  {
    hide TypesLines, FileFrom, TypesOk, At, CanonTypes, TypeBlockLines;
    var tail := TypesLines(types) + [")"];
    TypeBlockShape(types);
    AtSplit(lines, i, ["", "type ("], tail);
    AtTwo(lines, i, ["", "type ("]);
    BlankStep(lines, i, file);
    TypeBlockStep(lines, i + 1, types, file);
  }

  lemma TypeBlockShape(types: seq<TypeDef>)
    requires types != []
    ensures TypeBlockLines(types) == ["", "type ("] + (TypesLines(types) + [")"])
    ensures |TypeBlockLines(types)| == |TypesLines(types)| + 3
  {
    hide TypesLines;
  }

  lemma TypesStep(lines: seq<string>, i: nat, types: seq<TypeDef>, file: File)
    requires TypesOk(types) && file.types == [] && At(lines, i, TypeBlockLines(types))
    ensures FileFrom(lines, i, file) == FileFrom(lines, i + |TypeBlockLines(types)|, file.(types := CanonTypes(types)))
  {
    hide TypesLines, FileFrom, TypesOk, At;
    if types == [] {
      assert file.(types := CanonTypes(types)) == file;
    } else {
      TypesStepSome(lines, i, types, file);
    }
  }

  /** The parsed file of a printed contract. */
  function FileOf(spec: Spec): File {
    File(Some(spec.service), CanonServer(spec), spec.info, CanonTypes(spec.types),
         Sticky(spec.restRoutes, None), WithoutMiddlewares(spec.rpcMethods))
  }

  lemma {:induction false} NoneFirst(routes: seq<RestRoute>)
    ensures FirstServer(routes).None? <==> NoRouteServer(routes)
  {
    if routes != [] {
      NoneFirst(routes[1..]);
      assert NoRouteServer(routes) <==> routes[0].server.None? && NoRouteServer(routes[1..]) by {
        if routes[0].server.None? && NoRouteServer(routes[1..]) {
          forall i | 0 <= i < |routes| ensures routes[i].server.None? {
            if i > 0 { assert routes[1..][i - 1].server.None?; }
          }
        }
        if NoRouteServer(routes) {
          forall i | 0 <= i < |routes[1..]| ensures routes[1..][i].server.None? {
            assert routes[i + 1].server.None?;
          }
        }
      }
    }
  }

  function HeadFile(spec: Spec): File {
    var f := EmptyFile.(info := spec.info);
    if NoRouteServer(spec.restRoutes) then f.(server := spec.server) else f
  }

  lemma TopServerReads(lines: seq<string>, i: nat, spec: Spec, file: File)
    requires Printable(spec) && At(lines, i, TopServerLines(spec)) && file.server.None?
    ensures FileFrom(lines, i, file) ==
            FileFrom(lines, i + |TopServerLines(spec)|,
                     if NoRouteServer(spec.restRoutes) then file.(server := spec.server) else file)
  {
    hide FileFrom, ServerLines, InfoOk, TypesOk, RoutesOk, RpcsOk, ServerOk, NoRouteServer, At;
    if NoRouteServer(spec.restRoutes) && spec.server.Some? {
      TopServerStep(lines, i, spec.server.value, file);
    } else if NoRouteServer(spec.restRoutes) {
      assert file.(server := spec.server) == file;
    }
  }

  lemma HeadReads(lines: seq<string>, spec: Spec)
    requires Printable(spec) && At(lines, 0, HeadLines(spec))
    ensures FileFrom(lines, 0, EmptyFile) == FileFrom(lines, |HeadLines(spec)|, HeadFile(spec))
  {
    hide FileFrom, InfoLines, TopServerLines, InfoOk, TypesOk, RoutesOk, RpcsOk, ServerOk, NoRouteServer, At;
    var a, b, c := ["syntax = \"v1\"", ""], InfoLines(spec.info), TopServerLines(spec);
    AtSplit(lines, 0, a + b, c);
    AtSplit(lines, 0, a, b);
    AtTwo(lines, 0, a);
    SyntaxStep(lines, 0, EmptyFile);
    BlankStep(lines, 1, EmptyFile);
    InfoStep(lines, 2, spec.info, EmptyFile);
    TopServerReads(lines, 2 + |b|, spec, EmptyFile.(info := spec.info));
  }

  lemma PrintedReads(spec: Spec)
    requires Printable(spec)
    ensures FileFrom(SpecLines(spec), 0, EmptyFile) == Ok(FileOf(spec))
  {
    hide FileFrom, HeadLines, ServiceLines, TypeBlockLines, InfoOk, TypesOk, RoutesOk, RpcsOk, ServerOk, Sticky,
         WithoutMiddlewares, FirstServer, CanonTypes, NoRouteServer, At;
    var lines := SpecLines(spec);
    var c, d, e := HeadLines(spec), ServiceLines(spec), TypeBlockLines(spec.types);
    AtSelf(lines);
    AtSplit(lines, 0, c + d, e);
    AtSplit(lines, 0, c, d);
    HeadReads(lines, spec);
    ServiceStep(lines, |c|, spec, HeadFile(spec));
    NoneFirst(spec.restRoutes);
    var f3 := WithService(HeadFile(spec), spec);
    assert f3.server == CanonServer(spec);
    TypesStep(lines, |c| + |d|, spec.types, f3);
    FileEnds(lines, f3.(types := CanonTypes(spec.types)));
  }

  lemma AtSelf(lines: seq<string>)
    ensures At(lines, 0, lines)
  {
  }

  lemma AtTwo(lines: seq<string>, i: nat, chunk: seq<string>)
    requires At(lines, i, chunk) && |chunk| == 2
    ensures i + 1 < |lines| && lines[i] == chunk[0] && lines[i + 1] == chunk[1]
  {
    assert lines[i + 0] == chunk[0];
  }

  lemma FileEnds(lines: seq<string>, file: File)
    ensures FileFrom(lines, |lines|, file) == Ok(file)
  {
  }

  // --------------------------------------------------------------- lines and text

  ghost predicate AllPlain(lines: seq<string>) {
    forall k | 0 <= k < |lines| :: PlainLine(lines[k])
  }

  lemma AllPlainCat(a: seq<string>, b: seq<string>)
    requires AllPlain(a) && AllPlain(b)
    ensures AllPlain(a + b)
  {
    hide PlainLine;
  }

  /** Splitting undoes joining. */
  lemma {:induction false} LinesOfUnlines(lines: seq<string>)
    requires AllPlain(lines)
    ensures Lines(Unlines(lines)) == lines
  {
    if lines != [] {
      var first, rest := lines[0], Unlines(lines[1..]);
      assert PlainLine(first);
      assert first + "\n" + rest == first + ['\n'] + rest;
      FindCharAt(first, '\n', rest);
      var s := first + ['\n'] + rest;
      assert s[..|first|] == first && s[|first| + 1..] == rest;
      LinesOfUnlines(lines[1..]);
    }
  }

  lemma IndentPlain(indent: string, texts: seq<string>)
    requires Margin(indent) && Cores(texts)
    ensures AllPlain(Indent(indent, texts))
  {
    hide Core, PlainLine, Clean;
    forall k | 0 <= k < |texts| ensures PlainLine(Indent(indent, texts)[k]) {
      CleanCore(indent, texts[k]);
    }
  }

  lemma OnePlain(indent: string, text: string)
    requires Margin(indent) && text != "" && Core(text)
    ensures AllPlain([indent + text])
  {
    hide Core, PlainLine, Clean;
    CleanCore(indent, text);
  }

  lemma InfoPlain(info: seq<InfoPair>)
    requires InfoOk(info)
    ensures AllPlain(InfoLines(info))
  {
    hide InfoKey, InfoValue, Core, InfoText;
    forall k | 0 <= k < |info| ensures InfoTexts(info)[k] != "" && Core(InfoTexts(info)[k]) {
      InfoCore(info[k]);
    }
    IndentPlain(Tab, InfoTexts(info));
    hide InfoTexts, Indent;
    AllPlainCat(["info ("], Indent(Tab, InfoTexts(info)));
    AllPlainCat(["info ("] + Indent(Tab, InfoTexts(info)), [")", ""]);
  }

  lemma OptionalCore(key: string, value: Option<string>)
    requires EntryKey(key) && OptionalValue(value)
    ensures Cores(OptionalEntry(key, value))
  {
    hide Core, EntryKey, ServerValue;
    if value.Some? { EntryCore(key, value.value); }
  }

  lemma CoresCat(a: seq<string>, b: seq<string>)
    requires Cores(a) && Cores(b)
    ensures Cores(a + b)
  {
    hide Core;
  }

  lemma ServerCores(server: ServerSpec)
    requires ServerOk(server)
    ensures Cores(ServerTexts(server))
  {
    hide Core, EntryKey, ServerValue, Cores, OptionalEntry, Name;
    EntryKeys();
    if server.middlewares != [] { JoinedIsValue(server.middlewares); }
    OptionalCore("prefix", server.prefix);
    OptionalCore("group", server.group);
    OptionalCore("jwt", server.jwt);
    OptionalCore("middleware", MiddlewareValue(server));
    CoresCat(OptionalEntry("prefix", server.prefix), OptionalEntry("group", server.group));
    CoresCat(OptionalEntry("prefix", server.prefix) + OptionalEntry("group", server.group),
             OptionalEntry("jwt", server.jwt));
    CoresCat(OptionalEntry("prefix", server.prefix) + OptionalEntry("group", server.group)
             + OptionalEntry("jwt", server.jwt),
             OptionalEntry("middleware", MiddlewareValue(server)));
  }

  lemma ServerPlain(server: ServerSpec, indent: string)
    requires ServerOk(server) && Margin(indent)
    ensures AllPlain(ServerLines(server, indent))
  {
    hide ServerTexts, PlainLine, ServerOk, Cores, Core;
    ServerCores(server);
    IndentPlain(indent + Tab, ServerTexts(server));
    FixedCore("@server (");
    FixedCore(")");
    OnePlain(indent, "@server (");
    OnePlain(indent, ")");
    AllPlainCat([indent + "@server ("], Indent(indent + Tab, ServerTexts(server)));
    AllPlainCat([indent + "@server ("] + Indent(indent + Tab, ServerTexts(server)), [indent + ")"]);
  }

  lemma FixedCore(s: string)
    requires Trimmed(s) && SlashFree(s)
    ensures Core(s)
  {
    SlashFreeSafe(s);
  }

  lemma MarkedCores(mark: string, names: seq<string>)
    requires AnnotationNames(names) && (mark == "@middleware " || mark == "@permission ")
    ensures Cores(Prefixed(mark, names))
  {
    hide Core, AnnotationName;
    forall k | 0 <= k < |names| ensures Prefixed(mark, names)[k] != "" && Core(Prefixed(mark, names)[k]) {
      NameArg(names[k]);
      AnnotationItem(mark, names[k]);
    }
  }

  lemma OneIfCore(wanted: bool, text: string)
    requires wanted ==> text != "" && Core(text)
    ensures Cores(OneIf(wanted, text))
  {
    hide Core;
  }

  lemma RouteCores(route: RestRoute)
    requires RouteOk(route)
    ensures Cores(RouteTexts(route))
  {
    hide Core, Cores, Prefixed, Name, RouteText, RouteTexted, RouteTexts, Safe, IsBlockStart, OneIf, AnnotationNames,
         ServerOk;
    var a := OneIf(route.doc.Some?, if route.doc.Some? then DocText(route.doc.value) else "");
    var b, c := Prefixed("@middleware ", route.middlewares), Prefixed("@permission ", route.permissions);
    var w, u := OneIf(route.websocket, "@websocket"), OneIf(route.maud, "@maud");
    var e := OneIf(route.handler.Some?, if route.handler.Some? then "@handler " + route.handler.value else "");
    if route.doc.Some? { DocItem(route.doc.value); }
    if route.handler.Some? { AnnotationItem("@handler ", route.handler.value); }
    MarkItem("@websocket");
    MarkItem("@maud");
    RouteCore(route);
    OneIfCore(route.doc.Some?, if route.doc.Some? then DocText(route.doc.value) else "");
    OneIfCore(route.handler.Some?, if route.handler.Some? then "@handler " + route.handler.value else "");
    OneIfCore(route.websocket, "@websocket");
    OneIfCore(route.maud, "@maud");
    MarkedCores("@middleware ", route.middlewares);
    MarkedCores("@permission ", route.permissions);
    SingleCore(RouteText(route));
    CoresCat(a, b);
    CoresCat(a + b, c);
    CoresCat(w, u);
    CoresCat(a + b + c, w + u);
    CoresCat(a + b + c + (w + u), e);
    CoresCat(a + b + c + (w + u) + e, [RouteText(route)]);
    RouteTextsShape(route);
  }

  lemma SingleCore(text: string)
    requires text != "" && Core(text)
    ensures Cores([text])
  {
    hide Core;
  }

  lemma {:induction false} RoutesPlain(routes: seq<RestRoute>)
    requires RoutesOk(routes)
    ensures AllPlain(RoutesLines(routes))
  {
    hide RouteOk, ServerLines, RouteTexts, AllPlain, Indent, Cores;
    if routes == [] {
      NonePlain();
    } else {
      RoutesPlain(routes[1..]);
      RoutePlain(routes[0]);
      AllPlainCat(RouteLines(routes[0]), RoutesLines(routes[1..]));
    }
  }

  lemma NonePlain()
    ensures AllPlain([])
  {
  }

  lemma RoutePlain(route: RestRoute)
    requires RouteOk(route)
    ensures AllPlain(RouteLines(route))
  {
    hide ServerLines, RouteTexts, AllPlain, Indent, Cores, AnnotationNames, RouteTexted, Doc, Handler, ServerOk;
    RouteCores(route);
    IndentPlain(Tab, RouteTexts(route));
    NonePlain();
    if route.server.Some? {
      ServerPlain(route.server.value, Tab);
      AllPlainCat(ServerLines(route.server.value, Tab), Indent(Tab, RouteTexts(route)));
    } else {
      AllPlainCat([], Indent(Tab, RouteTexts(route)));
    }
  }

  lemma RpcCores(m: RpcMethod)
    requires RpcOk(m)
    ensures Cores(RpcTexts(m))
  {
    hide Core, Cores, Prefixed, RpcTexted, RpcText, AnnotationNames, IsBlockStart;
    MarkedCores("@permission ", m.permissions);
    RpcCore(m);
    SingleCore(RpcText(m));
    CoresCat(Prefixed("@permission ", m.permissions), [RpcText(m)]);
  }

  lemma {:induction false} RpcsPlain(rpcs: seq<RpcMethod>)
    requires RpcsOk(rpcs)
    ensures AllPlain(RpcsLines(rpcs))
  {
    hide RpcOk, RpcTexts, AllPlain, Indent, Cores;
    if rpcs == [] {
      NonePlain();
    } else {
      RpcsPlain(rpcs[1..]);
      RpcCores(rpcs[0]);
      IndentPlain(Tab, RpcTexts(rpcs[0]));
      AllPlainCat(Indent(Tab, RpcTexts(rpcs[0])), RpcsLines(rpcs[1..]));
    }
  }

  lemma FieldsCores(fields: seq<Field>)
    requires forall k | 0 <= k < |fields| :: FieldOk(fields[k])
    ensures Cores(FieldTexts(fields))
  {
    hide FieldOk, Core, FieldText;
    forall k | 0 <= k < |fields| ensures FieldTexts(fields)[k] != "" && Core(FieldTexts(fields)[k]) {
      FieldLineCore(fields[k]);
    }
  }

  lemma TypePlain(ty: TypeDef)
    requires TypeOk(ty)
    ensures AllPlain(TypeLines(ty))
  {
    hide FieldOk, Core, AllPlain, Indent, Cores, FieldTexts;
    TypeHeaderCore(ty.name);
    OnePlain(Tab, ty.name + " {");
    FixedCore("}");
    OnePlain(Tab, "}");
    FieldsCores(ty.fields);
    IndentPlain(Tab + Tab, FieldTexts(ty.fields));
    AllPlainCat([Tab + (ty.name + " {")], Indent(Tab + Tab, FieldTexts(ty.fields)));
    AllPlainCat([Tab + (ty.name + " {")] + Indent(Tab + Tab, FieldTexts(ty.fields)), [Tab + "}"]);
  }

  lemma {:induction false} TypesPlain(types: seq<TypeDef>)
    requires TypesOk(types)
    ensures AllPlain(TypesLines(types))
  {
    hide TypeOk, AllPlain, TypeLines;
    if types == [] {
      NonePlain();
    } else {
      TypesPlain(types[1..]);
      TypePlain(types[0]);
      AllPlainCat(TypeLines(types[0]), TypesLines(types[1..]));
    }
  }

  lemma TypeBlockPlain(types: seq<TypeDef>)
    requires TypesOk(types)
    ensures AllPlain(TypeBlockLines(types))
  {
    hide TypesOk, TypesLines;
    TypesPlain(types);
    AllPlainCat(["", "type ("], TypesLines(types));
    AllPlainCat(["", "type ("] + TypesLines(types), [")"]);
  }

  lemma ServicePlain(spec: Spec)
    requires Printable(spec)
    ensures AllPlain(ServiceLines(spec))
  {
    hide AllPlain, RoutesLines, RpcsLines, Core, InfoOk, TypesOk, RoutesOk, RpcsOk, ServerOk, ServiceText;
    var header := ServiceText(spec.service);
    ServiceHeaderCore(spec.service);
    OnePlain("", header);
    assert "" + header == header;
    RoutesPlain(spec.restRoutes);
    RpcsPlain(spec.rpcMethods);
    FixedCore("}");
    OnePlain("", "}");
    assert "" + "}" == "}";
    AllPlainCat([header], RoutesLines(spec.restRoutes));
    AllPlainCat([header] + RoutesLines(spec.restRoutes), RpcsLines(spec.rpcMethods));
    AllPlainCat([header] + RoutesLines(spec.restRoutes) + RpcsLines(spec.rpcMethods), ["}"]);
  }

  lemma SpecPlain(spec: Spec)
    requires Printable(spec)
    ensures AllPlain(SpecLines(spec))
  {
    hide AllPlain, InfoLines, ServerLines, ServiceLines, TypeBlockLines, TopServerLines, Core, InfoOk, TypesOk,
         RoutesOk, RpcsOk, ServerOk;
    var a, b, c, d, e := ["syntax = \"v1\"", ""], InfoLines(spec.info), TopServerLines(spec), ServiceLines(spec),
        TypeBlockLines(spec.types);
    HeadPlain();
    InfoPlain(spec.info);
    TopServerPlain(spec);
    ServicePlain(spec);
    TypeBlockPlain(spec.types);
    AllPlainCat(a, b);
    AllPlainCat(a + b, c);
    AllPlainCat(a + b + c, d);
    AllPlainCat(a + b + c + d, e);
  }

  lemma HeadPlain()
    ensures AllPlain(["syntax = \"v1\"", ""])
  {
  }

  lemma TopServerPlain(spec: Spec)
    requires Printable(spec)
    ensures AllPlain(TopServerLines(spec))
  {
    hide ServerLines, ServerOk, InfoOk, TypesOk, RoutesOk, RpcsOk, Core;
    if spec.server.Some? {
      ServerPlain(spec.server.value, "");
      AllPlainCat(ServerLines(spec.server.value, ""), [""]);
    }
  }

  // --------------------------------------------------------------- the theorem

  /** Parsing what was printed gives the contract, settled as the text states it. */
  lemma ParseOfFormat(spec: Spec)
    requires Printable(spec)
    ensures Parse(Format(spec)) == Ok(Canon(spec))
  {
    hide Printable, SpecLines, Lines, FileFrom, Sticky, WithoutMiddlewares, NormalTypes, CanonTypes, CanonServer,
         NormalRoutes, NormalRpcs;
    SpecPlain(spec);
    LinesOfUnlines(SpecLines(spec));
    PrintedReads(spec);
  }

  /** So a printable contract survives the round trip if and only if it is canonical. */
  lemma RoundTripIffCanonical(spec: Spec)
    requires Printable(spec)
    ensures Parse(Format(spec)) == Ok(spec) <==> Canon(spec) == spec
  {
    hide Printable, Parse, Format, Canon;
    ParseOfFormat(spec);
  }
}
