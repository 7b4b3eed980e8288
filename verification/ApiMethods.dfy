/** The parser's cursor loops and the printer's buffer, each proved to compute its specification. */
module ApiMethods {
  import opened Prelude
  import opened Text
  import opened ApiSpec
  import opened ApiParser
  import opened ApiPrinter

  // --------------------------------------------------------------- parsing

  method ParseInfoBlock(lines: seq<string>, i0: nat, info0: seq<InfoPair>)
    returns (r: Result<seq<InfoPair>, ParseError>, i: nat)
    requires i0 <= |lines|
    ensures match r
            case Err(e) => InfoBlock(lines, i0, info0) == Err(e)
            case Ok(info) => InfoBlock(lines, i0, info0) == Ok((info, i))
  {
    hide Clean, KeyPart, ValuePart;
    var info := info0;
    i := i0;
    while i < |lines|
      invariant i0 <= i <= |lines|
      invariant InfoBlock(lines, i, info) == InfoBlock(lines, i0, info0)
    {
      var line := Clean(lines[i]);
      i := i + 1;
      if line == "" {
        continue;
      }
      if line == ")" {
        return Ok(info), i;
      }
      var key, value := KeyPart(line), ValuePart(line);
      if key == "" || value == "" {
        return Err(InvalidLine(i, ExpectedInfoPair)), i;
      }
      info := info + [InfoPair(key, value)];
    }
    return Ok(info), i;
  }

  method ParseServerBlock(lines: seq<string>, i0: nat) returns (r: Result<ServerSpec, ParseError>, i: nat)
    requires i0 <= |lines|
    ensures match r
            case Err(e) => ServerBlock(lines, i0, NoServer) == Err(e)
            case Ok(server) => ServerBlock(lines, i0, NoServer) == Ok((server, i))
  {
    hide Clean, KeyPart, ValuePart, NameList;
    var server := NoServer;
    i := i0;
    while i < |lines|
      invariant i0 <= i <= |lines|
      invariant ServerBlock(lines, i, server) == ServerBlock(lines, i0, NoServer)
    {
      var line := Clean(lines[i]);
      i := i + 1;
      if line == "" {
        continue;
      }
      if line == ")" {
        return Ok(server), i;
      }
      var key, value := KeyPart(line), ValuePart(line);
      if key == "" || value == "" {
        return Err(InvalidLine(i, ExpectedServerPair)), i;
      }
      if key == "prefix" {
        server := server.(prefix := Some(value));
      } else if key == "group" {
        server := server.(group := Some(value));
      } else if key == "jwt" {
        server := server.(jwt := Some(value));
      } else if key == "middleware" || key == "middlewares" {
        server := server.(middlewares := server.middlewares + NameList(value));
      } else {
        return Err(InvalidLine(i, UnsupportedServerKey)), i;
      }
    }
    return Ok(server), i;
  }

  method ParseFieldsUntilBrace(lines: seq<string>, i0: nat) returns (r: Result<seq<Field>, ParseError>, i: nat)
    requires i0 <= |lines|
    ensures match r
            case Err(e) => FieldsBlock(lines, i0, []) == Err(e)
            case Ok(fields) => FieldsBlock(lines, i0, []) == Ok((fields, i))
  {
    hide Clean, FieldLine;
    var fields: seq<Field> := [];
    i := i0;
    while i < |lines|
      invariant i0 <= i <= |lines|
      invariant FieldsBlock(lines, i, fields) == FieldsBlock(lines, i0, [])
    {
      var line := Clean(lines[i]);
      i := i + 1;
      if line == "" {
        continue;
      }
      if line == "}" {
        return Ok(fields), i;
      }
      var field := FieldLine(line, i - 1);
      if field.Err? {
        return Err(field.error), i;
      }
      fields := fields + [field.value];
    }
    return Ok(fields), i;
  }

  method ParseTypeBlock(lines: seq<string>, i0: nat, types0: seq<TypeDef>)
    returns (r: Result<seq<TypeDef>, ParseError>, i: nat)
    requires i0 <= |lines|
    ensures match r
            case Err(e) => TypesBlock(lines, i0, types0) == Err(e)
            case Ok(types) => TypesBlock(lines, i0, types0) == Ok((types, i))
  {
    hide Clean, FieldsBlock, BraceName;
    var types := types0;
    i := i0;
    while i < |lines|
      invariant i0 <= i <= |lines|
      invariant TypesBlock(lines, i, types) == TypesBlock(lines, i0, types0)
    {
      var line := Clean(lines[i]);
      i := i + 1;
      if line == "" {
        continue;
      }
      if line == ")" {
        return Ok(types), i;
      }
      if line[|line| - 1] != '{' {
        return Err(InvalidLine(i, ExpectedTypeInBlock)), i;
      }
      var fields, j := ParseFieldsUntilBrace(lines, i);
      if fields.Err? {
        return Err(fields.error), i;
      }
      types := types + [TypeDef(BraceName(line), fields.value)];
      i := j;
    }
    return Ok(types), i;
  }

  /** The service loop, with its pending annotations and its two servers. */
  method ParseServiceBlock(lines: seq<string>, i0: nat, st0: Service) returns (r: Result<Service, ParseError>, i: nat)
    requires i0 <= |lines|
    ensures match r
            case Err(e) => ServiceBlock(lines, i0, st0) == Err(e)
            case Ok(st) => ServiceBlock(lines, i0, st0) == Ok((st, i))
  {
    hide Clean, ServerBlock, ServiceLine, IsBlockStart;
    var st := st0;
    i := i0;
    while i < |lines|
      invariant i0 <= i <= |lines|
      invariant ServiceBlock(lines, i, st) == ServiceBlock(lines, i0, st0)
    {
      var line := Clean(lines[i]);
      i := i + 1;
      if line == "" {
        continue;
      }
      if line == "}" {
        return Ok(st), i;
      }
      if IsBlockStart(line, "@server") {
        var server, j := ParseServerBlock(lines, i);
        if server.Err? {
          return Err(server.error), i;
        }
        st := WithServer(st, server.value);
        i := j;
        continue;
      }
      var next := ServiceLine(st, line, i - 1);
      if next.Err? {
        return Err(next.error), i;
      }
      st := next.value;
    }
    return Ok(st), i;
  }

  method ParseDeclaration(lines: seq<string>, i0: nat, file0: File) returns (r: Result<File, ParseError>, i: nat)
    requires i0 < |lines|
    ensures match r
            case Err(e) => TopDecl(lines, i0, file0) == Err(e)
            case Ok(file) => TopDecl(lines, i0, file0) == Ok((file, i))
  {
    hide Clean, InfoBlock, ServerBlock, TypesBlock, ServiceBlock, FieldsBlock, TopLine, IsBlockStart, IsSyntaxDecl,
         BraceName, Trim;
    var line := Clean(lines[i0]);
    i := i0 + 1;
    if line == "" || IsSyntaxDecl(line) {
      return Ok(file0), i;
    }
    if IsBlockStart(line, "info") {
      var info;
      info, i := ParseInfoBlock(lines, i, file0.info);
      return if info.Err? then Err(info.error) else Ok(file0.(info := info.value)), i;
    }
    if IsBlockStart(line, "@server") {
      var server;
      server, i := ParseServerBlock(lines, i);
      return if server.Err? then Err(server.error) else Ok(file0.(server := Some(server.value))), i;
    }
    if IsBlockStart(line, "type") {
      var types;
      types, i := ParseTypeBlock(lines, i, file0.types);
      return if types.Err? then Err(types.error) else Ok(file0.(types := types.value)), i;
    }
    var service := StripPrefix(line, "service ");
    if service.Some? {
      if line[|line| - 1] != '{' {
        return Ok(file0.(service := Some(Trim(service.value)))), i;
      }
      var st;
      st, i := ParseServiceBlock(lines, i, EnterService(file0));
      return if st.Err? then Err(st.error) else Ok(LeaveService(file0, BraceName(service.value), st.value)), i;
    }
    var ty := StripPrefix(line, "type ");
    if ty.Some? {
      var name := BraceName(ty.value);
      if name == "" || line[|line| - 1] != '{' {
        return Err(InvalidLine(i, ExpectedType)), i;
      }
      var fields;
      fields, i := ParseFieldsUntilBrace(lines, i);
      return if fields.Err? then Err(fields.error)
             else Ok(file0.(types := file0.types + [TypeDef(name, fields.value)])), i;
    }
    r := TopLine(file0, line, i0);
  }

  /** `normalize_empty_requests`: fills in empty requests and responses, and declares the types they need. */
  method NormalizeEmptyRequests(types0: seq<TypeDef>, routes0: seq<RestRoute>, rpcs0: seq<RpcMethod>)
    returns (types: seq<TypeDef>, routes: seq<RestRoute>, rpcs: seq<RpcMethod>)
    ensures routes == NormalRoutes(routes0) && rpcs == NormalRpcs(rpcs0)
    ensures types == NormalTypes(types0, routes, rpcs)
  {
    hide OrEmpty;
    types, routes, rpcs := types0, routes0, rpcs0;
    var needsReq, needsResp := false, false;
    for k := 0 to |routes0|
      invariant |routes| == |routes0|
      invariant forall j | 0 <= j < k :: routes[j] == NormalRoute(routes0[j])
      invariant forall j | k <= j < |routes| :: routes[j] == routes0[j]
      invariant needsReq <==> exists j :: 0 <= j < k && routes[j].request == EMPTY_REQUEST_TYPE
      invariant needsResp <==> exists j :: 0 <= j < k && routes[j].response == EMPTY_RESPONSE_TYPE
    {
      ghost var before := routes;
      routes := routes[k := NormalRoute(routes[k])];
      assert forall j | 0 <= j < k :: routes[j] == before[j];
      if routes[k].request == EMPTY_REQUEST_TYPE {
        needsReq := true;
      }
      if routes[k].response == EMPTY_RESPONSE_TYPE {
        needsResp := true;
      }
    }
    assert routes == NormalRoutes(routes0);
    ghost var routeReq, routeResp := needsReq, needsResp;
    for k := 0 to |rpcs0|
      invariant |rpcs| == |rpcs0|
      invariant forall j | 0 <= j < k :: rpcs[j] == NormalRpc(rpcs0[j])
      invariant forall j | k <= j < |rpcs| :: rpcs[j] == rpcs0[j]
      invariant needsReq <==> routeReq || exists j :: 0 <= j < k && rpcs[j].request == EMPTY_REQUEST_TYPE
      invariant needsResp <==> routeResp || exists j :: 0 <= j < k && rpcs[j].response == EMPTY_RESPONSE_TYPE
    {
      ghost var before := rpcs;
      rpcs := rpcs[k := NormalRpc(rpcs[k])];
      assert forall j | 0 <= j < k :: rpcs[j] == before[j];
      if rpcs[k].request == EMPTY_REQUEST_TYPE {
        needsReq := true;
      }
      if rpcs[k].response == EMPTY_RESPONSE_TYPE {
        needsResp := true;
      }
    }
    assert rpcs == NormalRpcs(rpcs0);
    if needsReq && !Declares(types, EMPTY_REQUEST_TYPE) {
      types := types + [TypeDef(EMPTY_REQUEST_TYPE, [])];
    }
    if needsResp && !Declares(types, EMPTY_RESPONSE_TYPE) {
      types := types + [TypeDef(EMPTY_RESPONSE_TYPE, [])];
    }
  }

  method ParseApi(source: string) returns (r: Result<Spec, ParseError>)
    ensures r == Parse(source)
  {
    hide Lines, TopDecl, NormalRoutes, NormalRpcs, NormalTypes;
    var lines := Lines(source);
    var file := EmptyFile;
    var i := 0;
    while i < |lines|
      invariant i <= |lines|
      invariant FileFrom(lines, i, file) == FileFrom(lines, 0, EmptyFile)
    {
      var next, j := ParseDeclaration(lines, i, file);
      if next.Err? {
        return Err(next.error);
      }
      file, i := next.value, j;
    }
    var types, routes, rpcs := NormalizeEmptyRequests(file.types, file.routes, file.rpcs);
    if file.service.None? {
      return Err(MissingService);
    }
    return Ok(Spec(file.service.value, None, file.server, file.info, types, routes, rpcs));
  }

  // --------------------------------------------------------------- printing

  lemma {:induction false} UnlinesCat(a: seq<string>, b: seq<string>)
    ensures Unlines(a + b) == Unlines(a) + Unlines(b)
  {
    if a == [] {
      assert a + b == b;
    } else {
      assert (a + b)[1..] == a[1..] + b;
      UnlinesCat(a[1..], b);
    }
  }

  lemma UnlinesOne(s: string)
    ensures Unlines([s]) == s + "\n"
  {
    assert [s][1..] == [];
  }

  /** `out` grown by one line. */
  function Put(out: string, line: string): string {
    out + line + "\n"
  }

  lemma PutLine(out: string, done: seq<string>, line: string, base: string)
    requires out == base + Unlines(done)
    ensures Put(out, line) == base + Unlines(done + [line])
  {
    UnlinesCat(done, [line]);
    UnlinesOne(line);
    assert base + Unlines(done) + line + "\n" == base + (Unlines(done) + (line + "\n"));
  }

  /** Appends indented texts one by one. */
  method PutAll(base: string, indent: string, texts: seq<string>) returns (out: string)
    ensures out == base + Unlines(Indent(indent, texts))
  {
    hide Unlines;
    out := base;
    assert base + Unlines([]) == base by { NoLines(); }
    ghost var all := Indent(indent, texts);
    for k := 0 to |texts|
      invariant out == base + Unlines(all[..k])
    {
      PutLine(out, all[..k], all[k], base);
      assert all[..k] + [all[k]] == all[..k + 1];
      out := Put(out, indent + texts[k]);
    }
    assert all[..|all|] == all;
  }

  lemma NoLines()
    ensures Unlines([]) == ""
  {
  }

  lemma Then(out: string, base: string, a: seq<string>, next: string, b: seq<string>)
    requires out == base + Unlines(a) && next == out + Unlines(b)
    ensures next == base + Unlines(a + b)
  {
    UnlinesCat(a, b);
  }

  /** One optional entry of a server block. */
  method PutEntry(base: string, indent: string, key: string, value: Option<string>) returns (out: string)
    ensures out == base + Unlines(Indent(indent, OptionalEntry(key, value)))
  {
    hide Unlines, EntryText;
    if value.None? {
      NoLines();
      assert Indent(indent, OptionalEntry(key, value)) == [];
      return base;
    }
    out := PutAll(base, indent, [EntryText(key, value.value)]);
  }

  method RenderServerBlock(base: string, server: ServerSpec, indent: string) returns (out: string)
    ensures out == base + Unlines(ServerLines(server, indent))
  {
    hide Unlines, OptionalEntry, JoinNames, Put, Indent, ServerLines;
    var inner := indent + Tab;
    var names := if server.middlewares == [] then None else Some(JoinNames(server.middlewares));
    ghost var open, a, b, c, d := [indent + "@server ("], Indent(inner, OptionalEntry("prefix", server.prefix)),
        Indent(inner, OptionalEntry("group", server.group)), Indent(inner, OptionalEntry("jwt", server.jwt)),
        Indent(inner, OptionalEntry("middleware", names));
    NoLines();
    assert base + Unlines([]) == base;
    PutLine(base, [], indent + "@server (", base);
    assert [] + open == open;
    var out0 := Put(base, indent + "@server (");
    var out1 := PutEntry(out0, inner, "prefix", server.prefix);
    Then(out0, base, open, out1, a);
    var out2 := PutEntry(out1, inner, "group", server.group);
    Then(out1, base, open + a, out2, b);
    var out3 := PutEntry(out2, inner, "jwt", server.jwt);
    Then(out2, base, open + a + b, out3, c);
    var out4 := PutEntry(out3, inner, "middleware", names);
    Then(out3, base, open + a + b + c, out4, d);
    PutLine(out4, open + a + b + c + d, indent + ")", base);
    out := Put(out4, indent + ")");
    ServerLinesShape(server, indent);
  }

  lemma ServerLinesShape(server: ServerSpec, indent: string)
    ensures ServerLines(server, indent) ==
              [indent + "@server ("]
              + Indent(indent + Tab, OptionalEntry("prefix", server.prefix))
              + Indent(indent + Tab, OptionalEntry("group", server.group))
              + Indent(indent + Tab, OptionalEntry("jwt", server.jwt))
              + Indent(indent + Tab,
                       OptionalEntry("middleware",
                                     if server.middlewares == [] then None else Some(JoinNames(server.middlewares))))
              + [indent + ")"]
  {
    hide OptionalEntry, JoinNames, Indent;
    var inner := indent + Tab;
    var names := if server.middlewares == [] then None else Some(JoinNames(server.middlewares));
    var a, b, c, d := OptionalEntry("prefix", server.prefix), OptionalEntry("group", server.group),
                      OptionalEntry("jwt", server.jwt), OptionalEntry("middleware", names);
    IndentCat(inner, a + b + c, d);
    IndentCat(inner, a + b, c);
    IndentCat(inner, a, b);
  }

  lemma IndentCat(indent: string, a: seq<string>, b: seq<string>)
    ensures Indent(indent, a + b) == Indent(indent, a) + Indent(indent, b)
  {
  }

  /** `format_api_field_tags`: the tags are collected, then joined. */
  method FormatFieldTags(field: Field) returns (text: string)
    ensures text == TagsText(field)
  {
    hide TagText, WireName;
    var tags: seq<string> := [];
    if !field.source.Auto? {
      tags := tags + [TagText(TagName(field.source), WireName(field))];
    }
    if field.validate.Some? {
      tags := tags + [TagText("validate", field.validate.value)];
    }
    if tags == [] {
      return "";
    }
    text := " `" + tags[0];
    if |tags| > 1 {
      text := text + " " + tags[1];
    }
    text := text + "`";
  }

  method FormatRoute(base: string, route: RestRoute) returns (out: string)
    ensures out == base + Unlines(RouteLines(route))
  {
    hide Unlines, ServerLines, RouteTexts, Indent;
    out := base;
    NoLines();
    if route.server.Some? {
      out := RenderServerBlock(out, route.server.value, Tab);
    }
    ghost var server := if route.server.Some? then ServerLines(route.server.value, Tab) else [];
    assert out == base + Unlines(server);
    var texts: seq<string> := [];
    if route.doc.Some? {
      texts := texts + ["@doc \"" + route.doc.value + "\""];
    }
    texts := texts + Prefixed("@middleware ", route.middlewares) + Prefixed("@permission ", route.permissions);
    if route.websocket {
      texts := texts + ["@websocket"];
    }
    if route.maud {
      texts := texts + ["@maud"];
    }
    if route.handler.Some? {
      texts := texts + ["@handler " + route.handler.value];
    }
    texts := texts + [RouteText(route)];
    RouteTextsAre(route, texts);
    ghost var before := out;
    out := PutAll(out, Tab, texts);
    Then(before, base, server, out, Indent(Tab, texts));
  }

  lemma RouteTextsAre(route: RestRoute, texts: seq<string>)
    requires texts == (if route.doc.Some? then ["@doc \"" + route.doc.value + "\""] else [])
                      + Prefixed("@middleware ", route.middlewares) + Prefixed("@permission ", route.permissions)
                      + (if route.websocket then ["@websocket"] else [])
                      + (if route.maud then ["@maud"] else [])
                      + (if route.handler.Some? then ["@handler " + route.handler.value] else [])
                      + [RouteText(route)]
    ensures texts == RouteTexts(route)
  {
    hide RouteText, Prefixed;
  }

  method FormatType(base: string, ty: TypeDef) returns (out: string)
    ensures out == base + Unlines(TypeLines(ty))
  {
    hide Unlines, TagsText, Indent, FieldTexts;
    var texts: seq<string> := [];
    FieldCount(ty.fields);
    for k := 0 to |ty.fields|
      invariant texts == FieldTexts(ty.fields)[..k]
    {
      var field := ty.fields[k];
      var tags := FormatFieldTags(field);
      FieldTextAt(ty.fields, k);
      texts := texts + [(if field.embedded then field.ty else field.name + " " + field.ty) + tags];
    }
    assert texts == FieldTexts(ty.fields);
    var header := Tab + (ty.name + " {");
    NoLines();
    assert base + Unlines([]) == base;
    PutLine(base, [], header, base);
    assert [] + [header] == [header];
    var started := Put(base, header);
    var body := PutAll(started, Tab + Tab, texts);
    Then(started, base, [header], body, Indent(Tab + Tab, texts));
    PutLine(body, [header] + Indent(Tab + Tab, texts), Tab + "}", base);
    out := Put(body, Tab + "}");
  }

  lemma FieldCount(fields: seq<Field>)
    ensures |FieldTexts(fields)| == |fields|
  {
  }

  lemma FieldTextAt(fields: seq<Field>, k: nat)
    requires k < |fields|
    ensures |FieldTexts(fields)| == |fields| && FieldTexts(fields)[k] == FieldText(fields[k])
    ensures FieldTexts(fields)[..k + 1] == FieldTexts(fields)[..k] + [FieldText(fields[k])]
  {
    hide FieldText;
  }

  method FormatRoutes(base: string, routes: seq<RestRoute>) returns (out: string)
    ensures out == base + Unlines(RoutesLines(routes))
  {
    hide Unlines, RouteLines;
    out := base;
    NoLines();
    ghost var done: seq<string> := [];
    for k := 0 to |routes|
      invariant out == base + Unlines(done)
      invariant done + RoutesLines(routes[k..]) == RoutesLines(routes)
    {
      assert routes[k..][0] == routes[k] && routes[k..][1..] == routes[k + 1..];
      ghost var before := out;
      out := FormatRoute(out, routes[k]);
      Then(before, base, done, out, RouteLines(routes[k]));
      assert done + (RouteLines(routes[k]) + RoutesLines(routes[k + 1..]))
             == done + RouteLines(routes[k]) + RoutesLines(routes[k + 1..]);
      done := done + RouteLines(routes[k]);
    }
    assert routes[|routes|..] == [];
    assert done + [] == done;
  }

  method FormatRpcs(base: string, rpcs: seq<RpcMethod>) returns (out: string)
    ensures out == base + Unlines(RpcsLines(rpcs))
  {
    hide Unlines, Indent, Prefixed, RpcText;
    out := base;
    NoLines();
    ghost var done: seq<string> := [];
    for k := 0 to |rpcs|
      invariant out == base + Unlines(done)
      invariant done + RpcsLines(rpcs[k..]) == RpcsLines(rpcs)
    {
      assert rpcs[k..][0] == rpcs[k] && rpcs[k..][1..] == rpcs[k + 1..];
      ghost var before := out;
      var texts := Prefixed("@permission ", rpcs[k].permissions) + [RpcText(rpcs[k])];
      out := PutAll(out, Tab, texts);
      Then(before, base, done, out, Indent(Tab, texts));
      assert done + (Indent(Tab, texts) + RpcsLines(rpcs[k + 1..])) == done + Indent(Tab, texts)
             + RpcsLines(rpcs[k + 1..]);
      done := done + Indent(Tab, texts);
    }
    assert rpcs[|rpcs|..] == [];
    assert done + [] == done;
  }

  method FormatTypes(base: string, types: seq<TypeDef>) returns (out: string)
    ensures out == base + Unlines(TypesLines(types))
  {
    hide Unlines, TypeLines;
    out := base;
    NoLines();
    ghost var done: seq<string> := [];
    for k := 0 to |types|
      invariant out == base + Unlines(done)
      invariant done + TypesLines(types[k..]) == TypesLines(types)
    {
      assert types[k..][0] == types[k] && types[k..][1..] == types[k + 1..];
      ghost var before := out;
      out := FormatType(out, types[k]);
      Then(before, base, done, out, TypeLines(types[k]));
      assert done + (TypeLines(types[k]) + TypesLines(types[k + 1..]))
             == done + TypeLines(types[k]) + TypesLines(types[k + 1..]);
      done := done + TypeLines(types[k]);
    }
    assert types[|types|..] == [];
    assert done + [] == done;
  }

  lemma PutTwo(out: string, base: string, done: seq<string>, a: string, b: string)
    requires out == base + Unlines(done)
    ensures Put(Put(out, a), b) == base + Unlines(done + [a, b])
  {
    hide Unlines, Put;
    PutLine(out, done, a, base);
    PutLine(Put(out, a), done + [a], b, base);
    assert done + [a] + [b] == done + [a, b];
  }

  method FormatInfo(base: string, info: seq<InfoPair>) returns (out: string)
    ensures out == base + Unlines(InfoLines(info))
  {
    hide Unlines, Indent, InfoTexts, Put;
    NoLines();
    assert base + Unlines([]) == base;
    if info == [] {
      return base;
    }
    PutLine(base, [], "info (", base);
    assert [] + ["info ("] == ["info ("];
    var started := Put(base, "info (");
    var body := PutAll(started, Tab, InfoTexts(info));
    Then(started, base, ["info ("], body, Indent(Tab, InfoTexts(info)));
    PutTwo(body, base, ["info ("] + Indent(Tab, InfoTexts(info)), ")", "");
    out := Put(Put(body, ")"), "");
  }

  method FormatHead(spec: Spec) returns (out: string)
    ensures out == Unlines(HeadLines(spec))
  {
    hide Unlines, InfoLines, ServerLines, Put;
    NoLines();
    assert "" + Unlines([]) == "";
    PutTwo("", "", [], "syntax = \"v1\"", "");
    ghost var a := ["syntax = \"v1\"", ""];
    assert [] + a == a;
    var out0 := Put(Put("", "syntax = \"v1\""), "");
    out := FormatInfo(out0, spec.info);
    Then(out0, "", a, out, InfoLines(spec.info));
    if NoRouteServer(spec.restRoutes) && spec.server.Some? {
      var out1 := out;
      ghost var block := ServerLines(spec.server.value, "");
      out := RenderServerBlock(out1, spec.server.value, "");
      Then(out1, "", a + InfoLines(spec.info), out, block);
      PutLine(out, a + InfoLines(spec.info) + block, "", "");
      out := Put(out, "");
      assert a + InfoLines(spec.info) + block + [""] == a + InfoLines(spec.info) + (block + [""]);
      assert out == "" + Unlines(HeadLines(spec)) == Unlines(HeadLines(spec));
    } else {
      assert a + InfoLines(spec.info) + [] == a + InfoLines(spec.info);
      assert out == "" + Unlines(HeadLines(spec)) == Unlines(HeadLines(spec));
    }
  }

  method FormatService(base: string, spec: Spec) returns (out: string)
    ensures out == base + Unlines(ServiceLines(spec))
  {
    hide Unlines, RoutesLines, RpcsLines, Put;
    NoLines();
    assert base + Unlines([]) == base;
    ghost var a := [ServiceText(spec.service)];
    PutLine(base, [], ServiceText(spec.service), base);
    assert [] + a == a;
    var out0 := Put(base, ServiceText(spec.service));
    var out1 := FormatRoutes(out0, spec.restRoutes);
    Then(out0, base, a, out1, RoutesLines(spec.restRoutes));
    var out2 := FormatRpcs(out1, spec.rpcMethods);
    Then(out1, base, a + RoutesLines(spec.restRoutes), out2, RpcsLines(spec.rpcMethods));
    PutLine(out2, a + RoutesLines(spec.restRoutes) + RpcsLines(spec.rpcMethods), "}", base);
    out := Put(out2, "}");
  }

  method FormatTypeBlock(base: string, types: seq<TypeDef>) returns (out: string)
    ensures out == base + Unlines(TypeBlockLines(types))
  {
    hide Unlines, TypesLines, Put;
    NoLines();
    assert base + Unlines([]) == base;
    if types == [] {
      return base;
    }
    PutTwo(base, base, [], "", "type (");
    ghost var a := ["", "type ("];
    assert [] + a == a;
    var out0 := Put(Put(base, ""), "type (");
    var out1 := FormatTypes(out0, types);
    Then(out0, base, a, out1, TypesLines(types));
    PutLine(out1, a + TypesLines(types), ")", base);
    out := Put(out1, ")");
  }

  /** `format_api_spec`: one buffer, block after block. */
  method FormatApiSpec(spec: Spec) returns (out: string)
    ensures out == Format(spec)
  {
    hide Unlines, HeadLines, ServiceLines, TypeBlockLines;
    var head := FormatHead(spec);
    var service := FormatService(head, spec);
    assert "" + Unlines(HeadLines(spec)) == Unlines(HeadLines(spec));
    Then(head, "", HeadLines(spec), service, ServiceLines(spec));
    out := FormatTypeBlock(service, spec.types);
    Then(service, "", HeadLines(spec) + ServiceLines(spec), out, TypeBlockLines(spec.types));
  }
}
