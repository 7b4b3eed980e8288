/** How each printed block of lines reads back. */
module ApiBlocks {
  import opened Prelude
  import opened Text
  import opened ApiSpec
  import opened ApiParser
  import opened ApiPrinter
  import opened ApiLexical

  /** The lines from `i` on are exactly `chunk`, then anything. */
  ghost predicate At(lines: seq<string>, i: nat, chunk: seq<string>) {
    i + |chunk| <= |lines| && forall k | 0 <= k < |chunk| :: lines[i + k] == chunk[k]
  }

  lemma AtSplit(lines: seq<string>, i: nat, a: seq<string>, b: seq<string>)
    requires At(lines, i, a + b)
    ensures At(lines, i, a) && At(lines, i + |a|, b)
  {
    forall k | 0 <= k < |a| ensures lines[i + k] == a[k] { assert (a + b)[k] == a[k]; }
    forall k | 0 <= k < |b| ensures lines[i + |a| + k] == b[k] { assert (a + b)[|a| + k] == b[k]; }
  }

  ghost predicate Cores(texts: seq<string>) {
    forall k | 0 <= k < |texts| :: texts[k] != "" && Core(texts[k])
  }

  lemma IndentedClean(lines: seq<string>, i: nat, indent: string, texts: seq<string>, k: nat)
    requires Margin(indent) && At(lines, i, Indent(indent, texts)) && k < |texts| && texts[k] != "" && Core(texts[k])
    ensures i + k < |lines| && Clean(lines[i + k]) == texts[k]
  {
    hide Clean, Core;
    assert Indent(indent, texts)[k] == indent + texts[k];
    CleanCore(indent, texts[k]);
  }

  /** A fixed line of the printer's own. */
  lemma FixedClean(indent: string, s: string)
    requires Margin(indent) && s != "" && Trimmed(s) && SlashFree(s)
    ensures Clean(indent + s) == s
  {
    hide Clean, Safe;
    SlashFreeSafe(s);
    CleanCore(indent, s);
  }

  lemma BlankClean()
    ensures Clean("") == ""
  {
    StripSafe("");
  }

  // --------------------------------------------------------------- info

  ghost predicate InfoOk(info: seq<InfoPair>) {
    forall k | 0 <= k < |info| :: InfoKey(info[k].key) && InfoValue(info[k].value)
  }

  lemma {:induction false} InfoBlockReads(lines: seq<string>, i: nat, info: seq<InfoPair>, k: nat, acc: seq<InfoPair>)
    requires InfoOk(info) && k <= |info| && i + |info| < |lines|
    requires At(lines, i, Indent(Tab, InfoTexts(info))) && lines[i + |info|] == ")"
    ensures InfoBlock(lines, i + k, acc + info[..k]) == Ok((acc + info, i + |info| + 1))
    decreases |info| - k
  {
    hide Clean, KeyPart, ValuePart, Core, Safe;
    if k == |info| {
      FixedClean("", ")");
      assert "" + ")" == ")";
      assert info[..k] == info;
    } else {
      InfoCore(info[k]);
      InfoReads(info[k]);
      assert InfoTexts(info)[k] == InfoText(info[k]);
      IndentedClean(lines, i, Tab, InfoTexts(info), k);
      assert acc + info[..k] + [info[k]] == acc + info[..k + 1];
      InfoBlockReads(lines, i, info, k + 1, acc);
    }
  }

  // --------------------------------------------------------------- server blocks

  ghost predicate OptionalValue(v: Option<string>) {
    v.Some? ==> ServerValue(v.value)
  }

  ghost predicate ServerOk(server: ServerSpec) {
    OptionalValue(server.prefix) && OptionalValue(server.group) && OptionalValue(server.jwt)
        && ApiLexical.Names(server.middlewares)
  }

  lemma EntryStep(lines: seq<string>, i: nat, indent: string, key: string, value: string, acc: ServerSpec)
    requires Margin(indent) && i < |lines| && lines[i] == indent + EntryText(key, value)
    requires EntryKey(key) && ServerValue(value)
    ensures ServerBlock(lines, i, acc) ==
              match ServerEntry(acc, key, value, i)
              case Err(e) => Err(e)
              case Ok(server) => ServerBlock(lines, i + 1, server)
  {
    hide Clean, KeyPart, ValuePart, ServerEntry, EntryKey, ServerValue, EntryText;
    EntryCore(key, value);
    EntryReads(key, value);
    CleanCore(indent, EntryText(key, value));
  }

  /** An optional entry that sets `server` from `acc`. */
  lemma OptionalStep(lines: seq<string>, i: nat, indent: string, key: string, value: Option<string>, acc: ServerSpec,
                     server: ServerSpec)
    requires Margin(indent) && EntryKey(key) && OptionalValue(value)
             && At(lines, i, Indent(indent, OptionalEntry(key, value)))
    requires if value.Some? then ServerEntry(acc, key, value.value, i) == Ok(server) else server == acc
    ensures ServerBlock(lines, i, acc) == ServerBlock(lines, i + |OptionalEntry(key, value)|, server)
  {
    hide ServerBlock, ServerEntry, EntryKey, ServerValue;
    if value.Some? {
      assert Indent(indent, OptionalEntry(key, value))[0] == indent + EntryText(key, value.value);
      EntryStep(lines, i, indent, key, value.value, acc);
    }
  }

  lemma IndentSplit(lines: seq<string>, i: nat, indent: string, a: seq<string>, b: seq<string>)
    requires At(lines, i, Indent(indent, a + b))
    ensures At(lines, i, Indent(indent, a)) && At(lines, i + |a|, Indent(indent, b))
  {
    assert Indent(indent, a + b) == Indent(indent, a) + Indent(indent, b);
    AtSplit(lines, i, Indent(indent, a), Indent(indent, b));
  }

  function MiddlewareValue(server: ServerSpec): Option<string> {
    if server.middlewares == [] then None else Some(JoinNames(server.middlewares))
  }

  lemma EntryKeys()
    ensures EntryKey("prefix") && EntryKey("group") && EntryKey("jwt") && EntryKey("middleware")
  {
  }

  lemma MiddlewareStep(lines: seq<string>, i: nat, indent: string, server: ServerSpec, acc: ServerSpec)
    requires Margin(indent) && ApiLexical.Names(server.middlewares) && acc.middlewares == []
    requires At(lines, i, Indent(indent, OptionalEntry("middleware", MiddlewareValue(server))))
    ensures ServerBlock(lines, i, acc)
            == ServerBlock(lines, i + |OptionalEntry("middleware", MiddlewareValue(server))|,
                           acc.(middlewares := server.middlewares))
  {
    hide ServerBlock, NameList, ServerValue, EntryKey, Name, JoinNames;
    EntryKeys();
    if server.middlewares != [] {
      JoinedReads(server.middlewares);
      JoinedIsValue(server.middlewares);
      assert JoinNames(server.middlewares) != "" by { ValueNonEmpty(JoinNames(server.middlewares)); }
      MiddlewareEntry(acc, JoinNames(server.middlewares), i);
      assert [] + server.middlewares == server.middlewares;
    }
    OptionalStep(lines, i, indent, "middleware", MiddlewareValue(server), acc, acc.(middlewares := server.middlewares));
  }

  lemma MiddlewareEntry(acc: ServerSpec, value: string, at: nat)
    requires value != ""
    ensures ServerEntry(acc, "middleware", value, at) == Ok(acc.(middlewares := acc.middlewares + NameList(value)))
  {
    hide NameList;
    assert "middleware"[0] != "prefix"[0] && "middleware"[0] != "group"[0] && "middleware"[0] != "jwt"[0];
  }

  lemma ValueNonEmpty(v: string)
    requires ServerValue(v)
    ensures v != ""
  {
  }

  lemma SimpleEntries(acc: ServerSpec, value: string, at: nat)
    requires value != ""
    ensures ServerEntry(acc, "prefix", value, at) == Ok(acc.(prefix := Some(value)))
    ensures ServerEntry(acc, "group", value, at) == Ok(acc.(group := Some(value)))
    ensures ServerEntry(acc, "jwt", value, at) == Ok(acc.(jwt := Some(value)))
  {
    hide NameList;
    assert "group"[0] != "prefix"[0] && "jwt"[0] != "prefix"[0] && "jwt"[0] != "group"[0];
  }

  /** The body of a printed server block reads back as the server. */
  lemma ServerBlockReads(lines: seq<string>, i: nat, indent: string, server: ServerSpec)
    requires Margin(indent) && ServerOk(server)
             && At(lines, i, Indent(indent + Tab, ServerTexts(server)) + [indent + ")"])
    ensures ServerBlock(lines, i, NoServer) == Ok((server, i + |ServerTexts(server)| + 1))
  {
    hide ServerBlock, ServerEntry, EntryKey, ServerValue, Name, JoinNames, Clean, At, Indent, OptionalEntry;
    var inner := indent + Tab;
    var a, b, c, d := OptionalEntry("prefix", server.prefix), OptionalEntry("group", server.group),
                      OptionalEntry("jwt", server.jwt), OptionalEntry("middleware", MiddlewareValue(server));
    assert ServerTexts(server) == a + b + c + d;
    AtSplit(lines, i, Indent(inner, ServerTexts(server)), [indent + ")"]);
    IndentSplit(lines, i, inner, a + b + c, d);
    IndentSplit(lines, i, inner, a + b, c);
    IndentSplit(lines, i, inner, a, b);
    EntryKeys();
    var s1 := NoServer.(prefix := server.prefix);
    var s2 := s1.(group := server.group);
    var s3 := s2.(jwt := server.jwt);
    OptionalSets(server, i);
    OptionalStep(lines, i, inner, "prefix", server.prefix, NoServer, s1);
    OptionalSets2(server, s1, i + |a|);
    OptionalStep(lines, i + |a|, inner, "group", server.group, s1, s2);
    OptionalSets3(server, s2, i + |a| + |b|);
    OptionalStep(lines, i + |a| + |b|, inner, "jwt", server.jwt, s2, s3);
    MiddlewareStep(lines, i + |a| + |b| + |c|, inner, server, s3);
    assert s3.(middlewares := server.middlewares) == server;
    IndentCount(inner, ServerTexts(server));
    LastLine(lines, i + |ServerTexts(server)|, indent + ")");
    ServerBlockEnds(lines, i + |ServerTexts(server)|, indent, server);
  }

  lemma IndentCount(indent: string, texts: seq<string>)
    ensures |Indent(indent, texts)| == |texts|
  {
  }

  lemma LastLine(lines: seq<string>, i: nat, line: string)
    requires At(lines, i, [line])
    ensures i < |lines| && lines[i] == line
  {
    assert lines[i + 0] == [line][0];
  }

  lemma OptionalSets(server: ServerSpec, at: nat)
    requires OptionalValue(server.prefix)
    ensures if server.prefix.Some? then ServerEntry(NoServer, "prefix", server.prefix.value, at)
            == Ok(NoServer.(prefix := server.prefix))
            else NoServer.(prefix := server.prefix) == NoServer
  {
    hide ServerEntry;
    if server.prefix.Some? { SimpleEntries(NoServer, server.prefix.value, at); }
  }

  lemma OptionalSets2(server: ServerSpec, acc: ServerSpec, at: nat)
    requires OptionalValue(server.group) && acc.group.None?
    ensures if server.group.Some? then ServerEntry(acc, "group", server.group.value, at)
            == Ok(acc.(group := server.group))
            else acc.(group := server.group) == acc
  {
    hide ServerEntry;
    if server.group.Some? { SimpleEntries(acc, server.group.value, at); }
  }

  lemma OptionalSets3(server: ServerSpec, acc: ServerSpec, at: nat)
    requires OptionalValue(server.jwt) && acc.jwt.None?
    ensures if server.jwt.Some? then ServerEntry(acc, "jwt", server.jwt.value, at) == Ok(acc.(jwt := server.jwt))
            else acc.(jwt := server.jwt) == acc
  {
    hide ServerEntry;
    if server.jwt.Some? { SimpleEntries(acc, server.jwt.value, at); }
  }

  lemma ServerBlockEnds(lines: seq<string>, i: nat, indent: string, acc: ServerSpec)
    requires Margin(indent) && i < |lines| && lines[i] == indent + ")"
    ensures ServerBlock(lines, i, acc) == Ok((acc, i + 1))
  {
    hide Clean;
    FixedClean(indent, ")");
  }

  /** The opening line of a server block. */
  lemma ServerOpens(indent: string)
    requires Margin(indent)
    ensures Clean(indent + "@server (") == "@server (" && IsBlockStart("@server (", "@server")
  {
    FixedClean(indent, "@server (");
    hide Clean;
    assert "@server (" == "@server" + " (";
    PrefixOfConcat("@server", " (");
    TrimAround(" ", "(", []);
    assert " " + "(" == " (";
  }

  // --------------------------------------------------------------- service blocks

  lemma ItemStep(lines: seq<string>, i: nat, st: Service, text: string, next: Service)
    requires i < |lines| && lines[i] == Tab + text && ItemLine(text) && ServiceLine(st, text, i) == Ok(next)
    ensures ServiceBlock(lines, i, st) == ServiceBlock(lines, i + 1, next)
  {
    hide Clean, ServiceLine, IsBlockStart, Core;
    CleanCore(Tab, text);
  }

  ghost predicate AnnotationNames(names: seq<string>) {
    forall k | 0 <= k < |names| :: AnnotationName(names[k])
  }

  /** Nothing is pending. */
  predicate Settled(st: Service) {
    st.handler.None? && st.doc.None? && !st.websocket && !st.maud && st.middlewares == [] && st.permissions == []
  }

  lemma {:induction false} MiddlewaresRead(lines: seq<string>, i: nat, names: seq<string>, k: nat, st: Service)
    requires AnnotationNames(names) && k <= |names| && At(lines, i, Indent(Tab, Prefixed("@middleware ", names)))
    requires st.middlewares == names[..k]
    ensures ServiceBlock(lines, i + k, st) == ServiceBlock(lines, i + |names|, st.(middlewares := names))
    decreases |names| - k
  {
    hide ServiceBlock, ServiceLine, AnnotationName, ItemLine;
    if k == |names| {
      assert names[..k] == names;
      assert st.(middlewares := names) == st;
    } else {
      var text := "@middleware " + names[k];
      assert Indent(Tab, Prefixed("@middleware ", names))[k] == Tab + text;
      MiddlewareReads(st, names[k], i + k);
      NameArg(names[k]);
      AnnotationItem("@middleware ", names[k]);
      var next := st.(middlewares := st.middlewares + [names[k]]);
      ItemStep(lines, i + k, st, text, next);
      assert names[..k] + [names[k]] == names[..k + 1];
      MiddlewaresRead(lines, i, names, k + 1, next);
    }
  }

  lemma NameArg(n: string)
    requires AnnotationName(n)
    ensures Core(n) && n != ""
  {
    NameIsTrimmed(n);
  }

  lemma {:induction false} PermissionsRead(lines: seq<string>, i: nat, names: seq<string>, k: nat, st: Service)
    requires AnnotationNames(names) && k <= |names| && At(lines, i, Indent(Tab, Prefixed("@permission ", names)))
    requires st.permissions == names[..k]
    ensures ServiceBlock(lines, i + k, st) == ServiceBlock(lines, i + |names|, st.(permissions := names))
    decreases |names| - k
  {
    hide ServiceBlock, ServiceLine, AnnotationName, ItemLine;
    if k == |names| {
      assert names[..k] == names;
      assert st.(permissions := names) == st;
    } else {
      var text := "@permission " + names[k];
      assert Indent(Tab, Prefixed("@permission ", names))[k] == Tab + text;
      PermissionReads(st, names[k], i + k);
      NameArg(names[k]);
      AnnotationItem("@permission ", names[k]);
      var next := st.(permissions := st.permissions + [names[k]]);
      ItemStep(lines, i + k, st, text, next);
      assert names[..k] + [names[k]] == names[..k + 1];
      PermissionsRead(lines, i, names, k + 1, next);
    }
  }

  function OneIf(wanted: bool, text: string): seq<string> {
    if wanted then [text] else []
  }

  /** A line that is there only if `wanted`. */
  lemma OneIfStep(lines: seq<string>, i: nat, wanted: bool, text: string, st: Service, next: Service)
    requires At(lines, i, Indent(Tab, OneIf(wanted, text)))
    requires if wanted then ItemLine(text) && ServiceLine(st, text, i) == Ok(next) else next == st
    ensures ServiceBlock(lines, i, st) == ServiceBlock(lines, i + |OneIf(wanted, text)|, next)
  {
    hide ServiceBlock, ServiceLine, ItemLine;
    if wanted {
      assert Indent(Tab, [text])[0] == Tab + text;
      ItemStep(lines, i, st, text, next);
    }
  }

  ghost predicate RouteOk(route: RestRoute) {
    && RouteTexted(route)
    && (route.doc.Some? ==> Doc(route.doc.value))
    && (route.handler.Some? ==> Handler(route.handler.value))
    && AnnotationNames(route.middlewares) && AnnotationNames(route.permissions)
    && (route.server.Some? ==> ServerOk(route.server.value))
    && !(route.websocket && route.maud) && (route.websocket ==> route.method_.Get?)
  }

  lemma DocStep(lines: seq<string>, i: nat, doc: Option<string>, st: Service)
    requires (doc.Some? ==> Doc(doc.value)) && st.doc.None?
    requires At(lines, i, Indent(Tab, OneIf(doc.Some?, if doc.Some? then DocText(doc.value) else "")))
    ensures ServiceBlock(lines, i, st) == ServiceBlock(lines, i + (if doc.Some? then 1 else 0), st.(doc := doc))
  {
    hide ServiceBlock, ServiceLine, ItemLine;
    if doc.Some? {
      DocItem(doc.value);
      DocReads(st, doc.value, i);
      OneIfStep(lines, i, true, DocText(doc.value), st, st.(doc := doc));
    }
  }

  lemma HandlerStep(lines: seq<string>, i: nat, handler: Option<string>, st: Service)
    requires (handler.Some? ==> Handler(handler.value)) && st.handler.None?
    requires At(lines, i, Indent(Tab, OneIf(handler.Some?, if handler.Some? then "@handler " + handler.value else "")))
    ensures ServiceBlock(lines, i, st) == ServiceBlock(lines, i + (if handler.Some? then 1 else 0),
                                                       st.(handler := handler))
  {
    hide ServiceBlock, ServiceLine, ItemLine;
    if handler.Some? {
      AnnotationItem("@handler ", handler.value);
      HandlerReads(st, handler.value, i);
      OneIfStep(lines, i, true, "@handler " + handler.value, st, st.(handler := handler));
    }
  }

  lemma FlagSteps(lines: seq<string>, i: nat, websocket: bool, maud: bool, st: Service)
    requires !st.websocket && !st.maud
    requires At(lines, i, Indent(Tab, OneIf(websocket, "@websocket") + OneIf(maud, "@maud")))
    ensures ServiceBlock(lines, i, st)
            == ServiceBlock(lines, i + (if websocket then 1 else 0) + (if maud then 1 else 0),
                                                       st.(websocket := websocket, maud := maud))
  {
    hide ServiceBlock, ServiceLine, ItemLine;
    IndentSplit(lines, i, Tab, OneIf(websocket, "@websocket"), OneIf(maud, "@maud"));
    MarkItem("@websocket");
    MarkItem("@maud");
    WebsocketReads(st, i);
    var next := st.(websocket := websocket);
    var j := i + |OneIf(websocket, "@websocket")|;
    MaudReads(next, j);
    OneIfStep(lines, i, websocket, "@websocket", st, next);
    OneIfStep(lines, j, maud, "@maud", next, next.(maud := maud));
  }

  /** The annotations of a route, all pending, in front of its own line. */
  function Pending(st: Service, route: RestRoute): Service {
    st.(doc := route.doc, middlewares := route.middlewares, permissions := route.permissions,
        websocket := route.websocket, maud := route.maud, handler := route.handler)
  }

  function Before(route: RestRoute): seq<string> {
    OneIf(route.doc.Some?, if route.doc.Some? then DocText(route.doc.value) else "")
    + Prefixed("@middleware ", route.middlewares)
    + Prefixed("@permission ", route.permissions)
    + (OneIf(route.websocket, "@websocket") + OneIf(route.maud, "@maud"))
    + OneIf(route.handler.Some?, if route.handler.Some? then "@handler " + route.handler.value else "")
  }

  lemma RouteTextsShape(route: RestRoute)
    ensures RouteTexts(route) == Before(route) + [RouteText(route)]
  {
    hide RouteText;
  }

  lemma AnnotationsRead(lines: seq<string>, i: nat, route: RestRoute, st: Service)
    requires RouteOk(route) && Settled(st) && At(lines, i, Indent(Tab, Before(route)))
    ensures ServiceBlock(lines, i, st) == ServiceBlock(lines, i + |Before(route)|, Pending(st, route))
  {
    hide ServiceBlock, Doc, Handler, AnnotationNames, ServerOk, RouteTexted, At;
    var a := OneIf(route.doc.Some?, if route.doc.Some? then DocText(route.doc.value) else "");
    var b := Prefixed("@middleware ", route.middlewares);
    var c := Prefixed("@permission ", route.permissions);
    var d := OneIf(route.websocket, "@websocket") + OneIf(route.maud, "@maud");
    var e := OneIf(route.handler.Some?, if route.handler.Some? then "@handler " + route.handler.value else "");
    IndentSplit(lines, i, Tab, a + b + c + d, e);
    IndentSplit(lines, i, Tab, a + b + c, d);
    IndentSplit(lines, i, Tab, a + b, c);
    IndentSplit(lines, i, Tab, a, b);
    var s1 := st.(doc := route.doc);
    var s2 := s1.(middlewares := route.middlewares);
    var s3 := s2.(permissions := route.permissions);
    var s4 := s3.(websocket := route.websocket, maud := route.maud);
    DocStep(lines, i, route.doc, st);
    MiddlewaresRead(lines, i + |a|, route.middlewares, 0, s1);
    PermissionsRead(lines, i + |a| + |b|, route.permissions, 0, s2);
    FlagSteps(lines, i + |a| + |b| + |c|, route.websocket, route.maud, s3);
    HandlerStep(lines, i + |a| + |b| + |c| + |d|, route.handler, s4);
  }

  /** A printed route, without its server block, adds itself under the server in force. */
  lemma RouteReads(lines: seq<string>, i: nat, route: RestRoute, st: Service)
    requires RouteOk(route) && Settled(st) && At(lines, i, Indent(Tab, RouteTexts(route)))
    ensures ServiceBlock(lines, i, st) ==
              ServiceBlock(lines, i + |RouteTexts(route)|, st.(routes := st.routes + [route.(server := st.current)]))
  {
    hide ServiceBlock, RouteTexted, ServiceLine, ItemLine, At, Indent, RouteTexts, Before, RouteText, ServerOk, Doc,
         Handler, AnnotationNames;
    RouteTextsShape(route);
    IndentSplit(lines, i, Tab, Before(route), [RouteText(route)]);
    AnnotationsRead(lines, i, route, st);
    var j, pending := i + |Before(route)|, Pending(st, route);
    RouteItemReads(pending, route, j);
    RouteCore(route);
    OneLine(lines, j, RouteText(route));
    var next := st.(routes := st.routes + [route.(server := st.current)]);
    assert Annotated(BareRoute(route), pending) == route.(server := st.current);
    ItemStep(lines, j, pending, RouteText(route), next);
  }

  lemma OneLine(lines: seq<string>, i: nat, text: string)
    requires At(lines, i, Indent(Tab, [text]))
    ensures i < |lines| && lines[i] == Tab + text
  {
    assert lines[i + 0] == Indent(Tab, [text])[0];
  }

  /** A server block in front of a route comes into force. */
  lemma RouteServerReads(lines: seq<string>, i: nat, server: ServerSpec, st: Service)
    requires ServerOk(server) && At(lines, i, ServerLines(server, Tab))
    ensures ServiceBlock(lines, i, st) == ServiceBlock(lines, i + |ServerLines(server, Tab)|, WithServer(st, server))
  {
    hide Clean, ServerBlock, ServerOk, ServerTexts, IsBlockStart;
    var body := Indent(Tab + Tab, ServerTexts(server)) + [Tab + ")"];
    assert ServerLines(server, Tab) == [Tab + "@server ("] + body;
    AtSplit(lines, i, [Tab + "@server ("], body);
    assert lines[i + 0] == [Tab + "@server ("][0];
    ServerOpens(Tab);
    ServerBlockReads(lines, i + 1, Tab, server);
  }
}
