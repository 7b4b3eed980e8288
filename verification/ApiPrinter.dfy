/** The canonical text of an `.api` contract (main.rs, `format_api_spec`). */
module ApiPrinter {
  import opened Prelude
  import opened ApiSpec

  function Unlines(lines: seq<string>): string {
    if lines == [] then "" else lines[0] + "\n" + Unlines(lines[1..])
  }

  const Tab := "    "

  function JoinNames(names: seq<string>): string {
    if names == [] then ""
    else if |names| == 1 then names[0]
    else names[0] + ", " + JoinNames(names[1..])
  }

  // --------------------------------------------------------------- the text of each line

  function InfoText(pair: InfoPair): string {
    pair.key + ": \"" + pair.value + "\""
  }

  function EntryText(key: string, value: string): string {
    key + ": " + value
  }

  function MethodText(m: HttpMethod): string {
    match m
    case Get => "get"
    case Head => "head"
    case Post => "post"
    case Put => "put"
    case Patch => "patch"
    case Delete => "delete"
  }

  function SignatureText(request: string, response: string): string {
    "(" + request + ") returns (" + response + ")"
  }

  function RouteText(route: RestRoute): string {
    MethodText(route.method_) + " " + route.path + " " + SignatureText(route.request, route.response)
  }

  function RpcText(m: RpcMethod): string {
    "rpc " + m.name + " " + SignatureText(m.request, m.response)
  }

  function WireName(field: Field): string {
    if field.wireName.Some? then field.wireName.value
    else if field.jsonName.Some? then field.jsonName.value
    else field.name
  }

  function TagName(source: FieldSource): string {
    match source
    case Auto => ""
    case Json => "json"
    case Query => "query"
    case Form => "form"
    case Path => "path"
    case Header => "header"
  }

  function TagText(name: string, value: string): string {
    name + ":\"" + value + "\""
  }

  /** The tags of a field, with the space in front, or nothing. */
  function TagsText(field: Field): string {
    match (field.source, field.validate)
    case (Auto, None) => ""
    case (Auto, Some(v)) => " `" + TagText("validate", v) + "`"
    case (_, None) => " `" + TagText(TagName(field.source), WireName(field)) + "`"
    case (_, Some(v)) => " `" + TagText(TagName(field.source), WireName(field)) + " " + TagText("validate", v) + "`"
  }

  function FieldText(field: Field): string {
    (if field.embedded then field.ty else field.name + " " + field.ty) + TagsText(field)
  }

  // --------------------------------------------------------------- the lines

  function Indent(indent: string, texts: seq<string>): seq<string> {
    seq(|texts|, i requires 0 <= i < |texts| => indent + texts[i])
  }

  function InfoTexts(info: seq<InfoPair>): seq<string> {
    seq(|info|, i requires 0 <= i < |info| => InfoText(info[i]))
  }

  function InfoLines(info: seq<InfoPair>): seq<string> {
    if info == [] then [] else ["info ("] + Indent(Tab, InfoTexts(info)) + [")", ""]
  }

  function OptionalEntry(key: string, value: Option<string>): seq<string> {
    if value.Some? then [EntryText(key, value.value)] else []
  }

  function ServerTexts(server: ServerSpec): seq<string> {
    OptionalEntry("prefix", server.prefix) + OptionalEntry("group", server.group) + OptionalEntry("jwt", server.jwt)
    + OptionalEntry("middleware", if server.middlewares == [] then None else Some(JoinNames(server.middlewares)))
  }

  function ServerLines(server: ServerSpec, indent: string): seq<string> {
    [indent + "@server ("] + Indent(indent + Tab, ServerTexts(server)) + [indent + ")"]
  }

  function Prefixed(mark: string, names: seq<string>): seq<string> {
    seq(|names|, i requires 0 <= i < |names| => mark + names[i])
  }

  function RouteTexts(route: RestRoute): seq<string> {
    (if route.doc.Some? then ["@doc \"" + route.doc.value + "\""] else [])
    + Prefixed("@middleware ", route.middlewares)
    + Prefixed("@permission ", route.permissions)
    + (if route.websocket then ["@websocket"] else [])
    + (if route.maud then ["@maud"] else [])
    + (if route.handler.Some? then ["@handler " + route.handler.value] else [])
    + [RouteText(route)]
  }

  function RouteLines(route: RestRoute): seq<string> {
    (if route.server.Some? then ServerLines(route.server.value, Tab) else []) + Indent(Tab, RouteTexts(route))
  }

  function RpcTexts(m: RpcMethod): seq<string> {
    Prefixed("@permission ", m.permissions) + [RpcText(m)]
  }

  function RoutesLines(routes: seq<RestRoute>): seq<string> {
    if routes == [] then [] else RouteLines(routes[0]) + RoutesLines(routes[1..])
  }

  function RpcsLines(rpcs: seq<RpcMethod>): seq<string> {
    if rpcs == [] then [] else Indent(Tab, RpcTexts(rpcs[0])) + RpcsLines(rpcs[1..])
  }

  function ServiceText(name: string): string {
    "service " + name + " {"
  }

  function FieldTexts(fields: seq<Field>): seq<string> {
    seq(|fields|, i requires 0 <= i < |fields| => FieldText(fields[i]))
  }

  function TypeLines(ty: TypeDef): seq<string> {
    [Tab + (ty.name + " {")] + Indent(Tab + Tab, FieldTexts(ty.fields)) + [Tab + "}"]
  }

  function TypesLines(types: seq<TypeDef>): seq<string> {
    if types == [] then [] else TypeLines(types[0]) + TypesLines(types[1..])
  }

  predicate NoRouteServer(routes: seq<RestRoute>) {
    forall i | 0 <= i < |routes| :: routes[i].server.None?
  }

  function TopServerLines(spec: Spec): seq<string> {
    if NoRouteServer(spec.restRoutes) && spec.server.Some? then ServerLines(spec.server.value, "") + [""] else []
  }

  /** The lines before the service: syntax, info and, when no route has a server, the server. */
  function HeadLines(spec: Spec): seq<string> {
    ["syntax = \"v1\"", ""] + InfoLines(spec.info) + TopServerLines(spec)
  }

  function ServiceLines(spec: Spec): seq<string> {
    [ServiceText(spec.service)] + RoutesLines(spec.restRoutes) + RpcsLines(spec.rpcMethods) + ["}"]
  }

  function TypeBlockLines(types: seq<TypeDef>): seq<string> {
    if types == [] then [] else ["", "type ("] + TypesLines(types) + [")"]
  }

  function SpecLines(spec: Spec): seq<string> {
    HeadLines(spec) + ServiceLines(spec) + TypeBlockLines(spec.types)
  }

  /** `format_api_spec`. */
  function Format(spec: Spec): string {
    Unlines(SpecLines(spec))
  }
}
