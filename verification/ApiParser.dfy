/** The line parser of `.api` contracts (parser.rs). */
module ApiParser {
  import opened Prelude
  import opened Text
  import opened ApiSpec

  // --------------------------------------------------------------- lines and tokens

  /**
   * `source.lines()`: pieces between newlines, one carriage return before each newline dropped, no last empty piece.
   */
  function Lines(s: string): seq<string> {
    if s == [] then [] else
      var k := FindChar(s, '\n');
      if k == |s| then [s]
      else [DropReturn(s[..k])] + Lines(s[k + 1..])
  }

  function DropReturn(s: string): string {
    if s != [] && s[|s| - 1] == '\r' then s[..|s| - 1] else s
  }

  function StripComment(s: string): string {
    match Find(s, "//")
    case Some(k) => s[..k]
    case None => s
  }

  /** What the parser sees of a line. */
  function Clean(raw: string): string {
    Trim(StripComment(raw))
  }

  predicate IsSyntaxDecl(line: string) {
    FindChar(line, '=') < |line| && Trim(line[..FindChar(line, '=')]) == "syntax"
  }

  predicate IsBlockStart(line: string, name: string) {
    StripPrefix(line, name).Some? && TrimStart(StripPrefix(line, name).value) == "("
  }

  /** `splitn(2, ':')`, both parts trimmed. */
  function KeyPart(line: string): string {
    Trim(line[..FindChar(line, ':')])
  }

  function ValuePart(line: string): string {
    var k := FindChar(line, ':');
    if k == |line| then "" else TrimChar(Trim(line[k + 1..]), '"')
  }

  function TrimAnnotation(input: string): string {
    var trimmed := Trim(input);
    match StripPair(trimmed, '"', '"')
    case Some(inner) => Trim(inner)
    case None => trimmed
  }

  function AnnotationArg(line: string, name: string): Option<string> {
    match StripPrefix(line, name)
    case None => None
    case Some(after) =>
      var rest := TrimStart(after);
      if rest == "" then None
      else match StripPair(rest, '(', ')')
        case Some(inner) => Some(Trim(inner))
        case None => Some(Trim(rest))
  }

  predicate IsListBreak(c: char) {
    c == ',' || IsWhitespace(c)
  }

  /** Position of the first comma or white space, or the length. */
  function FindBreak(s: string): (k: nat)
    ensures k <= |s|
    ensures k < |s| ==> IsListBreak(s[k])
    ensures forall i | 0 <= i < k :: !IsListBreak(s[i])
  {
    if s == [] || IsListBreak(s[0]) then 0 else 1 + FindBreak(s[1..])
  }

  function NameItem(part: string): seq<string> {
    var name := TrimAnnotation(Trim(part));
    if name == "" then [] else [name]
  }

  /** `parse_name_list`. */
  function NameList(s: string): seq<string>
    decreases |s|
  {
    var k := FindBreak(s);
    if k == |s| then NameItem(s) else NameItem(s[..k]) + NameList(s[k + 1..])
  }

  /** `split_first_token`. */
  function FirstToken(input: string): Option<(string, string)> {
    var s := Trim(input);
    var k := FindSpace(s);
    if s == "" || k == |s| then None else Some((s[..k], TrimStart(s[k..])))
  }

  function SplitPath(input: string): (string, string) {
    var s := Trim(input);
    var k := Min(FindSpace(s), FindChar(s, '('));
    if k == |s| then (s, "") else (Trim(s[..k]), TrimStart(s[k..]))
  }

  function TrimParens(input: string): string {
    var trimmed := Trim(input);
    match StripPair(trimmed, '(', ')')
    case Some(inner) => Trim(inner)
    case None => trimmed
  }

  /** `parse_signature`. */
  function Signature(input: string): (string, string) {
    var s := Trim(input);
    match Find(s, "returns")
    case None => (TrimParens(s), EMPTY_RESPONSE_TYPE)
    case Some(k) => (TrimParens(s[..k]), TrimParens(s[k + 7..]))
  }

  function MethodOf(token: string): Option<HttpMethod> {
    if token == "get" then Some(Get)
    else if token == "head" then Some(Head)
    else if token == "post" then Some(Post)
    else if token == "put" then Some(Put)
    else if token == "patch" then Some(Patch)
    else if token == "delete" then Some(Delete)
    else None
  }

  /** A route line; `Ok(None)` when the line is something else. */
  function RouteLine(line: string, at: nat): Result<Option<RestRoute>, ParseError> {
    match FirstToken(line)
    case None => Ok(None)
    case Some((token, rest)) =>
      match MethodOf(token)
      case None => Ok(None)
      case Some(m) =>
        var (path, signature) := SplitPath(rest);
        if path == "" then Err(InvalidLine(at + 1, ExpectedRoutePath))
        else
          var (request, response) := Signature(signature);
          Ok(Some(RestRoute(None, None, false, false, [], [], None, m, path, request, response)))
  }

  function RpcLine(input: string, at: nat): Result<RpcMethod, ParseError> {
    match FirstToken(input)
    case None => Err(InvalidLine(at + 1, ExpectedRpc))
    case Some((name, signature)) =>
      var (request, response) := Signature(signature);
      Ok(RpcMethod(name, request, response, [], []))
  }

  // --------------------------------------------------------------- fields

  /** First white-space separated token, and what follows it. */
  function Token(s: string): string {
    var t := TrimStart(s);
    t[..FindSpace(t)]
  }

  function AfterToken(s: string): string {
    var t := TrimStart(s);
    t[FindSpace(t)..]
  }

  function TagValueFull(line: string, tag: string): Option<string> {
    var needle := tag + ":\"";
    match Find(line, needle)
    case None => None
    case Some(k) =>
      var rest := line[k + |needle|..];
      var q := FindChar(rest, '"');
      if q == |rest| || q == 0 || rest[..q] == "-" then None else Some(rest[..q])
  }

  function TagValue(line: string, tag: string): Option<string> {
    match TagValueFull(line, tag)
    case None => None
    case Some(value) =>
      var name := value[..FindChar(value, ',')];
      if name == "" || name == "-" then None else Some(name)
  }

  /** The last of the characters `.` and `/` splits off the type's own name. */
  function LastSegment(s: string): string {
    if s == [] then []
    else if s[|s| - 1] == '.' || s[|s| - 1] == '/' then []
    else LastSegment(s[..|s| - 1]) + [s[|s| - 1]]
  }

  predicate IsUpper(c: char) { 'A' <= c <= 'Z' }
  predicate IsLower(c: char) { 'a' <= c <= 'z' }
  predicate IsDigit(c: char) { '0' <= c <= '9' }

  /** The snake-case loop of `embedded_field_name`. */
  function Snake(s: string, out: string, prevLower: bool): string {
    if s == [] then out else
      var c := s[0];
      if IsUpper(c) then
        Snake(s[1..], out + (if prevLower && out != [] then "_" else "") + [LowerChar(c)], false)
      else if IsLower(c) || IsDigit(c) then Snake(s[1..], out + [c], true)
      else if out != [] && out[|out| - 1] != '_' then Snake(s[1..], out + "_", false)
      else Snake(s[1..], out, prevLower)
  }

  function EmbeddedName(ty: string): string {
    TrimChar(Snake(LastSegment(TrimStartChar(ty, '*')), "", false), '_')
  }

  /** Name and type of a field line, before its tags. */
  function FieldHead(line: string, at: nat): Result<Field, ParseError> {
    var first := Token(line);
    if first != "" && first[|first| - 1] == ':' then
      var name := KeyPart(line);
      var k := FindChar(line, ':');
      var ty := if k == |line| then "" else TrimEndChar(Token(line[k + 1..]), ',');
      if name == "" || ty == "" then Err(InvalidLine(at + 1, ExpectedColonField))
      else Ok(Field(name, ty, false, None, Auto, None, None))
    else if first == "" then Err(InvalidLine(at + 1, ExpectedField))
    else
      var ty := Token(AfterToken(line));
      if ty == "" || ty[0] == '`' then
        Ok(Field(EmbeddedName(first), TrimStartChar(first, '*'), true, None, Auto, None, None))
      else Ok(Field(first, ty, false, None, Auto, None, None))
  }

  function Tagged(field: Field, line: string, tag: string, source: FieldSource): Field {
    match TagValue(line, tag)
    case None => field
    case Some(v) => field.(jsonName := if source.Header? then field.jsonName else Some(v), source := source,
                           wireName := Some(v))
  }

  function FieldLine(line: string, at: nat): Result<Field, ParseError> {
    match FieldHead(line, at)
    case Err(e) => Err(e)
    case Ok(f0) =>
      var f1 := Tagged(f0, line, "json", Json);
      var f2 := Tagged(f1, line, "query", Query);
      var f3 := Tagged(f2, line, "form", Form);
      var f4 := Tagged(f3, line, "path", Path);
      var f5 := Tagged(f4, line, "header", Header);
      var v := TagValueFull(line, "validate");
      Ok(if v.Some? then f5.(validate := v) else f5)
  }

  // --------------------------------------------------------------- blocks

  /** A parsed block and the index of the line after it. */
  type Block<T> = Result<(T, nat), ParseError>

  ghost predicate Advances<T>(lines: seq<string>, i: nat, r: Block<T>) {
    r.Ok? ==> i <= r.value.1 <= |lines|
  }

  function InfoBlock(lines: seq<string>, i: nat, acc: seq<InfoPair>): (r: Block<seq<InfoPair>>)
    requires i <= |lines|
    ensures Advances(lines, i, r)
    decreases |lines| - i
  {
    if i == |lines| then Ok((acc, i)) else
      var line := Clean(lines[i]);
      if line == "" then InfoBlock(lines, i + 1, acc)
      else if line == ")" then Ok((acc, i + 1))
      else if KeyPart(line) == "" || ValuePart(line) == "" then Err(InvalidLine(i + 1, ExpectedInfoPair))
      else InfoBlock(lines, i + 1, acc + [InfoPair(KeyPart(line), ValuePart(line))])
  }

  function ServerEntry(server: ServerSpec, key: string, value: string, at: nat): Result<ServerSpec, ParseError> {
    if key == "" || value == "" then Err(InvalidLine(at + 1, ExpectedServerPair))
    else if key == "prefix" then Ok(server.(prefix := Some(value)))
    else if key == "group" then Ok(server.(group := Some(value)))
    else if key == "jwt" then Ok(server.(jwt := Some(value)))
    else if key == "middleware" || key == "middlewares" then
      Ok(server.(middlewares := server.middlewares + NameList(value)))
    else Err(InvalidLine(at + 1, UnsupportedServerKey))
  }

  function ServerBlock(lines: seq<string>, i: nat, acc: ServerSpec): (r: Block<ServerSpec>)
    requires i <= |lines|
    ensures Advances(lines, i, r)
    decreases |lines| - i
  {
    if i == |lines| then Ok((acc, i)) else
      var line := Clean(lines[i]);
      if line == "" then ServerBlock(lines, i + 1, acc)
      else if line == ")" then Ok((acc, i + 1))
      else match ServerEntry(acc, KeyPart(line), ValuePart(line), i)
        case Err(e) => Err(e)
        case Ok(server) => ServerBlock(lines, i + 1, server)
  }

  function FieldsBlock(lines: seq<string>, i: nat, acc: seq<Field>): (r: Block<seq<Field>>)
    requires i <= |lines|
    ensures Advances(lines, i, r)
    decreases |lines| - i
  {
    if i == |lines| then Ok((acc, i)) else
      var line := Clean(lines[i]);
      if line == "" then FieldsBlock(lines, i + 1, acc)
      else if line == "}" then Ok((acc, i + 1))
      else match FieldLine(line, i)
        case Err(e) => Err(e)
        case Ok(field) => FieldsBlock(lines, i + 1, acc + [field])
  }

  /** The name in front of an opening brace. */
  function BraceName(s: string): string {
    Trim(TrimEndChar(s, '{'))
  }

  function TypesBlock(lines: seq<string>, i: nat, acc: seq<TypeDef>): (r: Block<seq<TypeDef>>)
    requires i <= |lines|
    ensures Advances(lines, i, r)
    decreases |lines| - i
  {
    if i == |lines| then Ok((acc, i)) else
      var line := Clean(lines[i]);
      if line == "" then TypesBlock(lines, i + 1, acc)
      else if line == ")" then Ok((acc, i + 1))
      else if line[|line| - 1] != '{' then Err(InvalidLine(i + 1, ExpectedTypeInBlock))
      else match FieldsBlock(lines, i + 1, [])
        case Err(e) => Err(e)
        case Ok((fields, j)) => TypesBlock(lines, j, acc + [TypeDef(BraceName(line), fields)])
  }

  /** The parser's state inside a service block: pending annotations, servers, and what has been parsed. */
  datatype Service = Service(
    handler: Option<string>, doc: Option<string>, websocket: bool, maud: bool,
    middlewares: seq<string>, permissions: seq<string>,
    current: Option<ServerSpec>, first: Option<ServerSpec>,
    routes: seq<RestRoute>, rpcs: seq<RpcMethod>)

  function Annotated(route: RestRoute, st: Service): RestRoute {
    route.(handler := st.handler, doc := st.doc, websocket := st.websocket, maud := st.maud,
           middlewares := st.middlewares, permissions := st.permissions, server := st.current)
  }

  /** A route takes every pending annotation; the server block stays in force. */
  function WithRoute(st: Service, route: RestRoute, at: nat): Result<Service, ParseError> {
    if st.websocket && st.maud then Err(InvalidLine(at + 1, MaudAndWebsocket))
    else if st.websocket && !route.method_.Get? then Err(InvalidLine(at + 1, WebsocketNeedsGet))
    else Ok(Service(None, None, false, false, [], [], st.current, st.first, st.routes + [Annotated(route, st)],
                    st.rpcs))
  }

  /** An RPC method takes the pending middlewares and permissions. */
  function WithRpc(st: Service, input: string, at: nat): Result<Service, ParseError> {
    if st.websocket then Err(InvalidLine(at + 1, WebsocketOnRpc))
    else if st.maud then Err(InvalidLine(at + 1, MaudOnRpc))
    else match RpcLine(input, at)
      case Err(e) => Err(e)
      case Ok(m) =>
        Ok(st.(rpcs := st.rpcs + [m.(middlewares := st.middlewares, permissions := st.permissions)],
               middlewares := [], permissions := []))
  }

  /** Any line of a service block other than a server block or the closing brace. */
  function ServiceLine(st: Service, line: string, at: nat): Result<Service, ParseError> {
    if AnnotationArg(line, "@doc").Some? then
      Ok(st.(doc := Some(TrimAnnotation(AnnotationArg(line, "@doc").value))))
    else if AnnotationArg(line, "@handler").Some? then
      Ok(st.(handler := Some(TrimAnnotation(AnnotationArg(line, "@handler").value))))
    else if AnnotationArg(line, "@middleware").Some? then
      Ok(st.(middlewares := st.middlewares + NameList(AnnotationArg(line, "@middleware").value)))
    else if AnnotationArg(line, "@permission").Some? then
      Ok(st.(permissions := st.permissions + NameList(AnnotationArg(line, "@permission").value)))
    else if line == "@websocket" || line == "@websocket()" then Ok(st.(websocket := true))
    else if line == "@maud" || line == "@maud()" then Ok(st.(maud := true))
    else if StripPrefix(line, "rpc ").Some? then WithRpc(st, StripPrefix(line, "rpc ").value, at)
    else match RouteLine(line, at)
      case Err(e) => Err(e)
      case Ok(None) => Err(InvalidLine(at + 1, ExpectedServiceItem))
      case Ok(Some(route)) => WithRoute(st, route, at)
  }

  function WithServer(st: Service, server: ServerSpec): Service {
    st.(current := Some(server), first := if st.first.None? then Some(server) else st.first)
  }

  function ServiceBlock(lines: seq<string>, i: nat, st: Service): (r: Block<Service>)
    requires i <= |lines|
    ensures Advances(lines, i, r)
    decreases |lines| - i
  {
    if i == |lines| then Ok((st, i)) else
      var line := Clean(lines[i]);
      if line == "" then ServiceBlock(lines, i + 1, st)
      else if line == "}" then Ok((st, i + 1))
      else if IsBlockStart(line, "@server") then
        match ServerBlock(lines, i + 1, NoServer)
        case Err(e) => Err(e)
        case Ok((server, j)) => ServiceBlock(lines, j, WithServer(st, server))
      else match ServiceLine(st, line, i)
        case Err(e) => Err(e)
        case Ok(next) => ServiceBlock(lines, i + 1, next)
  }

  // --------------------------------------------------------------- the file

  datatype File = File(service: Option<string>, server: Option<ServerSpec>, info: seq<InfoPair>, types: seq<TypeDef>,
                       routes: seq<RestRoute>, rpcs: seq<RpcMethod>)

  const EmptyFile := File(None, None, [], [], [], [])

  function EnterService(file: File): Service {
    Service(None, None, false, false, [], [], None, None, file.routes, file.rpcs)
  }

  function LeaveService(file: File, name: string, st: Service): File {
    file.(service := Some(name), routes := st.routes, rpcs := st.rpcs,
          server := if file.server.None? && st.first.Some? then st.first else file.server)
  }

  /** A top-level line that opens no block. */
  function TopLine(file: File, line: string, at: nat): Result<File, ParseError> {
    match RouteLine(line, at)
    case Err(e) => Err(e)
    case Ok(Some(route)) => Ok(file.(routes := file.routes + [route]))
    case Ok(None) =>
      if StripPrefix(line, "rpc ").None? then Err(InvalidLine(at + 1, UnrecognizedDeclaration))
      else match RpcLine(StripPrefix(line, "rpc ").value, at)
        case Err(e) => Err(e)
        case Ok(m) => Ok(file.(rpcs := file.rpcs + [m]))
  }

  /** One top-level declaration, with the lines it takes. */
  function TopDecl(lines: seq<string>, i: nat, file: File): (r: Block<File>)
    requires i < |lines|
    ensures r.Ok? ==> i < r.value.1 <= |lines|
  {
    var line := Clean(lines[i]);
    if line == "" || IsSyntaxDecl(line) then Ok((file, i + 1))
    else if IsBlockStart(line, "info") then
      match InfoBlock(lines, i + 1, file.info)
      case Err(e) => Err(e)
      case Ok((info, j)) => Ok((file.(info := info), j))
    else if IsBlockStart(line, "@server") then
      match ServerBlock(lines, i + 1, NoServer)
      case Err(e) => Err(e)
      case Ok((server, j)) => Ok((file.(server := Some(server)), j))
    else if IsBlockStart(line, "type") then
      match TypesBlock(lines, i + 1, file.types)
      case Err(e) => Err(e)
      case Ok((types, j)) => Ok((file.(types := types), j))
    else if StripPrefix(line, "service ").Some? then
      var rest := StripPrefix(line, "service ").value;
      if line[|line| - 1] != '{' then Ok((file.(service := Some(Trim(rest))), i + 1))
      else match ServiceBlock(lines, i + 1, EnterService(file))
        case Err(e) => Err(e)
        case Ok((st, j)) => Ok((LeaveService(file, BraceName(rest), st), j))
    else if StripPrefix(line, "type ").Some? then
      var name := BraceName(StripPrefix(line, "type ").value);
      if name == "" || line[|line| - 1] != '{' then Err(InvalidLine(i + 1, ExpectedType))
      else match FieldsBlock(lines, i + 1, [])
        case Err(e) => Err(e)
        case Ok((fields, j)) => Ok((file.(types := file.types + [TypeDef(name, fields)]), j))
    else match TopLine(file, line, i)
      case Err(e) => Err(e)
      case Ok(next) => Ok((next, i + 1))
  }

  function FileFrom(lines: seq<string>, i: nat, file: File): Result<File, ParseError>
    requires i <= |lines|
    decreases |lines| - i
  {
    if i == |lines| then Ok(file) else
      match TopDecl(lines, i, file)
      case Err(e) => Err(e)
      case Ok((next, j)) => FileFrom(lines, j, next)
  }

  // --------------------------------------------------------------- empty requests and responses

  function OrEmpty(ty: string, empty: string): string {
    if Trim(ty) == "" then empty else ty
  }

  function NormalRoute(route: RestRoute): RestRoute {
    route.(request := OrEmpty(route.request, EMPTY_REQUEST_TYPE),
           response := OrEmpty(route.response, EMPTY_RESPONSE_TYPE))
  }

  function NormalRpc(m: RpcMethod): RpcMethod {
    m.(request := OrEmpty(m.request, EMPTY_REQUEST_TYPE), response := OrEmpty(m.response, EMPTY_RESPONSE_TYPE))
  }

  function NormalRoutes(routes: seq<RestRoute>): seq<RestRoute> {
    seq(|routes|, i requires 0 <= i < |routes| => NormalRoute(routes[i]))
  }

  function NormalRpcs(rpcs: seq<RpcMethod>): seq<RpcMethod> {
    seq(|rpcs|, i requires 0 <= i < |rpcs| => NormalRpc(rpcs[i]))
  }

  predicate AsksRequest(routes: seq<RestRoute>, rpcs: seq<RpcMethod>) {
    || (exists i :: 0 <= i < |routes| && routes[i].request == EMPTY_REQUEST_TYPE)
    || (exists i :: 0 <= i < |rpcs| && rpcs[i].request == EMPTY_REQUEST_TYPE)
  }

  predicate AsksResponse(routes: seq<RestRoute>, rpcs: seq<RpcMethod>) {
    || (exists i :: 0 <= i < |routes| && routes[i].response == EMPTY_RESPONSE_TYPE)
    || (exists i :: 0 <= i < |rpcs| && rpcs[i].response == EMPTY_RESPONSE_TYPE)
  }

  predicate Declares(types: seq<TypeDef>, name: string) {
    exists i :: 0 <= i < |types| && types[i].name == name
  }

  function WithType(types: seq<TypeDef>, wanted: bool, name: string): seq<TypeDef> {
    if wanted && !Declares(types, name) then types + [TypeDef(name, [])] else types
  }

  /** The types with the empty request and response declared where they are used. */
  function NormalTypes(types: seq<TypeDef>, routes: seq<RestRoute>, rpcs: seq<RpcMethod>): seq<TypeDef> {
    WithType(WithType(types, AsksRequest(routes, rpcs), EMPTY_REQUEST_TYPE), AsksResponse(routes, rpcs),
             EMPTY_RESPONSE_TYPE)
  }

  function Finished(file: File): Result<Spec, ParseError> {
    if file.service.None? then Err(MissingService) else
      var routes, rpcs := NormalRoutes(file.routes), NormalRpcs(file.rpcs);
      Ok(Spec(file.service.value, None, file.server, file.info, NormalTypes(file.types, routes, rpcs), routes, rpcs))
  }

  /** `parse_api`. */
  function Parse(source: string): Result<Spec, ParseError> {
    match FileFrom(Lines(source), 0, EmptyFile)
    case Err(e) => Err(e)
    case Ok(file) => Finished(file)
  }
}
