/** The contract model behind `.api` files (parser.rs, `ApiSpec`). */
module ApiSpec {
  import opened Prelude

  datatype ServerSpec = ServerSpec(prefix: Option<string>, group: Option<string>, middlewares: seq<string>,
                                   jwt: Option<string>)

  datatype InfoPair = InfoPair(key: string, value: string)

  datatype FieldSource = Auto | Json | Query | Form | Path | Header

  datatype Field = Field(name: string, ty: string, embedded: bool, jsonName: Option<string>, source: FieldSource,
                         wireName: Option<string>, validate: Option<string>)

  datatype TypeDef = TypeDef(name: string, fields: seq<Field>)

  datatype HttpMethod = Get | Head | Post | Put | Patch | Delete

  datatype RestRoute = RestRoute(handler: Option<string>, doc: Option<string>, websocket: bool, maud: bool,
                                 middlewares: seq<string>, permissions: seq<string>, server: Option<ServerSpec>,
                                 method_: HttpMethod, path: string, request: string, response: string)

  datatype RpcMethod = RpcMethod(name: string, request: string, response: string, middlewares: seq<string>,
                                 permissions: seq<string>)

  datatype Spec = Spec(service: string, rpcPackage: Option<string>, server: Option<ServerSpec>, info: seq<InfoPair>,
                       types: seq<TypeDef>, restRoutes: seq<RestRoute>, rpcMethods: seq<RpcMethod>)

  const EMPTY_REQUEST_TYPE := "EmptyReq"
  const EMPTY_RESPONSE_TYPE := "EmptyResp"
  const NoServer := ServerSpec(None, None, [], None)

  /** What a refused line was expected to be. */
  datatype Complaint =
    | ExpectedInfoPair
    | ExpectedServerPair
    | UnsupportedServerKey
    | ExpectedTypeInBlock
    | ExpectedType
    | ExpectedField
    | ExpectedColonField
    | ExpectedRpc
    | ExpectedRoutePath
    | WebsocketOnRpc
    | MaudOnRpc
    | MaudAndWebsocket
    | WebsocketNeedsGet
    | ExpectedServiceItem
    | UnrecognizedDeclaration

  /** Lines are numbered from 1. */
  datatype ParseError = InvalidLine(line: nat, message: Complaint) | MissingService
}
