/** What a context carries across a call, as headers and back (context.rs). */
module Propagation {
  import opened Prelude
  import opened Names
  import opened Numbers
  import opened Text
  import opened RequestContext

  const REQUEST_ID_HEADER := "x-request-id"
  const TRACE_ID_HEADER := "x-trace-id"
  const TIMEOUT_HEADER := "x-roze-timeout-ms"
  const RETRY_BUDGET_HEADER := "x-roze-retry-budget-remaining"
  const IDEMPOTENCY_KEY_HEADER := "idempotency-key"
  const SUBJECT_HEADER := "x-roze-subject"
  const TENANT_HEADER := "x-roze-tenant"
  const ROLES_HEADER := "x-roze-roles"
  const METADATA_HEADER_PREFIX := "x-roze-meta-"
  const IDEMPOTENCY_KEY_METADATA_KEY := "idempotency_key"

  type Headers = map<string, string>

  /** The part of a context that travels. */
  datatype Carried = Carried(
    requestId: string,
    traceId: string,
    auth: Option<AuthContext>,
    metadata: map<string, string>,
    budget: Option<nat>)

  datatype HeaderAliases = HeaderAliases(
    requestId: seq<string>,
    traceId: seq<string>,
    subject: seq<string>,
    tenant: seq<string>,
    roles: seq<string>,
    metadata: seq<(string, string)>)

  const HulaAliases := HeaderAliases(
    ["x-hula-request-id"], ["x-hula-trace-id"], ["x-hula-uid"], ["x-hula-tenant-id"], ["x-hula-role"],
    [("uid", "x-hula-uid"), ("device_id", "x-hula-device-id"), ("scope", "x-hula-scope")])

  // --------------------------------------------------------------- text

  /** `to_ascii_lowercase`. */
  function Lower(s: string): (r: string)
    ensures |r| == |s| && forall i | 0 <= i < |s| :: r[i] == LowerChar(s[i])
  {
    seq(|s|, i requires 0 <= i < |s| => LowerChar(s[i]))
  }

  function JoinComma(parts: seq<string>): string {
    if parts == [] then "" else if |parts| == 1 then parts[0] else parts[0] + "," + JoinComma(parts[1..])
  }

  /** The trimmed parts that are not empty. */
  function Kept(parts: seq<string>): seq<string> {
    if parts == [] then []
    else (if Trim(parts[0]) == "" then [] else [Trim(parts[0])]) + Kept(parts[1..])
  }

  /** `parse::<usize>`: an optional plus sign, at least one digit, and no overflow. */
  function ParseUsize(s: string): Option<nat> {
    var digits := if s != "" && s[0] == '+' then s[1..] else s;
    if digits == "" || !Digits(digits) || NumberOf(digits) > USIZE_MAX then None else Some(NumberOf(digits))
  }

  // --------------------------------------------------------------- reading headers

  function Spellings(headers: Headers, key: string): set<string> {
    set k | k in headers && Lower(k) == Lower(key)
  }

  /** `header_value`: among the spellings of a name, the first in key order. */
  function HeaderValue(headers: Headers, key: string): Option<string> {
    var keys := Spellings(headers, key);
    if keys == {} then None else Some(headers[Least(keys)])
  }

  function FirstAlias(headers: Headers, aliases: seq<string>): Option<string> {
    if aliases == [] then None
    else if HeaderValue(headers, aliases[0]).Some? then HeaderValue(headers, aliases[0])
    else FirstAlias(headers, aliases[1..])
  }

  function AliasedValue(headers: Headers, key: string, aliases: seq<string>): Option<string> {
    if HeaderValue(headers, key).Some? then HeaderValue(headers, key) else FirstAlias(headers, aliases)
  }

  function NotEmpty(value: Option<string>): Option<string> {
    if value == Some("") then None else value
  }

  function BudgetOf(headers: Headers): Option<nat> {
    match HeaderValue(headers, RETRY_BUDGET_HEADER)
    case None => None
    case Some(text) =>
      match ParseUsize(text)
      case None => None
      case Some(n) => Some(Capped(n))
  }

  function AuthOf(headers: Headers, aliases: HeaderAliases): Option<AuthContext> {
    match NotEmpty(AliasedValue(headers, SUBJECT_HEADER, aliases.subject))
    case None => None
    case Some(subject) =>
      var roles := AliasedValue(headers, ROLES_HEADER, aliases.roles);
      Some(AuthContext(subject,
                       if roles.None? then [] else Kept(Split(roles.value, ',')),
                       NotEmpty(AliasedValue(headers, TENANT_HEADER, aliases.tenant))))
  }

  /** The metadata entries among the named headers; of two spellings of a key the later one counts. */
  function Gather(headers: Headers, names: seq<string>): map<string, string>
    requires forall k | k in names :: k in headers
  {
    if names == [] then map[] else
      var k := names[|names| - 1];
      var rest := Gather(headers, names[..|names| - 1]);
      match StripPrefix(Lower(k), METADATA_HEADER_PREFIX)
      case None => rest
      case Some(key) => rest[key := headers[k]]
  }

  function WithAlias(headers: Headers, metadata: map<string, string>, key: string, header: string): map<string,
      string> {
    var value := NotEmpty(HeaderValue(headers, header));
    if key in metadata || value.None? then metadata else metadata[key := value.value]
  }

  function WithAliases(headers: Headers, aliases: seq<(string, string)>, metadata: map<string, string>): map<string,
      string> {
    if aliases == [] then metadata
    else WithAliases(headers, aliases[1..], WithAlias(headers, metadata, aliases[0].0, aliases[0].1))
  }

  function MetadataOf(headers: Headers, aliases: HeaderAliases): map<string, string> {
    WithAlias(headers, WithAliases(headers, aliases.metadata, Gather(headers, Sorted(headers.Keys))),
              IDEMPOTENCY_KEY_METADATA_KEY, IDEMPOTENCY_KEY_HEADER)
  }

  /** `from_propagation_headers_with_aliases`; `generated` is the identifier made when none came in. */
  function FromHeaders(headers: Headers, aliases: HeaderAliases, generated: string): Carried {
    var requestId := NotEmpty(AliasedValue(headers, REQUEST_ID_HEADER, aliases.requestId));
    var traceId := NotEmpty(AliasedValue(headers, TRACE_ID_HEADER, aliases.traceId));
    var id := if requestId.Some? then requestId.value else generated;
    Carried(id, if traceId.Some? then traceId.value else id, AuthOf(headers, aliases), MetadataOf(headers, aliases),
            BudgetOf(headers))
  }

  // --------------------------------------------------------------- writing headers

  function OneHeader(name: string, value: Option<string>): Headers {
    if value.Some? then map[name := value.value] else map[]
  }

  function SubjectOf(c: Carried): Option<string> {
    if c.auth.Some? then Some(c.auth.value.subject) else None
  }

  function TenantOf(c: Carried): Option<string> {
    if c.auth.Some? then c.auth.value.tenant else None
  }

  function RolesText(c: Carried): Option<string> {
    if c.auth.Some? && c.auth.value.roles != [] then Some(JoinComma(c.auth.value.roles)) else None
  }

  function IdempotencyKey(metadata: map<string, string>): Option<string> {
    if IDEMPOTENCY_KEY_METADATA_KEY in metadata then Some(metadata[IDEMPOTENCY_KEY_METADATA_KEY]) else None
  }

  function BudgetText(budget: Option<nat>): Option<string> {
    if budget.Some? then Some(Decimal(budget.value)) else None
  }

  /** The headers other than metadata; `timeout` is the text of the remaining time, if any. */
  function FixedHeaders(c: Carried, timeout: Option<string>): Headers {
    map[REQUEST_ID_HEADER := c.requestId, TRACE_ID_HEADER := c.traceId]
    + OneHeader(TIMEOUT_HEADER, timeout)
    + OneHeader(RETRY_BUDGET_HEADER, BudgetText(c.budget))
    + OneHeader(SUBJECT_HEADER, SubjectOf(c))
    + OneHeader(TENANT_HEADER, TenantOf(c))
    + OneHeader(ROLES_HEADER, RolesText(c))
    + OneHeader(IDEMPOTENCY_KEY_HEADER, IdempotencyKey(c.metadata))
  }

  lemma PrefixInjective(a: string, b: string)
    requires METADATA_HEADER_PREFIX + a == METADATA_HEADER_PREFIX + b
    ensures a == b
  {
    assert a == (METADATA_HEADER_PREFIX + a)[12..];
    assert b == (METADATA_HEADER_PREFIX + b)[12..];
  }

  function MetadataHeaders(metadata: map<string, string>): Headers {
    assert forall a, b | a in metadata && b in metadata && METADATA_HEADER_PREFIX + a == METADATA_HEADER_PREFIX + b ::
           a == b by {
      forall a, b | a in metadata && b in metadata && METADATA_HEADER_PREFIX + a
             == METADATA_HEADER_PREFIX + b ensures a == b {
        PrefixInjective(a, b);
      }
    }
    map k | k in metadata :: METADATA_HEADER_PREFIX + k := metadata[k]
  }

  /** `propagation_headers`. */
  function ToHeaders(c: Carried, timeout: Option<string>): Headers {
    FixedHeaders(c, timeout) + MetadataHeaders(c.metadata)
  }

  // --------------------------------------------------------------- the loops that fill a map

  /** Insertion of a header, if there is one. */
  method Insert(headers: Headers, name: string, value: Option<string>) returns (r: Headers)
    ensures r == headers + OneHeader(name, value)
  {
    r := headers;
    if value.Some? {
      r := r[name := value.value];
    }
  }

  method InsertAuth(headers: Headers, c: Carried) returns (r: Headers)
    ensures r == headers + OneHeader(SUBJECT_HEADER, SubjectOf(c)) + OneHeader(TENANT_HEADER, TenantOf(c))
            + OneHeader(ROLES_HEADER, RolesText(c))
  {
    hide JoinComma;
    r := headers;
    if c.auth.Some? {
      r := Insert(r, SUBJECT_HEADER, Some(c.auth.value.subject));
      r := Insert(r, TENANT_HEADER, c.auth.value.tenant);
      r := Insert(r, ROLES_HEADER, if c.auth.value.roles == [] then None else Some(JoinComma(c.auth.value.roles)));
    }
  }

  method PropagationHeaders(c: Carried, timeout: Option<string>) returns (headers: Headers)
    ensures headers == ToHeaders(c, timeout)
  {
    hide OneHeader, SubjectOf, TenantOf, RolesText, IdempotencyKey, BudgetText, MetadataHeaders;
    headers := map[REQUEST_ID_HEADER := c.requestId];
    headers := headers[TRACE_ID_HEADER := c.traceId];
    headers := Insert(headers, TIMEOUT_HEADER, timeout);
    headers := Insert(headers, RETRY_BUDGET_HEADER, BudgetText(c.budget));
    headers := InsertAuth(headers, c);
    headers := Insert(headers, IDEMPOTENCY_KEY_HEADER, IdempotencyKey(c.metadata));
    headers := AddMetadata(headers, c.metadata);
  }

  method AddMetadata(base: Headers, metadata: map<string, string>) returns (headers: Headers)
    ensures headers == base + MetadataHeaders(metadata)
  {
    hide MetadataHeaders, Sorted;
    headers := base;
    NoMetadata(base);
    var names := Sorted(metadata.Keys);
    ghost var done: map<string, string> := map[];
    for i := 0 to |names|
      invariant done.Keys == Elements(names[..i]) && done.Keys <= metadata.Keys
      invariant forall k | k in done :: done[k] == metadata[k]
      invariant headers == base + MetadataHeaders(done)
    {
      assert names[i] in Elements(names);
      assert names[..i + 1] == names[..i] + [names[i]];
      OneMore(base, done, names[i], metadata[names[i]]);
      done := done[names[i] := metadata[names[i]]];
      headers := headers[METADATA_HEADER_PREFIX + names[i] := metadata[names[i]]];
    }
    assert names[..|names|] == names;
    assert done == metadata;
  }

  lemma NoMetadata(base: Headers)
    ensures base + MetadataHeaders(map[]) == base
  {
  }

  lemma OneMore(base: Headers, done: map<string, string>, key: string, value: string)
    ensures (base + MetadataHeaders(done))[METADATA_HEADER_PREFIX + key := value]
            == base + MetadataHeaders(done[key := value])
  {
    hide MetadataHeaders;
    OneMoreEntry(done, key, value);
  }

  lemma OneMoreEntry(done: map<string, string>, key: string, value: string)
    ensures MetadataHeaders(done[key := value]) == MetadataHeaders(done)[METADATA_HEADER_PREFIX + key := value]
  {
    hide MetadataHeaders;
    var a, b := MetadataHeaders(done), MetadataHeaders(done[key := value]);
    var name := METADATA_HEADER_PREFIX + key;
    assert name[12..] == key;
    forall k ensures (k in b <==> k in a[name := value]) && (k in b ==> b[k] == a[name := value][k]) {
      MetadataHeadersAt(done, k);
      MetadataHeadersAt(done[key := value], k);
      if METADATA_HEADER_PREFIX <= k { assert k == METADATA_HEADER_PREFIX + k[12..]; }
    }
  }

  /** A metadata header is the prefixed key of one entry, with its value. */
  lemma MetadataHeadersAt(metadata: map<string, string>, name: string)
    ensures name in MetadataHeaders(metadata) <==>
              METADATA_HEADER_PREFIX <= name && name[12..] in metadata
    ensures name in MetadataHeaders(metadata) ==> MetadataHeaders(metadata)[name] == metadata[name[12..]]
  {
    if METADATA_HEADER_PREFIX <= name && name[12..] in metadata {
      assert name == METADATA_HEADER_PREFIX + name[12..];
    }
    if name in MetadataHeaders(metadata) {
      var k :| k in metadata && name == METADATA_HEADER_PREFIX + k;
      assert name[12..] == k;
    }
  }

  method GatherMetadata(headers: Headers) returns (metadata: map<string, string>)
    ensures (forall k | k in Sorted(headers.Keys) :: k in headers) && metadata == Gather(headers, Sorted(headers.Keys))
  {
    hide StripPrefix, Sorted, Lower;
    var names := Sorted(headers.Keys);
    forall k | k in names ensures k in headers {
      assert k in Elements(names);
    }
    metadata := map[];
    for i := 0 to |names|
      invariant metadata == Gather(headers, names[..i])
    {
      assert names[..i + 1][..i] == names[..i];
      var key := StripPrefix(Lower(names[i]), METADATA_HEADER_PREFIX);
      if key.Some? {
        metadata := metadata[key.value := headers[names[i]]];
      }
    }
    assert names[..|names|] == names;
  }

  method AddAlias(headers: Headers, metadata: map<string, string>, key: string, header: string)
    returns (r: map<string, string>)
    ensures r == WithAlias(headers, metadata, key, header)
  {
    hide HeaderValue;
    r := metadata;
    if key !in metadata {
      var value := NotEmpty(HeaderValue(headers, header));
      if value.Some? {
        r := r[key := value.value];
      }
    }
  }

  method MetadataFromHeaders(headers: Headers, aliases: HeaderAliases) returns (metadata: map<string, string>)
    ensures metadata == MetadataOf(headers, aliases)
  {
    hide WithAlias, Gather, Sorted;
    metadata := GatherMetadata(headers);
    ghost var gathered := metadata;
    for i := 0 to |aliases.metadata|
      invariant WithAliases(headers, aliases.metadata[i..], metadata) == WithAliases(headers, aliases.metadata,
          gathered)
    {
      assert aliases.metadata[i..][0] == aliases.metadata[i] && aliases.metadata[i..][1..] == aliases.metadata[i + 1..];
      metadata := AddAlias(headers, metadata, aliases.metadata[i].0, aliases.metadata[i].1);
    }
    metadata := AddAlias(headers, metadata, IDEMPOTENCY_KEY_METADATA_KEY, IDEMPOTENCY_KEY_HEADER);
  }
}
