/** Which contexts survive a trip through their headers. */
module PropagationLaws {
  import opened Prelude
  import opened Names
  import opened Numbers
  import opened Text
  import opened RequestContext
  import opened Propagation

  /** The generated header names that are not metadata. */
  ghost predicate FixedName(name: string) {
    name in {REQUEST_ID_HEADER, TRACE_ID_HEADER, TIMEOUT_HEADER, RETRY_BUDGET_HEADER, IDEMPOTENCY_KEY_HEADER,
             SUBJECT_HEADER, TENANT_HEADER,
             ROLES_HEADER}
  }

  /** A header that no context generates, in any spelling. */
  ghost predicate ForeignName(name: string) {
    !FixedName(Lower(name)) && !(METADATA_HEADER_PREFIX <= Lower(name))
  }

  ghost predicate Foreign(names: seq<string>) {
    forall i | 0 <= i < |names| :: ForeignName(names[i])
  }

  /** The aliases name headers of other systems only. */
  ghost predicate ForeignAliases(aliases: HeaderAliases) {
    && Foreign(aliases.requestId) && Foreign(aliases.traceId) && Foreign(aliases.subject) && Foreign(aliases.tenant)
    && Foreign(aliases.roles) && forall i | 0 <= i < |aliases.metadata| :: ForeignName(aliases.metadata[i].1)
  }

  ghost predicate PlainRole(role: string) {
    role != "" && Trimmed(role) && ',' !in role
  }

  ghost predicate PlainRoles(roles: seq<string>) {
    forall i | 0 <= i < |roles| :: PlainRole(roles[i])
  }

  ghost predicate PortableAuth(auth: Option<AuthContext>) {
    auth.Some? ==> auth.value.subject != "" && auth.value.tenant != Some("") && PlainRoles(auth.value.roles)
  }

  ghost predicate LowerKeys(metadata: map<string, string>) {
    forall k | k in metadata :: Lower(k) == k
  }

  ghost predicate Portable(c: Carried) {
    && c.requestId != "" && c.traceId != ""
    && PortableAuth(c.auth)
    && LowerKeys(c.metadata)
    && (c.budget.Some? ==> c.budget.value <= MAX_PROPAGATED_RETRY_BUDGET)
  }

  // --------------------------------------------------------------- names

  ghost predicate NoCapitals(s: string) {
    forall c | c in s :: !('A' <= c <= 'Z')
  }

  lemma LowerFixed(s: string)
    requires NoCapitals(s)
    ensures Lower(s) == s
  {
    forall i | 0 <= i < |s| ensures Lower(s)[i] == s[i] {
      assert s[i] in s;
    }
  }

  lemma FixedAreLower(name: string)
    requires FixedName(name)
    ensures Lower(name) == name && !(METADATA_HEADER_PREFIX <= name)
  {
    hide Lower;
    assert NoCapitals(name);
    LowerFixed(name);
    var p := METADATA_HEADER_PREFIX;
    assert p[0] == 'x' && p[2] == 'r' && p[3] == 'o' && p[7] == 'm' && |p| == 12;
    assert |name| >= 10 && (name[0] != 'x' || name[2] != 'r' || name[3] != 'o' || name[7] != 'm');
    var i := if name[0] != 'x' then 0 else if name[2] != 'r' then 2 else if name[3] != 'o' then 3 else 7;
    assert name[i] != p[i];
  }

  lemma PrefixIsLower(key: string)
    ensures METADATA_HEADER_PREFIX <= Lower(METADATA_HEADER_PREFIX + key)
    ensures Lower(METADATA_HEADER_PREFIX + key) == METADATA_HEADER_PREFIX + Lower(key)
  {
    var p := METADATA_HEADER_PREFIX;
    assert NoCapitals(p);
    LowerFixed(p);
    forall i | 0 <= i < 12 ensures Lower(p + key)[i] == p[i] {
      assert Lower(p)[i] == p[i];
    }
    assert Lower(p + key) == p + Lower(key);
  }

  function Lookup(headers: Headers, name: string): Option<string> {
    if name in headers then Some(headers[name]) else None
  }

  lemma LookupOne(headers: Headers, name: string, value: Option<string>, k: string)
    ensures Lookup(headers + OneHeader(name, value), k) == if k == name
            && value.Some? then value else Lookup(headers, k)
  {
  }

  /** The fixed header of a name, from the last one written to the first. */
  lemma FixedLookup(c: Carried, timeout: Option<string>, k: string)
    ensures Lookup(FixedHeaders(c, timeout), k) ==
              if k == IDEMPOTENCY_KEY_HEADER && IdempotencyKey(c.metadata).Some? then IdempotencyKey(c.metadata)
              else if k == ROLES_HEADER && RolesText(c).Some? then RolesText(c)
              else if k == TENANT_HEADER && TenantOf(c).Some? then TenantOf(c)
              else if k == SUBJECT_HEADER && SubjectOf(c).Some? then SubjectOf(c)
              else if k == RETRY_BUDGET_HEADER && BudgetText(c.budget).Some? then BudgetText(c.budget)
              else if k == TIMEOUT_HEADER && timeout.Some? then timeout
              else if k == TRACE_ID_HEADER then Some(c.traceId)
              else if k == REQUEST_ID_HEADER then Some(c.requestId)
              else None
  {
    hide OneHeader, SubjectOf, TenantOf, RolesText, IdempotencyKey, BudgetText;
    var h0: Headers := map[REQUEST_ID_HEADER := c.requestId, TRACE_ID_HEADER := c.traceId];
    var h1 := h0 + OneHeader(TIMEOUT_HEADER, timeout);
    var h2 := h1 + OneHeader(RETRY_BUDGET_HEADER, BudgetText(c.budget));
    var h3 := h2 + OneHeader(SUBJECT_HEADER, SubjectOf(c));
    var h4 := h3 + OneHeader(TENANT_HEADER, TenantOf(c));
    var h5 := h4 + OneHeader(ROLES_HEADER, RolesText(c));
    LookupOne(h0, TIMEOUT_HEADER, timeout, k);
    LookupOne(h1, RETRY_BUDGET_HEADER, BudgetText(c.budget), k);
    LookupOne(h2, SUBJECT_HEADER, SubjectOf(c), k);
    LookupOne(h3, TENANT_HEADER, TenantOf(c), k);
    LookupOne(h4, ROLES_HEADER, RolesText(c), k);
    LookupOne(h5, IDEMPOTENCY_KEY_HEADER, IdempotencyKey(c.metadata), k);
    assert Lookup(h0, k) == if k == TRACE_ID_HEADER then Some(c.traceId) else if k
           == REQUEST_ID_HEADER then Some(c.requestId) else None;
  }

  /** Every generated header is a fixed name or a prefixed metadata key. */
  lemma GeneratedNames(c: Carried, timeout: Option<string>, name: string)
    requires name in ToHeaders(c, timeout)
    ensures FixedName(name) || (METADATA_HEADER_PREFIX <= name && name[12..] in c.metadata)
  {
    hide MetadataHeaders, FixedHeaders, SubjectOf, TenantOf, RolesText, IdempotencyKey, BudgetText;
    MetadataHeadersAt(c.metadata, name);
    FixedLookup(c, timeout, name);
  }

  /** A fixed name is spelled one way only. */
  lemma FixedSpelling(c: Carried, timeout: Option<string>, name: string, k: string)
    requires FixedName(name) && k in ToHeaders(c, timeout) && Lower(k) == Lower(name)
    ensures k == name
  {
    hide ToHeaders, Lower, FixedName;
    GeneratedNames(c, timeout, k);
    FixedAreLower(name);
    if FixedName(k) {
      FixedAreLower(k);
    } else {
      assert k == METADATA_HEADER_PREFIX + k[12..];
      PrefixIsLower(k[12..]);
    }
  }

  lemma FixedValue(c: Carried, timeout: Option<string>, name: string)
    requires FixedName(name)
    ensures HeaderValue(ToHeaders(c, timeout), name) == Lookup(FixedHeaders(c, timeout), name)
  {
    hide ToHeaders, Lower, FixedName, FixedHeaders;
    var headers := ToHeaders(c, timeout);
    forall k | k in Spellings(headers, name) ensures k == name {
      FixedSpelling(c, timeout, name, k);
    }
    NotMetadata(c, timeout, name);
    if name in headers {
      assert Spellings(headers, name) == {name};
    } else {
      assert Spellings(headers, name) == {};
    }
  }

  lemma NotMetadata(c: Carried, timeout: Option<string>, name: string)
    requires FixedName(name)
    ensures Lookup(ToHeaders(c, timeout), name) == Lookup(FixedHeaders(c, timeout), name)
  {
    hide FixedHeaders, MetadataHeaders, Lower, FixedName;
    FixedAreLower(name);
    MetadataHeadersAt(c.metadata, name);
  }

  lemma ForeignValue(c: Carried, timeout: Option<string>, name: string)
    requires ForeignName(name)
    ensures HeaderValue(ToHeaders(c, timeout), name) == None
  {
    hide ToHeaders, Lower, FixedName;
    forall k | k in ToHeaders(c, timeout) ensures Lower(k) != Lower(name) {
      GeneratedNames(c, timeout, k);
      if FixedName(k) {
        FixedAreLower(k);
      } else {
        assert k == METADATA_HEADER_PREFIX + k[12..];
        PrefixIsLower(k[12..]);
      }
    }
    assert Spellings(ToHeaders(c, timeout), name) == {};
  }

  lemma {:induction false} ForeignAlias(c: Carried, timeout: Option<string>, names: seq<string>)
    requires Foreign(names)
    ensures FirstAlias(ToHeaders(c, timeout), names) == None
  {
    hide ToHeaders, HeaderValue, ForeignName;
    if names != [] {
      assert ForeignName(names[0]);
      ForeignValue(c, timeout, names[0]);
      assert Foreign(names[1..]) by {
        forall i | 0 <= i < |names[1..]| ensures ForeignName(names[1..][i]) {
          assert names[1..][i] == names[i + 1];
        }
      }
      ForeignAlias(c, timeout, names[1..]);
    }
  }

  lemma AliasedFixed(c: Carried, timeout: Option<string>, name: string, names: seq<string>)
    requires FixedName(name) && Foreign(names)
    ensures AliasedValue(ToHeaders(c, timeout), name, names) == Lookup(FixedHeaders(c, timeout), name)
  {
    hide ToHeaders, HeaderValue, ForeignName, FixedName, FixedHeaders, FirstAlias;
    FixedValue(c, timeout, name);
    ForeignAlias(c, timeout, names);
  }

  // --------------------------------------------------------------- the fixed headers

  lemma NamesDiffer()
    ensures |REQUEST_ID_HEADER| == |ROLES_HEADER| == 12 && REQUEST_ID_HEADER != ROLES_HEADER
    ensures |TRACE_ID_HEADER| == 10 && |TIMEOUT_HEADER| == 17 && |RETRY_BUDGET_HEADER| == 29
            && |IDEMPOTENCY_KEY_HEADER| == 15
    ensures |SUBJECT_HEADER| == 14 && |TENANT_HEADER| == 13
  {
    assert REQUEST_ID_HEADER[3] != ROLES_HEADER[3];
  }

  lemma IdsAt(c: Carried, timeout: Option<string>)
    ensures Lookup(FixedHeaders(c, timeout), REQUEST_ID_HEADER) == Some(c.requestId)
    ensures Lookup(FixedHeaders(c, timeout), TRACE_ID_HEADER) == Some(c.traceId)
  {
    hide FixedHeaders, SubjectOf, TenantOf, RolesText, IdempotencyKey, BudgetText;
    NamesDiffer();
    FixedLookup(c, timeout, REQUEST_ID_HEADER);
    FixedLookup(c, timeout, TRACE_ID_HEADER);
  }

  lemma AuthAt(c: Carried, timeout: Option<string>)
    ensures Lookup(FixedHeaders(c, timeout), SUBJECT_HEADER) == SubjectOf(c)
    ensures Lookup(FixedHeaders(c, timeout), TENANT_HEADER) == TenantOf(c)
    ensures Lookup(FixedHeaders(c, timeout), ROLES_HEADER) == RolesText(c)
  {
    hide FixedHeaders, SubjectOf, TenantOf, RolesText, IdempotencyKey, BudgetText;
    NamesDiffer();
    FixedLookup(c, timeout, SUBJECT_HEADER);
    FixedLookup(c, timeout, TENANT_HEADER);
    FixedLookup(c, timeout, ROLES_HEADER);
  }

  lemma BudgetAt(c: Carried, timeout: Option<string>)
    ensures Lookup(FixedHeaders(c, timeout), RETRY_BUDGET_HEADER) == BudgetText(c.budget)
    ensures Lookup(FixedHeaders(c, timeout), IDEMPOTENCY_KEY_HEADER) == IdempotencyKey(c.metadata)
  {
    hide FixedHeaders, SubjectOf, TenantOf, RolesText, IdempotencyKey, BudgetText;
    NamesDiffer();
    FixedLookup(c, timeout, RETRY_BUDGET_HEADER);
    FixedLookup(c, timeout, IDEMPOTENCY_KEY_HEADER);
  }

  // --------------------------------------------------------------- numbers

  lemma ParseOfDecimal(n: nat)
    ensures ParseUsize(Decimal(n)) == if n <= USIZE_MAX then Some(n) else None
  {
    DecimalReads(n);
    assert Decimal(n)[0] != '+';
  }

  // --------------------------------------------------------------- role lists

  lemma {:induction false} SplitOfJoin(parts: seq<string>)
    requires parts != [] && forall i | 0 <= i < |parts| :: ',' !in parts[i]
    ensures Split(JoinComma(parts), ',') == parts
  {
    if |parts| == 1 {
      assert FindChar(parts[0], ',') == |parts[0]|;
    } else {
      SplitOfJoin(parts[1..]);
      SplitHead(parts[0], ',', JoinComma(parts[1..]));
    }
  }

  lemma {:induction false} KeptPlain(parts: seq<string>)
    requires PlainRoles(parts)
    ensures Kept(parts) == parts
  {
    if parts != [] {
      assert PlainRole(parts[0]);
      TrimOfTrimmed(parts[0]);
      assert PlainRoles(parts[1..]) by {
        forall i | 0 <= i < |parts[1..]| ensures PlainRole(parts[1..][i]) {
          assert parts[1..][i] == parts[i + 1];
        }
      }
      KeptPlain(parts[1..]);
    }
  }

  lemma TrimLetters(s: string, c: char)
    requires c !in s
    ensures c !in Trim(s)
  {
    TrimStartLetters(s, c);
    TrimEndLetters(TrimStart(s), c);
  }

  lemma {:induction false} TrimStartLetters(s: string, c: char)
    requires c !in s
    ensures c !in TrimStart(s)
  {
    if s != [] && IsWhitespace(s[0]) {
      TrimStartLetters(s[1..], c);
    }
  }

  lemma {:induction false} TrimEndLetters(s: string, c: char)
    requires c !in s
    ensures c !in TrimEnd(s)
  {
    if s != [] && IsWhitespace(s[|s| - 1]) {
      TrimEndLetters(s[..|s| - 1], c);
    }
  }

  lemma {:induction false} KeptArePlain(parts: seq<string>)
    requires forall i | 0 <= i < |parts| :: ',' !in parts[i]
    ensures PlainRoles(Kept(parts))
  {
    if parts != [] {
      hide Trim;
      KeptArePlain(parts[1..]);
      TrimLetters(parts[0], ',');
      TrimIsTrimmed(parts[0]);
    }
  }

  /** A role list comes back exactly when every role is trimmed, not empty and free of commas. */
  lemma RolesTravel(roles: seq<string>)
    requires roles != []
    ensures Kept(Split(JoinComma(roles), ',')) == roles <==> PlainRoles(roles)
  {
    SplitPartsFree(JoinComma(roles), ',');
    KeptArePlain(Split(JoinComma(roles), ','));
    if PlainRoles(roles) {
      forall i | 0 <= i < |roles| ensures ',' !in roles[i] {
        assert PlainRole(roles[i]);
      }
      SplitOfJoin(roles);
      KeptPlain(roles);
    }
  }

  lemma AuthTravels(c: Carried, timeout: Option<string>, aliases: HeaderAliases)
    requires ForeignAliases(aliases)
    ensures AuthOf(ToHeaders(c, timeout), aliases) == c.auth <==> PortableAuth(c.auth)
  {
    hide ToHeaders, AliasedValue, FixedHeaders, ForeignName, Kept, Split, JoinComma, PlainRole, PlainRoles;
    AliasedFixed(c, timeout, SUBJECT_HEADER, aliases.subject);
    AliasedFixed(c, timeout, TENANT_HEADER, aliases.tenant);
    AliasedFixed(c, timeout, ROLES_HEADER, aliases.roles);
    AuthAt(c, timeout);
    if c.auth.Some? {
      if c.auth.value.roles == [] {
        NoRoles();
      } else {
        RolesTravel(c.auth.value.roles);
      }
    }
  }

  lemma NoRoles()
    ensures PlainRoles([])
  {
  }

  // --------------------------------------------------------------- metadata

  /** The metadata key a header stands for, if it stands for one. */
  function KeyOf(name: string): Option<string> {
    StripPrefix(Lower(name), METADATA_HEADER_PREFIX)
  }

  lemma {:induction false} GatherKeys(headers: Headers, names: seq<string>, key: string)
    requires forall k | k in names :: k in headers
    ensures key in Gather(headers, names) <==> exists i :: 0 <= i < |names| && KeyOf(names[i]) == Some(key)
  {
    if names != [] {
      hide StripPrefix, Lower;
      var n := |names| - 1;
      GatherKeys(headers, names[..n], key);
      if key in Gather(headers, names[..n]) {
        var i :| 0 <= i < |names[..n]| && KeyOf(names[..n][i]) == Some(key);
        assert KeyOf(names[i]) == Some(key);
      }
      if i :| 0 <= i < |names| && KeyOf(names[i]) == Some(key) && i < n {
        assert KeyOf(names[..n][i]) == Some(key);
      }
    }
  }

  lemma {:induction false} GatherValues(headers: Headers, names: seq<string>, key: string, name: string)
    requires forall k | k in names :: k in headers
    requires key in Gather(headers, names) && name in headers
    requires forall i | 0 <= i < |names| :: KeyOf(names[i]) == Some(key) ==> names[i] == name
    ensures Gather(headers, names)[key] == headers[name]
  {
    hide StripPrefix, Lower;
    var n := |names| - 1;
    if KeyOf(names[n]) != Some(key) {
      forall i | 0 <= i < |names[..n]| && KeyOf(names[..n][i]) == Some(key) ensures names[..n][i] == name {
        assert names[..n][i] == names[i];
      }
      GatherValues(headers, names[..n], key, name);
    }
  }

  lemma LowerTwice(s: string)
    ensures Lower(Lower(s)) == Lower(s)
  {
  }

  /** The key read back from a generated header. */
  lemma KeyOfGenerated(c: Carried, timeout: Option<string>, name: string)
    requires name in ToHeaders(c, timeout)
    ensures FixedName(name) ==> KeyOf(name) == None
    ensures !FixedName(name) ==>
              METADATA_HEADER_PREFIX <= name && name[12..] in c.metadata && KeyOf(name) == Some(Lower(name[12..]))
  {
    hide ToHeaders, Lower, FixedName;
    GeneratedNames(c, timeout, name);
    if FixedName(name) {
      FixedAreLower(name);
    } else {
      assert name == METADATA_HEADER_PREFIX + name[12..];
      PrefixIsLower(name[12..]);
      assert (METADATA_HEADER_PREFIX + Lower(name[12..]))[12..] == Lower(name[12..]);
    }
  }

  lemma MetadataHeaderIn(c: Carried, timeout: Option<string>, key: string)
    requires key in c.metadata
    ensures METADATA_HEADER_PREFIX + key in ToHeaders(c, timeout)
    ensures ToHeaders(c, timeout)[METADATA_HEADER_PREFIX + key] == c.metadata[key]
    ensures KeyOf(METADATA_HEADER_PREFIX + key) == Some(Lower(key))
  {
    hide FixedHeaders, Lower;
    var name := METADATA_HEADER_PREFIX + key;
    assert name[12..] == key;
    MetadataHeadersAt(c.metadata, name);
    PrefixIsLower(key);
    assert (METADATA_HEADER_PREFIX + Lower(key))[12..] == Lower(key);
  }

  /** The keys gathered from generated headers are the lower-cased metadata keys. */
  lemma GatheredKeys(c: Carried, timeout: Option<string>, names: seq<string>, key: string)
    requires Elements(names) == ToHeaders(c, timeout).Keys && forall k | k in names :: k in ToHeaders(c, timeout)
    ensures key in Gather(ToHeaders(c, timeout), names) <==> exists k :: k in c.metadata && Lower(k) == key
  {
    hide ToHeaders, Lower, FixedName, Gather, StripPrefix, KeyOf;
    var headers := ToHeaders(c, timeout);
    GatherKeys(headers, names, key);
    if i :| 0 <= i < |names| && KeyOf(names[i]) == Some(key) {
      assert names[i] in headers;
      KeyOfGenerated(c, timeout, names[i]);
      assert names[i][12..] in c.metadata && Lower(names[i][12..]) == key;
    }
    if k :| k in c.metadata && Lower(k) == key {
      MetadataHeaderIn(c, timeout, k);
      assert METADATA_HEADER_PREFIX + k in Elements(names);
      var i :| 0 <= i < |names| && names[i] == METADATA_HEADER_PREFIX + k;
      assert KeyOf(names[i]) == Some(key);
    }
  }

  lemma GatheredValue(c: Carried, timeout: Option<string>, names: seq<string>, key: string)
    requires Elements(names) == ToHeaders(c, timeout).Keys && forall k | k in names :: k in ToHeaders(c, timeout)
    requires LowerKeys(c.metadata) && key in c.metadata && key in Gather(ToHeaders(c, timeout), names)
    ensures Gather(ToHeaders(c, timeout), names)[key] == c.metadata[key]
  {
    hide ToHeaders, Lower, FixedName, Gather, StripPrefix, KeyOf;
    var headers := ToHeaders(c, timeout);
    var name := METADATA_HEADER_PREFIX + key;
    MetadataHeaderIn(c, timeout, key);
    forall i | 0 <= i < |names| && KeyOf(names[i]) == Some(key) ensures names[i] == name {
      assert names[i] in headers;
      KeyOfGenerated(c, timeout, names[i]);
      assert names[i] == METADATA_HEADER_PREFIX + names[i][12..];
    }
    GatherValues(headers, names, key, name);
  }

  lemma {:induction false} AliasesAddNothing(c: Carried, timeout: Option<string>, aliases: seq<(string, string)>,
                                             metadata: map<string, string>)
    requires forall i | 0 <= i < |aliases| :: ForeignName(aliases[i].1)
    ensures WithAliases(ToHeaders(c, timeout), aliases, metadata) == metadata
  {
    hide ToHeaders, HeaderValue, ForeignName;
    if aliases != [] {
      assert ForeignName(aliases[0].1);
      ForeignValue(c, timeout, aliases[0].1);
      forall i | 0 <= i < |aliases[1..]| ensures ForeignName(aliases[1..][i].1) {
        assert aliases[1..][i] == aliases[i + 1];
      }
      AliasesAddNothing(c, timeout, aliases[1..], metadata);
    }
  }

  lemma SortedHeaders(headers: Headers)
    ensures Elements(Sorted(headers.Keys)) == headers.Keys && forall k | k in Sorted(headers.Keys) :: k in headers
  {
    forall k | k in Sorted(headers.Keys) ensures k in headers {
      assert k in Elements(Sorted(headers.Keys));
    }
  }

  /** The idempotency header repeats a metadata entry, so the fallback never fires on generated headers. */
  lemma MetadataIsGathered(c: Carried, timeout: Option<string>, aliases: HeaderAliases)
    requires ForeignAliases(aliases)
    ensures var headers := ToHeaders(c, timeout);
            (forall k | k in Sorted(headers.Keys) :: k in headers)
            && MetadataOf(headers, aliases) == Gather(headers, Sorted(headers.Keys))
  {
    hide ToHeaders, HeaderValue, ForeignName, Gather, Sorted, FixedHeaders, Lower;
    var headers := ToHeaders(c, timeout);
    var names := Sorted(headers.Keys);
    SortedHeaders(headers);
    AliasesAddNothing(c, timeout, aliases.metadata, Gather(headers, names));
    FixedValue(c, timeout, IDEMPOTENCY_KEY_HEADER);
    BudgetAt(c, timeout);
    var key := IDEMPOTENCY_KEY_METADATA_KEY;
    if key in c.metadata {
      assert NoCapitals(key);
      LowerFixed(key);
      GatheredKeys(c, timeout, names, key);
    }
  }

  lemma MetadataTravels(c: Carried, timeout: Option<string>, aliases: HeaderAliases)
    requires ForeignAliases(aliases)
    ensures MetadataOf(ToHeaders(c, timeout), aliases) == c.metadata <==> LowerKeys(c.metadata)
  {
    hide ToHeaders, MetadataOf, Gather, Sorted, Lower, ForeignName;
    var headers := ToHeaders(c, timeout);
    var names := Sorted(headers.Keys);
    SortedHeaders(headers);
    MetadataIsGathered(c, timeout, aliases);
    var gathered := Gather(headers, names);
    if LowerKeys(c.metadata) {
      forall k ensures k in gathered <==> k in c.metadata {
        GatheredKeys(c, timeout, names, k);
      }
      forall k | k in gathered ensures gathered[k] == c.metadata[k] {
        GatheredValue(c, timeout, names, k);
      }
      assert gathered == c.metadata;
    } else if gathered == c.metadata {
      forall k | k in c.metadata ensures Lower(k) == k {
        GatheredKeys(c, timeout, names, k);
        var j :| j in c.metadata && Lower(j) == k;
        LowerTwice(j);
      }
    }
  }

  lemma BudgetTravels(c: Carried, timeout: Option<string>)
    ensures BudgetOf(ToHeaders(c, timeout)) == c.budget <==>
              (c.budget.Some? ==> c.budget.value <= MAX_PROPAGATED_RETRY_BUDGET)
  {
    hide ToHeaders, HeaderValue, FixedHeaders, ParseUsize, Decimal;
    FixedValue(c, timeout, RETRY_BUDGET_HEADER);
    BudgetAt(c, timeout);
    if c.budget.Some? {
      ParseOfDecimal(c.budget.value);
    }
  }

  /**
   * A context comes back from its own headers exactly when its identifiers and subject are not empty, its tenant is
   * absent or not empty, its roles are plain, its metadata keys are lower-case and its budget is within the cap.
   */
  lemma RoundTripIffPortable(c: Carried, timeout: Option<string>, aliases: HeaderAliases, generated: string)
    requires ForeignAliases(aliases) && generated != ""
    ensures FromHeaders(ToHeaders(c, timeout), aliases, generated) == c <==> Portable(c)
  {
    hide ToHeaders, AliasedValue, FixedHeaders, ForeignName, AuthOf, MetadataOf, BudgetOf, PortableAuth, LowerKeys;
    AliasedFixed(c, timeout, REQUEST_ID_HEADER, aliases.requestId);
    AliasedFixed(c, timeout, TRACE_ID_HEADER, aliases.traceId);
    IdsAt(c, timeout);
    AuthTravels(c, timeout, aliases);
    MetadataTravels(c, timeout, aliases);
    BudgetTravels(c, timeout);
  }

  lemma FixedThird(name: string)
    requires FixedName(name)
    ensures |name| > 2 && name[2] != 'h'
  {
  }

  lemma ForeignOne(name: string)
    requires |name| > 2 && name[2] == 'h'
    ensures Foreign([name]) && ForeignName(name)
  {
    hide FixedName;
    if FixedName(Lower(name)) {
      FixedThird(Lower(name));
    }
    assert Lower(name)[2] == 'h' && METADATA_HEADER_PREFIX[2] == 'r';
  }

  /** The built-in aliases are all foreign, so the default reader is covered. */
  lemma HulaIsForeign()
    ensures ForeignAliases(HulaAliases)
  {
    hide ForeignName;
    ForeignOne("x-hula-request-id");
    ForeignOne("x-hula-trace-id");
    ForeignOne("x-hula-uid");
    ForeignOne("x-hula-tenant-id");
    ForeignOne("x-hula-role");
    ForeignOne("x-hula-device-id");
    ForeignOne("x-hula-scope");
  }
}
