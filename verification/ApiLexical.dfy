/** Which texts a contract may be made of, and how each printed line reads back. */
module ApiLexical {
  import opened Prelude
  import opened Text
  import opened ApiSpec
  import opened ApiParser
  import opened ApiPrinter

  // --------------------------------------------------------------- text that survives on a line

  predicate SlashPair(s: string, i: int) {
    0 <= i < |s| - 1 && s[i] == '/' && s[i + 1] == '/'
  }

  /** Text that neither starts a comment nor ends the line. */
  ghost predicate Safe(s: string) {
    '\n' !in s && forall i :: !SlashPair(s, i)
  }

  predicate SlashFree(s: string) {
    '/' !in s && '\n' !in s
  }

  lemma SlashFreeSafe(s: string)
    requires SlashFree(s)
    ensures Safe(s)
  {
    forall i ensures !SlashPair(s, i) { assert 0 <= i < |s| ==> s[i] in s; }
  }

  lemma SafeCat(a: string, b: string)
    requires Safe(a) && Safe(b) && (a == [] || b == [] || a[|a| - 1] != '/' || b[0] != '/')
    ensures Safe(a + b)
  {
    var s := a + b;
    forall i ensures !SlashPair(s, i) {
      if SlashPair(s, i) {
        assert i + 1 < |a| ==> SlashPair(a, i);
        assert i >= |a| ==> SlashPair(b, i - |a|);
      }
    }
  }

  /** Safe text with slash-free text on both sides. */
  lemma SafeWrap(a: string, s: string, b: string)
    requires SlashFree(a) && Safe(s) && SlashFree(b)
    ensures Safe(a + s + b) && Safe(a + s) && Safe(s + b)
  {
    SlashFreeSafe(a);
    SlashFreeSafe(b);
    assert a != [] ==> a[|a| - 1] in a;
    assert b != [] ==> b[0] in b;
    SafeCat(a, s);
    SafeCat(s, b);
    assert s == [] ==> a + s == a;
    SafeCat(a + s, b);
  }

  lemma StripSafe(s: string)
    requires Safe(s)
    ensures StripComment(s) == s
  {
    if Find(s, "//").Some? {
      var k := Find(s, "//").value;
      assert s[k] == s[k..k + 2][0] && s[k + 1] == s[k..k + 2][1];
      assert SlashPair(s, k);
    }
  }

  /** A line's text: nothing around it to trim, nothing in it to cut. */
  ghost predicate Core(s: string) {
    Trimmed(s) && Safe(s)
  }

  ghost predicate PlainLine(raw: string) {
    '\n' !in raw && (raw == [] || raw[|raw| - 1] != '\r')
  }

  ghost predicate Margin(s: string) {
    forall i | 0 <= i < |s| :: s[i] == ' '
  }

  /** An indented line reads back as its text. */
  lemma CleanCore(indent: string, s: string)
    requires Margin(indent) && Core(s) && s != ""
    ensures Clean(indent + s) == s
    ensures PlainLine(indent + s)
  {
    SafeWrap(indent, s, []);
    StripSafe(indent + s);
    TrimAround(indent, s, []);
    assert indent + s + [] == indent + s;
    assert (indent + s)[|indent + s| - 1] == s[|s| - 1];
  }

  // --------------------------------------------------------------- key and value lines

  predicate Bare(v: string) {
    v != "" && v[0] != '"' && v[|v| - 1] != '"'
  }

  ghost predicate InfoKey(k: string) {
    k != "" && Core(k) && ':' !in k
  }

  ghost predicate InfoValue(v: string) {
    Bare(v) && Safe(v)
  }

  ghost predicate ServerValue(v: string) {
    Bare(v) && Core(v)
  }

  lemma TrimQuotes(v: string)
    requires Bare(v)
    ensures TrimChar("\"" + v + "\"", '"') == v && TrimChar(v, '"') == v
  {
    var q := "\"" + v + "\"";
    assert q[1..] == v + "\"";
    assert TrimStartChar(q, '"') == TrimStartChar(v + "\"", '"') == v + "\"";
    assert (v + "\"")[..|v|] == v;
    assert TrimEndChar(v + "\"", '"') == TrimEndChar(v, '"') == v;
  }

  /** A `key: value` line splits at its first colon. */
  lemma KeyValue(k: string, rest: string)
    requires Trimmed(k) && ':' !in k
    ensures KeyPart(k + ":" + rest) == k
    ensures ValuePart(k + ":" + rest) == TrimChar(Trim(rest), '"')
  {
    hide Trim, TrimChar;
    var line := k + ":" + rest;
    FindCharAt(k, ':', rest);
    assert line[..|k|] == k && line[|k| + 1..] == rest;
    TrimOfTrimmed(k);
  }

  lemma InfoCore(pair: InfoPair)
    requires InfoKey(pair.key) && InfoValue(pair.value)
    ensures Core(InfoText(pair)) && |InfoText(pair)| > 1
  {
    hide Safe;
    var tail := ": \"" + pair.value + "\"";
    SafeWrap(": \"", pair.value, "\"");
    SafeCat(pair.key, tail);
    assert InfoText(pair) == pair.key + tail;
  }

  lemma InfoReads(pair: InfoPair)
    requires InfoKey(pair.key) && InfoValue(pair.value)
    ensures KeyPart(InfoText(pair)) == pair.key && ValuePart(InfoText(pair)) == pair.value
  {
    hide Safe, Trim, TrimChar, FindChar, KeyPart, ValuePart;
    var quoted := "\"" + pair.value + "\"";
    assert InfoText(pair) == pair.key + ":" + (" " + quoted);
    KeyValue(pair.key, " " + quoted);
    TrimAround(" ", quoted, []);
    assert " " + quoted + [] == " " + quoted;
    TrimQuotes(pair.value);
  }

  ghost predicate EntryKey(key: string) {
    key != "" && Trimmed(key) && SlashFree(key) && ':' !in key
  }

  lemma EntryCore(key: string, value: string)
    requires EntryKey(key) && ServerValue(value)
    ensures Core(EntryText(key, value)) && |EntryText(key, value)| > 1
  {
    hide Safe;
    SafeWrap(key + ": ", value, []);
    assert EntryText(key, value) == key + ": " + value + [];
  }

  lemma EntryReads(key: string, value: string)
    requires EntryKey(key) && ServerValue(value)
    ensures KeyPart(EntryText(key, value)) == key && ValuePart(EntryText(key, value)) == value
  {
    hide Safe, Trim, TrimChar, FindChar, KeyPart, ValuePart;
    assert EntryText(key, value) == key + ":" + (" " + value);
    KeyValue(key, " " + value);
    TrimAround(" ", value, []);
    assert " " + value + [] == " " + value;
    TrimQuotes(value);
  }

  // --------------------------------------------------------------- names and name lists

  predicate NameChar(c: char) {
    !IsListBreak(c) && c != '"'
  }

  ghost predicate Name(n: string) {
    n != "" && Safe(n) && forall i | 0 <= i < |n| :: NameChar(n[i])
  }

  lemma NameIsTrimmed(n: string)
    requires Name(n)
    ensures Core(n) && Bare(n)
  {
    hide Safe;
  }

  lemma NameItemReads(n: string)
    requires Name(n)
    ensures NameItem(n) == [n]
  {
    hide Safe, Trim;
    NameIsTrimmed(n);
    TrimOfTrimmed(n);
  }

  lemma BlankItem(s: string)
    requires s == ""
    ensures NameItem(s) == []
  {
  }

  lemma FindBreakAt(n: string, rest: string)
    requires Name(n) && (rest == [] || IsListBreak(rest[0]))
    ensures FindBreak(n + rest) == |n|
  {
    hide Safe;
    var s := n + rest;
    assert forall i | 0 <= i < |n| :: s[i] == n[i];
    assert rest != [] ==> s[|n|] == rest[0];
    assert FindBreak(s) == |n|;
  }

  lemma NameListOne(n: string)
    requires Name(n)
    ensures NameList(n) == [n]
  {
    hide Safe, NameItem;
    FindBreakAt(n, []);
    assert n + [] == n;
    NameItemReads(n);
  }

  lemma NameListCons(n: string, rest: string)
    requires Name(n)
    ensures NameList(n + ", " + rest) == [n] + NameList(rest)
  {
    hide Safe, NameItem;
    var s := n + ", " + rest;
    assert s == n + (", " + rest);
    FindBreakAt(n, ", " + rest);
    NameItemReads(n);
    var tail := s[|n| + 1..];
    assert s[..|n|] == n && tail == " " + rest;
    assert FindBreak(tail) == 0;
    assert tail[..0] == "" && tail[1..] == rest;
    BlankItem(tail[..0]);
    assert NameList(tail) == NameItem("") + NameList(rest) == NameList(rest);
  }

  ghost predicate Names(names: seq<string>) {
    forall i | 0 <= i < |names| :: Name(names[i])
  }

  lemma {:induction false} JoinedReads(names: seq<string>)
    requires Names(names) && names != []
    ensures NameList(JoinNames(names)) == names
  {
    hide Name, NameList;
    if |names| == 1 {
      NameListOne(names[0]);
    } else {
      JoinedReads(names[1..]);
      NameListCons(names[0], JoinNames(names[1..]));
    }
  }

  lemma {:induction false} JoinedIsValue(names: seq<string>)
    requires Names(names) && names != []
    ensures ServerValue(JoinNames(names))
  {
    hide Name, Safe;
    NameIsTrimmed(names[0]);
    if |names| > 1 {
      JoinedIsValue(names[1..]);
      var rest := JoinNames(names[1..]);
      SafeWrap([], names[0], ", ");
      assert names[0] + ", " + rest == names[0] + (", " + rest);
      SafeWrap(", ", rest, []);
      assert ", " + rest + [] == ", " + rest;
      SafeCat(names[0], ", " + rest);
    }
  }

  // --------------------------------------------------------------- annotations

  lemma NotPrefix(p: string, s: string, i: nat)
    requires i < |p| && (i < |s| ==> s[i] != p[i])
    ensures StripPrefix(s, p).None?
  {
    assert |p| <= |s| ==> s[..|p|][i] == s[i];
  }

  lemma ArgReads(mark: string, arg: string)
    requires arg != "" && Trimmed(arg) && StripPair(arg, '(', ')').None?
    ensures AnnotationArg(mark + " " + arg, mark) == Some(arg)
  {
    hide Trim, TrimStart;
    assert mark + " " + arg == mark + (" " + arg);
    PrefixOfConcat(mark, " " + arg);
    TrimAround(" ", arg, []);
    TrimOfTrimmed(arg);
  }

  ghost predicate Doc(d: string) {
    Core(d)
  }

  ghost predicate Handler(h: string) {
    h != "" && Core(h) && StripPair(h, '(', ')').None? && StripPair(h, '"', '"').None?
  }

  ghost predicate AnnotationName(n: string) {
    Name(n) && StripPair(n, '(', ')').None?
  }

  /** A line of a service block that is not blank, not the closing brace and opens no server block. */
  ghost predicate ItemLine(line: string) {
    line != "" && line != "}" && Core(line) && !IsBlockStart(line, "@server")
  }

  function DocText(d: string): string {
    "@doc \"" + d + "\""
  }

  lemma QuotedPair(d: string)
    ensures StripPair("\"" + d + "\"", '"', '"') == Some(d)
    ensures StripPair("\"" + d + "\"", '(', ')').None?
    ensures Trimmed("\"" + d + "\"")
  {
    var q := "\"" + d + "\"";
    assert q[1..|q| - 1] == d;
  }

  lemma DocReads(st: Service, d: string, at: nat)
    requires Doc(d)
    ensures ServiceLine(st, DocText(d), at) == Ok(st.(doc := Some(d)))
  {
    hide Safe, Trim, AnnotationArg, NameList, RouteLine, WithRpc;
    var q := "\"" + d + "\"";
    QuotedPair(d);
    assert DocText(d) == "@doc" + " " + q;
    ArgReads("@doc", q);
    TrimOfTrimmed(q);
    TrimOfTrimmed(d);
  }

  lemma HandlerReads(st: Service, h: string, at: nat)
    requires Handler(h)
    ensures ServiceLine(st, "@handler " + h, at) == Ok(st.(handler := Some(h)))
  {
    hide Safe, Trim, NameList, RouteLine, WithRpc;
    var line := "@handler " + h;
    assert line == "@handler" + " " + h;
    NotPrefix("@doc", line, 1);
    ArgReads("@handler", h);
    hide AnnotationArg;
    TrimOfTrimmed(h);
  }

  lemma MiddlewareReads(st: Service, n: string, at: nat)
    requires AnnotationName(n)
    ensures ServiceLine(st, "@middleware " + n, at) == Ok(st.(middlewares := st.middlewares + [n]))
  {
    hide Safe, Trim, NameList, RouteLine, WithRpc;
    var line := "@middleware " + n;
    assert line == "@middleware" + " " + n;
    NotPrefix("@doc", line, 1);
    NotPrefix("@handler", line, 1);
    NameIsTrimmed(n);
    ArgReads("@middleware", n);
    NameListOne(n);
  }

  lemma PermissionReads(st: Service, n: string, at: nat)
    requires AnnotationName(n)
    ensures ServiceLine(st, "@permission " + n, at) == Ok(st.(permissions := st.permissions + [n]))
  {
    hide Safe, Trim, NameList, RouteLine, WithRpc;
    var line := "@permission " + n;
    assert line == "@permission" + " " + n;
    NotPrefix("@doc", line, 1);
    NotPrefix("@handler", line, 1);
    NotPrefix("@middleware", line, 1);
    NameIsTrimmed(n);
    ArgReads("@permission", n);
    NameListOne(n);
  }

  lemma WebsocketReads(st: Service, at: nat)
    ensures ServiceLine(st, "@websocket", at) == Ok(st.(websocket := true))
  {
    hide Trim, TrimStart, NameList, RouteLine, WithRpc;
    var line := "@websocket";
    NotPrefix("@doc", line, 1);
    NotPrefix("@handler", line, 1);
    NotPrefix("@middleware", line, 1);
    NotPrefix("@permission", line, 1);
  }

  lemma MaudReads(st: Service, at: nat)
    ensures ServiceLine(st, "@maud", at) == Ok(st.(maud := true))
  {
    hide Trim, TrimStart, NameList, RouteLine, WithRpc;
    var line := "@maud";
    NotPrefix("@doc", line, 1);
    NotPrefix("@handler", line, 1);
    NotPrefix("@middleware", line, 2);
    NotPrefix("@permission", line, 1);
    assert line[1] != "@websocket"[1];
  }

  /** An annotation line is an ordinary line of a service block. */
  lemma AnnotationItem(mark: string, arg: string)
    requires |mark| > 2 && mark[0] == '@' && mark[1] != 's' && SlashFree(mark) && Core(arg) && arg != ""
    ensures ItemLine(mark + arg)
  {
    hide Safe, Trim, TrimStart;
    SafeWrap(mark, arg, []);
    assert mark + arg + [] == mark + arg;
    NotPrefix("@server", mark + arg, 1);
  }

  lemma DocItem(d: string)
    requires Doc(d)
    ensures ItemLine(DocText(d))
  {
    hide Safe, Trim, TrimStart;
    SafeWrap("@doc \"", d, "\"");
    NotPrefix("@server", DocText(d), 1);
  }

  lemma MarkItem(line: string)
    requires |line| > 2 && line[0] == '@' && line[1] != 's' && SlashFree(line) && Trimmed(line)
    ensures ItemLine(line)
  {
    hide Trim, TrimStart;
    SlashFreeSafe(line);
    NotPrefix("@server", line, 1);
  }

  // --------------------------------------------------------------- signatures, routes and RPC methods

  ghost predicate TypeRef(t: string) {
    Core(t)
  }

  ghost predicate RequestRef(t: string) {
    Core(t) && Find(t, "returns").None?
  }

  lemma ParensRead(t: string, before: string, after: string)
    requires Trimmed(t) && Blank(before) && Blank(after)
    ensures TrimParens(before + ("(" + t + ")") + after) == t
  {
    hide Trim;
    var p := "(" + t + ")";
    TrimAround(before, p, after);
    assert p[1..|p| - 1] == t;
    TrimOfTrimmed(t);
  }

  lemma OccursChar(s: string, w: string, i: nat, k: nat)
    requires OccursAt(s, w, i) && k < |w|
    ensures s[i + k] == w[k]
  {
    assert s[i..i + |w|][k] == s[i + k];
  }

  /** A word cannot lie across a character it does not contain. */
  lemma NoSpan(a: string, c: char, b: string, w: string, i: nat)
    requires c !in w && OccursAt(a + [c] + b, w, i)
    ensures OccursAt(a, w, i) || (i > |a| && OccursAt(b, w, i - |a| - 1)) || w == ""
  {
    var s := a + [c] + b;
    assert s[|a|] == c;
    if i + |w| <= |a| {
      assert s[i..i + |w|] == a[i..i + |w|];
    } else if |a| < i {
      assert s[i..i + |w|] == b[i - |a| - 1..i - |a| - 1 + |w|];
    } else {
      OccursChar(s, w, i, |a| - i);
    }
  }

  lemma NotInRequest(t: string, i: nat)
    requires Find(t, "returns").None?
    ensures !OccursAt("(" + t, "returns", i)
  {
    hide Find;
    assert "(" + t == [] + ['('] + t;
    if OccursAt("(" + t, "returns", i) {
      NoSpan([], '(', t, "returns", i);
    }
  }

  lemma NotAtSpace(rest: string)
    ensures !OccursAt(" " + rest, "returns", 0)
  {
    if OccursAt(" " + rest, "returns", 0) {
      OccursChar(" " + rest, "returns", 0, 0);
    }
  }

  lemma NotEarlier(t: string, rest: string, i: nat)
    requires Find(t, "returns").None? && i < |t| + 3
    ensures !OccursAt("(" + t + ") " + "returns" + rest, "returns", i)
  {
    hide Find, OccursAt;
    var s, after := "(" + t + ") " + "returns" + rest, " " + ("returns" + rest);
    assert s == ("(" + t) + [')'] + after;
    NotInRequest(t, i);
    NotAtSpace("returns" + rest);
    if OccursAt(s, "returns", i) {
      NoSpan("(" + t, ')', after, "returns", i);
    }
  }

  /** The keyword is found right after the request. */
  lemma FindReturns(t: string, rest: string)
    requires Find(t, "returns").None?
    ensures Find("(" + t + ") " + "returns" + rest, "returns") == Some(|t| + 3)
  {
    var head := "(" + t + ") ";
    var s := head + "returns" + rest;
    assert s[|head|..|head| + 7] == "returns";
    assert OccursAt(s, "returns", |t| + 3);
    forall i | 0 <= i < |t| + 3 ensures !OccursAt(s, "returns", i) {
      NotEarlier(t, rest, i);
    }
  }

  lemma SignatureReads(request: string, response: string)
    requires RequestRef(request) && TypeRef(response)
    ensures Signature(SignatureText(request, response)) == (request, response)
  {
    hide Trim, Find, TrimParens, Safe, SignatureText;
    var s := SignatureText(request, response);
    SignatureParts(request, response);
    FindReturns(request, " (" + response + ")");
    TrimOfTrimmed(s);
    ParensRead(request, [], " ");
    ParensRead(response, " ", []);
  }

  /** Where the pieces of a printed signature lie. */
  lemma SignatureParts(request: string, response: string)
    ensures var s := SignatureText(request, response);
            && s == "(" + request + ") " + "returns" + (" (" + response + ")")
            && |s| > |request| + 10 && Trimmed(s)
            && s[..|request| + 3] == [] + ("(" + request + ")") + " "
            && s[|request| + 10..] == " " + ("(" + response + ")") + []
  {
    var s := SignatureText(request, response);
    assert s == "(" + request + ") " + "returns" + (" (" + response + ")");
  }

  lemma SignatureCore(request: string, response: string)
    requires RequestRef(request) && TypeRef(response)
    ensures Core(SignatureText(request, response)) && |SignatureText(request, response)| > 4
    ensures SignatureText(request, response)[0] == '('
  {
    hide Find, Safe;
    SafeWrap("(", request, ") returns (");
    SafeWrap([], response, ")");
    assert [] + response + ")" == response + ")";
    SafeCat("(" + request + ") returns (", response + ")");
    assert SignatureText(request, response) == ("(" + request + ") returns (") + (response + ")");
  }

  ghost predicate RoutePath(p: string) {
    p != "" && NoSpace(p) && '(' !in p && Safe(p)
  }

  ghost predicate RpcName(n: string) {
    n != "" && NoSpace(n) && Safe(n)
  }

  /** `token rest`, one space between. */
  lemma FirstTokenReads(token: string, rest: string)
    requires token != "" && NoSpace(token) && Trimmed(rest) && rest != ""
    ensures FirstToken(token + " " + rest) == Some((token, rest))
  {
    hide Trim, TrimStart;
    var s := token + " " + rest;
    TrimOfTrimmed(s);
    assert s == token + (" " + rest);
    FindSpaceAt(token, " " + rest);
    assert s[..|token|] == token && s[|token|..] == " " + rest;
    TrimAround(" ", rest, []);
  }

  lemma PathReads(path: string, signature: string)
    requires RoutePath(path) && Trimmed(signature) && signature != ""
    ensures SplitPath(path + " " + signature) == (path, signature)
  {
    hide Safe, Trim, TrimStart;
    var s := path + " " + signature;
    TrimOfTrimmed(s);
    assert s == path + (" " + signature);
    FindSpaceAt(path, " " + signature);
    assert forall i | 0 <= i < |path| :: s[i] == path[i];
    assert FindChar(s, '(') >= |path|;
    assert s[..|path|] == path && s[|path|..] == " " + signature;
    TrimOfTrimmed(path);
    TrimAround(" ", signature, []);
  }

  lemma MethodReads(m: HttpMethod)
    ensures MethodOf(MethodText(m)) == Some(m)
    ensures NoSpace(MethodText(m)) && |MethodText(m)| > 2 && SlashFree(MethodText(m))
    ensures MethodText(m)[0] != '@' && MethodText(m)[0] != 'r' && MethodText(m)[0] != '}'
  {
  }

  function BareRoute(route: RestRoute): RestRoute {
    RestRoute(None, None, false, false, [], [], None, route.method_, route.path, route.request, route.response)
  }

  ghost predicate RouteTexted(route: RestRoute) {
    RoutePath(route.path) && RequestRef(route.request) && TypeRef(route.response)
  }

  lemma RouteLineReads(route: RestRoute, at: nat)
    requires RouteTexted(route)
    ensures RouteLine(RouteText(route), at) == Ok(Some(BareRoute(route)))
  {
    hide Safe, Signature, SplitPath, FirstToken, Find, MethodOf;
    var signature := SignatureText(route.request, route.response);
    var rest := route.path + " " + signature;
    SignatureCore(route.request, route.response);
    SignatureReads(route.request, route.response);
    PathReads(route.path, signature);
    MethodReads(route.method_);
    assert RouteText(route) == MethodText(route.method_) + " " + rest;
    assert rest[0] == route.path[0] && rest[|rest| - 1] == signature[|signature| - 1];
    FirstTokenReads(MethodText(route.method_), rest);
  }

  lemma RouteCore(route: RestRoute)
    requires RouteTexted(route)
    ensures ItemLine(RouteText(route))
  {
    hide Safe, Find, Trim, TrimStart;
    var signature := SignatureText(route.request, route.response);
    SignatureCore(route.request, route.response);
    MethodReads(route.method_);
    SafeWrap(MethodText(route.method_) + " ", route.path, " ");
    SafeCat(MethodText(route.method_) + " " + route.path + " ", signature);
    NotPrefix("@server", RouteText(route), 0);
  }

  lemma RouteItemReads(st: Service, route: RestRoute, at: nat)
    requires RouteTexted(route)
    ensures ServiceLine(st, RouteText(route), at) == WithRoute(st, BareRoute(route), at)
  {
    hide Safe, Find, Trim, TrimStart, RouteLine, NameList, WithRoute;
    var line := RouteText(route);
    MethodReads(route.method_);
    assert line[0] == MethodText(route.method_)[0];
    NotPrefix("@doc", line, 0);
    NotPrefix("@handler", line, 0);
    NotPrefix("@middleware", line, 0);
    NotPrefix("@permission", line, 0);
    NotPrefix("rpc ", line, 0);
    assert line[0] != "@websocket"[0] && line[0] != "@maud"[0];
    RouteLineReads(route, at);
  }

  ghost predicate RpcTexted(m: RpcMethod) {
    RpcName(m.name) && RequestRef(m.request) && TypeRef(m.response)
  }

  lemma RpcCore(m: RpcMethod)
    requires RpcTexted(m)
    ensures ItemLine(RpcText(m))
  {
    hide Safe, Find, Trim, TrimStart;
    SignatureCore(m.request, m.response);
    SafeWrap("rpc ", m.name, " ");
    SafeCat("rpc " + m.name + " ", SignatureText(m.request, m.response));
    NotPrefix("@server", RpcText(m), 0);
  }

  lemma RpcItemReads(st: Service, m: RpcMethod, at: nat)
    requires RpcTexted(m) && !st.websocket && !st.maud
    ensures ServiceLine(st, RpcText(m), at)
            == Ok(st.(rpcs := st.rpcs + [RpcMethod(m.name, m.request, m.response, st.middlewares, st.permissions)],
                      middlewares := [], permissions := []))
  {
    hide Safe, Find, Trim, TrimStart, RouteLine, NameList, FirstToken, Signature;
    var line, signature := RpcText(m), SignatureText(m.request, m.response);
    NotPrefix("@doc", line, 0);
    NotPrefix("@handler", line, 0);
    NotPrefix("@middleware", line, 0);
    NotPrefix("@permission", line, 0);
    assert line[0] != "@websocket"[0] && line[0] != "@maud"[0];
    assert line == "rpc " + (m.name + " " + signature);
    PrefixOfConcat("rpc ", m.name + " " + signature);
    SignatureCore(m.request, m.response);
    SignatureReads(m.request, m.response);
    FirstTokenReads(m.name, signature);
  }

  // --------------------------------------------------------------- headers

  ghost predicate ServiceName(n: string) {
    Core(n)
  }

  ghost predicate TypeName(n: string) {
    n != "" && Core(n)
  }

  lemma BraceReads(n: string)
    requires Trimmed(n)
    ensures BraceName(n + " {") == n
  {
    hide Trim;
    var s := n + " {";
    assert s[..|s| - 1] == n + " ";
    assert TrimEndChar(s, '{') == TrimEndChar(n + " ", '{') == n + " ";
    TrimAround([], n, " ");
    assert [] + n + " " == n + " ";
  }

  lemma TypeHeaderCore(n: string)
    requires TypeName(n)
    ensures Core(n + " {") && |n + " {"| > 1 && (n + " {")[|n + " {"| - 1] == '{'
  {
    hide Safe;
    SafeWrap([], n, " {");
    assert [] + n + " {" == n + " {";
  }

  lemma {:induction false} TrimEndPrefix(s: string)
    ensures |TrimEnd(s)| <= |s| && TrimEnd(s) == s[..|TrimEnd(s)|]
  {
    if s != [] && IsWhitespace(s[|s| - 1]) {
      TrimEndPrefix(s[..|s| - 1]);
      assert s[..|s| - 1][..|TrimEnd(s)|] == s[..|TrimEnd(s)|];
    }
  }

  lemma ServiceHeaderCore(n: string)
    requires ServiceName(n)
    ensures Core(ServiceText(n)) && |ServiceText(n)| > 1 && ServiceText(n)[|ServiceText(n)| - 1] == '{'
    ensures StripPrefix(ServiceText(n), "service ") == Some(n + " {")
  {
    hide Safe;
    SafeWrap("service ", n, " {");
    assert ServiceText(n) == "service " + (n + " {");
    PrefixOfConcat("service ", n + " {");
  }

  /** A service header is not mistaken for another declaration. */
  lemma ServiceHeaderIsNew(n: string)
    ensures !IsSyntaxDecl(ServiceText(n)) && !IsBlockStart(ServiceText(n), "info")
    ensures !IsBlockStart(ServiceText(n), "@server") && !IsBlockStart(ServiceText(n), "type")
  {
    var s := ServiceText(n);
    assert s[0] == 's' && s[1] == 'e';
    NotPrefix("info", s, 0);
    NotPrefix("@server", s, 0);
    NotPrefix("type", s, 0);
    hide TrimEnd;
    var k := FindChar(s, '=');
    if k < |s| {
      assert forall i | 0 <= i < 8 :: s[i] == "service "[i] != '=';
      assert k >= 8;
      var head := s[..k];
      assert head[0] == 's' && head[1] == 'e';
      assert TrimStart(head) == head;
      TrimEndPrefix(head);
      assert |TrimEnd(head)| > 1 ==> TrimEnd(head)[1] == head[1];
    }
  }
}
