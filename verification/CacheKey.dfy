/** Cache keys of model rows (roze-cache, lib.rs). */
module CacheKey {
  import opened Prelude
  import opened Text

  /** Bytes that stand for themselves: ASCII letters and digits, underscore, hyphen and full stop. */
  predicate Plain(b: Byte) {
    (48 <= b <= 57) || (65 <= b <= 90) || (97 <= b <= 122) || b == 95 || b == 45 || b == 46
  }

  function HexDigit(n: int): char
    requires 0 <= n < 16
  {
    if n < 10 then '0' + n as char else 'A' + (n - 10) as char
  }

  function Escaped(b: Byte): string {
    if Plain(b) then [b as char] else ['%', HexDigit(b as int / 16), HexDigit(b as int % 16)]
  }

  function Escape(value: Bytes): string {
    if value == [] then "" else Escape(value[..|value| - 1]) + Escaped(value[|value| - 1])
  }

  /** `escape_cache_segment`: one byte after the other. */
  method EscapeCacheSegment(value: Bytes) returns (escaped: string)
    ensures escaped == Escape(value)
  {
    escaped := "";
    for i := 0 to |value|
      invariant escaped == Escape(value[..i])
    {
      assert value[..i + 1][..i] == value[..i];
      if Plain(value[i]) {
        escaped := escaped + [value[i] as char];
      } else {
        escaped := escaped + ['%', HexDigit(value[i] as int / 16), HexDigit(value[i] as int % 16)];
      }
    }
    assert value[..|value|] == value;
  }

  /** `model_cache_key`, on the bytes of its arguments. */
  function ModelCacheKey(prefix: Bytes, field: Bytes, value: Bytes): string {
    "model:v1:" + Escape(prefix) + ":" + Escape(field) + ":" + Escape(value)
  }

  // --------------------------------------------------------------- reading back

  function HexValue(c: char): int {
    if '0' <= c <= '9' then (c - '0') as int else if 'A' <= c <= 'F' then (c - 'A') as int + 10 else 0
  }

  /** Percent-decoding. */
  function Unescape(s: string): Bytes {
    if s == "" then []
    else if s[0] == '%' && |s| >= 3 then [(16 * HexValue(s[1]) + HexValue(s[2])) as Byte] + Unescape(s[3..])
    else [(s[0] as int % 256) as Byte] + Unescape(s[1..])
  }

  lemma HexReads(n: int)
    requires 0 <= n < 16
    ensures HexValue(HexDigit(n)) == n && HexDigit(n) != ':' && HexDigit(n) != '%'
  {
  }

  lemma EscapedReads(b: Byte, rest: string)
    ensures Unescape(Escaped(b) + rest) == [b] + Unescape(rest)
  {
    var s := Escaped(b) + rest;
    if Plain(b) {
      assert s[0] == b as char && s[1..] == rest;
    } else {
      HexReads(b as int / 16);
      HexReads(b as int % 16);
      assert s[0] == '%' && s[1] == HexDigit(b as int / 16) && s[2] == HexDigit(b as int % 16) && s[3..] == rest;
    }
  }

  lemma EscapeLast(value: Bytes)
    requires value != []
    ensures Escape(value) == Escape(value[..|value| - 1]) + Escaped(value[|value| - 1])
    ensures value == value[..|value| - 1] + [value[|value| - 1]]
  {
  }

  lemma Regroup<T>(a: seq<T>, b: seq<T>, c: seq<T>)
    ensures a + b + c == a + (b + c)
  {
  }

  lemma {:induction false} EscapeReads(value: Bytes, rest: string)
    ensures Unescape(Escape(value) + rest) == value + Unescape(rest)
  {
    if value == [] {
      assert Escape(value) + rest == rest;
    } else {
      hide Unescape, Escaped, Escape;
      var front, last := value[..|value| - 1], value[|value| - 1];
      EscapeLast(value);
      Regroup(Escape(front), Escaped(last), rest);
      EscapeReads(front, Escaped(last) + rest);
      EscapedReads(last, rest);
      Regroup(front, [last], Unescape(rest));
    }
  }

  /** Percent-decoding undoes the escape of every byte string. */
  lemma EscapeHasInverse(value: Bytes)
    ensures Unescape(Escape(value)) == value
  {
    EscapeReads(value, "");
    assert Escape(value) + "" == Escape(value);
  }

  lemma {:induction false} EscapeHasNoColon(value: Bytes)
    ensures ':' !in Escape(value)
  {
    if value != [] {
      var b := value[|value| - 1];
      EscapeHasNoColon(value[..|value| - 1]);
      HexReads(b as int / 16);
      HexReads(b as int % 16);
    }
  }

  function ParseKey(key: string): Option<(Bytes, Bytes, Bytes)> {
    var parts := Split(key, ':');
    if |parts| == 5 && parts[0] == "model" && parts[1] == "v1"
    then Some((Unescape(parts[2]), Unescape(parts[3]), Unescape(parts[4])))
    else None
  }

  /** A key can be taken apart again, whatever bytes went in. */
  lemma KeyReads(prefix: Bytes, field: Bytes, value: Bytes)
    ensures ParseKey(ModelCacheKey(prefix, field, value)) == Some((prefix, field, value))
  {
    hide Split, Escape, Unescape;
    var p, f, v := Escape(prefix), Escape(field), Escape(value);
    EscapeHasNoColon(prefix);
    EscapeHasNoColon(field);
    EscapeHasNoColon(value);
    EscapeHasInverse(prefix);
    EscapeHasInverse(field);
    EscapeHasInverse(value);
    var tail := p + [':'] + (f + [':'] + v);
    SplitWhole(v, ':');
    SplitHead(f, ':', v);
    SplitHead(p, ':', f + [':'] + v);
    SplitHead("v1", ':', tail);
    SplitHead("model", ':', "v1" + [':'] + tail);
    assert ModelCacheKey(prefix, field, value) == "model" + [':'] + ("v1" + [':'] + tail);
    assert Split(ModelCacheKey(prefix, field, value), ':') == ["model", "v1", p, f, v];
  }

  /** Keys never collide. */
  lemma KeysAreInjective(p: Bytes, f: Bytes, v: Bytes, p': Bytes, f': Bytes, v': Bytes)
    requires ModelCacheKey(p, f, v) == ModelCacheKey(p', f', v')
    ensures p == p' && f == f' && v == v'
  {
    KeyReads(p, f, v);
    KeyReads(p', f', v');
  }
}
