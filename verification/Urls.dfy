/** The URLs the shell prints for its windows and pictures and reads back when they are asked
    for (mindshell/src/icons.rs, bridge.rs, scheme.rs). Text is its UTF-8 bytes, each written
    as the character of its code; escapes are those of section 2.1 of RFC 3986 over the
    unreserved set of its section 2.3. */
module Urls {
  import opened Common
  import LayoutIds

  predicate IsBytes(s: string) {
    forall i :: 0 <= i < |s| ==> s[i] as int < 256
  }

  // ----------------------------------------------------------------------- escapes

  predicate Unreserved(c: char) {
    'A' <= c <= 'Z' || 'a' <= c <= 'z' || '0' <= c <= '9' || c == '-' || c == '_' || c == '.' || c == '~'
  }

  function HexDigit(d: nat): char
    requires d < 16
  {
    "0123456789ABCDEF"[d]
  }

  function EncodeByte(c: char): (r: string)
    requires c as int < 256
    ensures |r| == 1 || |r| == 3
  {
    if Unreserved(c) then [c] else ['%', HexDigit(c as int / 16), HexDigit(c as int % 16)]
  }

  function Encode(s: string): string
    requires IsBytes(s)
  {
    if s == "" then "" else EncodeByte(s[0]) + Encode(s[1..])
  }

  function HexValue(c: char): Option<nat> {
    if '0' <= c <= '9' then Some(c as int - '0' as int)
    else if 'A' <= c <= 'F' then Some(c as int - 'A' as int + 10)
    else if 'a' <= c <= 'f' then Some(c as int - 'a' as int + 10)
    else None
  }

  /** `u8::from_str_radix(_, 16)` of two characters, which also takes a leading plus. */
  function ParseHex(a: char, b: char): (r: Option<char>)
    ensures r.Some? ==> r.value as int < 256
  {
    var (x, y) := (HexValue(a), HexValue(b));
    if y.None? then None
    else if a == '+' then Some(y.value as char)
    else if x.None? then None
    else Some((x.value * 16 + y.value) as char)
  }

  /** A byte inside a UTF-8 sequence: text cannot be cut in front of it. */
  predicate Continuation(c: char) {
    128 <= c as int < 192
  }

  /** Decoding from one end to the other; nothing comes out when the text is cut inside a
      character, where the source panics. */
  function Decode(s: string): Option<string> {
    if s == "" then Some("")
    else if s[0] == '%' && |s| > 2 then
      if |s| > 3 && Continuation(s[3]) then None
      else
        var v := ParseHex(s[1], s[2]);
        if v.Some? then Push(v.value, Decode(s[3..])) else Push('%', Decode(s[1..]))
    else Push(if s[0] == '+' then ' ' else s[0], Decode(s[1..]))
  }

  function Push(c: char, rest: Option<string>): Option<string> {
    if rest.None? then None else Some([c] + rest.value)
  }

  function Glue(out: string, rest: Option<string>): Option<string> {
    if rest.None? then None else Some(out + rest.value)
  }

  lemma GluePush(out: string, c: char, rest: Option<string>)
    ensures Glue(out, Push(c, rest)) == Glue(out + [c], rest)
  {
    if rest.Some? { assert out + ([c] + rest.value) == out + [c] + rest.value; }
  }

  lemma {:induction false} EncodeAppend(s: string, c: char)
    requires IsBytes(s) && c as int < 256
    ensures Encode(s + [c]) == Encode(s) + EncodeByte(c)
  {
    if s == "" {
      assert s + [c] == [c];
      assert [c][1..] == [];
    } else {
      assert (s + [c])[1..] == s[1..] + [c];
      EncodeAppend(s[1..], c);
    }
  }

  method PercentEncode(s: string) returns (out: string)
    requires IsBytes(s)
    ensures out == Encode(s)
  {
    out := "";
    for i := 0 to |s|
      invariant out == Encode(s[..i])
    {
      EncodeAppend(s[..i], s[i]);
      assert s[..i + 1] == s[..i] + [s[i]];
      if Unreserved(s[i]) {
        out := out + [s[i]];
      } else {
        out := out + ['%', HexDigit(s[i] as int / 16), HexDigit(s[i] as int % 16)];
      }
    }
    assert s[..|s|] == s;
  }

  method PercentDecode(s: string) returns (r: Option<string>)
    ensures r == Decode(s)
  {
    var out := "";
    var i := 0;
    assert s[0..] == s;
    assert Glue("", Decode(s)) == Decode(s)
      by { if Decode(s).Some? { assert "" + Decode(s).value == Decode(s).value; } }
    while i < |s|
      invariant 0 <= i <= |s| && Glue(out, Decode(s[i..])) == Decode(s)
    {
      var rest := s[i..];
      DecodeStep(out, rest);
      if s[i] == '%' && i + 2 < |s| {
        if i + 3 < |s| && Continuation(s[i + 3]) {
          return None;
        }
        var v := ParseHex(s[i + 1], s[i + 2]);
        if v.Some? {
          assert rest[3..] == s[i + 3..];
          out := out + [v.value];
          i := i + 3;
          continue;
        }
      }
      assert rest[1..] == s[i + 1..];
      out := out + [if s[i] == '+' then ' ' else s[i]];
      i := i + 1;
    }
    assert s[i..] == "" && out + "" == out;
    return Some(out);
  }

  lemma DecodeStep(out: string, s: string)
    requires s != ""
    ensures Glue(out, Decode(s)) ==
      if s[0] == '%' && |s| > 2 && |s| > 3 && Continuation(s[3]) then None
      else if s[0] == '%' && |s| > 2 && ParseHex(s[1], s[2]).Some?
        then Glue(out + [ParseHex(s[1], s[2]).value], Decode(s[3..]))
      else Glue(out + [if s[0] == '+' then ' ' else s[0]], Decode(s[1..]))
  {
    var c := if s[0] == '+' then ' ' else s[0];
    GluePush(out, c, Decode(s[1..]));
    if s[0] == '%' && |s| > 2 && ParseHex(s[1], s[2]).Some? {
      GluePush(out, ParseHex(s[1], s[2]).value, Decode(s[3..]));
    }
  }

  lemma HexRoundTrip(c: char)
    requires c as int < 256
    ensures ParseHex(HexDigit(c as int / 16), HexDigit(c as int % 16)) == Some(c)
  {
    var n := c as int;
    DigitValue(n / 16);
    DigitValue(n % 16);
    hide HexDigit, HexValue;
    assert n / 16 * 16 + n % 16 == n;
  }

  lemma DigitValue(d: nat)
    requires d < 16
    ensures HexValue(HexDigit(d)) == Some(d) && HexDigit(d) != '+'
  {
  }

  /** What `Encode` prints: unreserved characters and escapes, nothing a URL gives meaning to. */
  lemma {:induction false} EncodeAlphabet(s: string)
    requires IsBytes(s)
    ensures forall i :: 0 <= i < |Encode(s)| ==> Unreserved(Encode(s)[i]) || Encode(s)[i] == '%'
  {
    if s != "" { EncodeAlphabet(s[1..]); }
  }

  /** Every text survives: decoding what was encoded gives it back. */
  lemma {:induction false} DecodeEncode(s: string)
    requires IsBytes(s)
    ensures Decode(Encode(s)) == Some(s)
  {
    if s != "" {
      var c, rest := s[0], Encode(s[1..]);
      DecodeEncode(s[1..]);
      EncodeAlphabet(s[1..]);
      HexRoundTrip(c);
      var e := Encode(s);
      if Unreserved(c) {
        assert e[0] == c && e[1..] == rest;
      } else {
        assert e[0] == '%' && e[1] == HexDigit(c as int / 16) && e[2] == HexDigit(c as int % 16) && e[3..] == rest;
        assert |e| > 3 ==> e[3] == rest[0];
      }
      assert s == [c] + s[1..];
    }
  }

  ghost predicate CutsCharacter(s: string, i: nat) {
    i + 3 < |s| && s[i] == '%' && Continuation(s[i + 3])
  }

  /** Decoding fails exactly when some percent sign has the inside of a character three bytes
      on: no escape can swallow a percent sign, so each of them is reached. */
  lemma {:induction false} DecodeFailsIff(s: string)
    ensures Decode(s).None? <==> exists i: nat :: CutsCharacter(s, i)
  {
    if s != "" {
      var n := if s[0] == '%' && |s| > 2 && ParseHex(s[1], s[2]).Some? then 3 else 1;
      DecodeFailsIff(s[n..]);
      if i: nat :| CutsCharacter(s, i) && i > 0 {
        assert i >= n;
        assert CutsCharacter(s[n..], i - n);
      }
      if j: nat :| CutsCharacter(s[n..], j) {
        assert CutsCharacter(s, n + j);
      }
      if CutsCharacter(s, 0) {
        assert Decode(s).None?;
      }
    }
  }

  /** A percent sign before a three-byte character, the euro sign: all of it valid UTF-8. */
  lemma DecodeCanFail(s: string)
    requires s == ['%', 0xE2 as char, 0x82 as char, 0xAC as char]
    ensures IsBytes(s) && Decode(s).None?
  {
    assert CutsCharacter(s, 0);
    DecodeFailsIff(s);
  }

  /** And a plus sign passes for a hexadecimal digit. */
  lemma DecodeTakesPlus()
    ensures Decode("%+F") == Some([15 as char])
  {
    var s := "%+F";
    assert s[0] == '%' && s[1] == '+' && s[2] == 'F' && s[3..] == "";
    assert ParseHex('+', 'F') == Some(15 as char);
    assert Decode("") == Some("");
    assert [15 as char] + "" == [15 as char];
  }

  // -------------------------------------------------------------------- taking apart

  function Join(parts: seq<string>, separator: char): string {
    if parts == [] then "" else if |parts| == 1 then parts[0] else parts[0] + [separator] + Join(parts[1..], separator)
  }

  /** `split`: always at least one part. */
  function Split(s: string, separator: char): (r: seq<string>)
    ensures r != []
  {
    if s == "" then [""]
    else
      var rest := Split(s[1..], separator);
      if s[0] == separator then [""] + rest else [[s[0]] + rest[0]] + rest[1..]
  }

  /** `split_once`: around the first separator. */
  function SplitOnce(s: string, separator: char): Option<(string, string)> {
    if s == "" then None
    else if s[0] == separator then Some(("", s[1..]))
    else
      var rest := SplitOnce(s[1..], separator);
      if rest.None? then None else Some(([s[0]] + rest.value.0, rest.value.1))
  }

  function StripPrefix(s: string, prefix: string): Option<string> {
    if prefix <= s then Some(s[|prefix|..]) else None
  }

  /** `split_uri`. */
  function SplitUri(uri: string): Option<(string, string)> {
    match StripPrefix(uri, "mindos://")
    case None => None
    case Some(rest) =>
      var (hostpath, query) := match SplitOnce(rest, '?') case Some((p, q)) => (p, q) case None => (rest, "");
      var (host, path) := match SplitOnce(hostpath, '/') case Some((h, p)) => (h, "/" + p) case None => (hostpath, "/");
      if host != "shell" then None else Some((path, query))
  }

  datatype Param = Missing | Found(value: string) | Panics

  function FirstWith(parts: seq<string>, key: string): Option<string> {
    if parts == [] then None
    else
      var kv := SplitOnce(parts[0], '=');
      if kv.Some? && kv.value.0 == key then Some(kv.value.1) else FirstWith(parts[1..], key)
  }

  /** `query_param`. */
  function QueryParam(query: string, key: string): Param {
    match FirstWith(Split(query, '&'), key)
    case None => Missing
    case Some(v) => match Decode(v) case Some(value) => Found(value) case None => Panics
  }

  lemma {:induction false} SplitOnceAt(a: string, separator: char, b: string)
    requires separator !in a
    ensures SplitOnce(a + [separator] + b, separator) == Some((a, b))
  {
    var s := a + [separator] + b;
    if a == "" {
      assert s[0] == separator && s[1..] == b;
    } else {
      assert s[1..] == a[1..] + [separator] + b;
      SplitOnceAt(a[1..], separator, b);
      assert [a[0]] + a[1..] == a;
    }
  }

  lemma {:induction false} SplitOnceNone(a: string, separator: char)
    requires separator !in a
    ensures SplitOnce(a, separator) == None
  {
    if a != "" { SplitOnceNone(a[1..], separator); }
  }

  lemma {:induction false} SplitNone(a: string, separator: char)
    requires separator !in a
    ensures Split(a, separator) == [a]
  {
    if a != "" {
      SplitNone(a[1..], separator);
      assert [a[0]] + a[1..] == a;
    }
  }

  lemma {:induction false} SplitAt(a: string, separator: char, b: string)
    requires separator !in a
    ensures Split(a + [separator] + b, separator) == [a] + Split(b, separator)
  {
    var s := a + [separator] + b;
    if a == "" {
      assert s[0] == separator && s[1..] == b;
    } else {
      assert s[1..] == a[1..] + [separator] + b;
      SplitAt(a[1..], separator, b);
      assert [a[0]] + a[1..] == a;
    }
  }

  /** Splitting undoes joining, for any parts without the separator. */
  lemma {:induction false} SplitJoin(parts: seq<string>, separator: char)
    requires parts != [] && forall p :: p in parts ==> separator !in p
    ensures Split(Join(parts, separator), separator) == parts
  {
    if |parts| == 1 {
      SplitNone(parts[0], separator);
    } else {
      SplitAt(parts[0], separator, Join(parts[1..], separator));
      SplitJoin(parts[1..], separator);
    }
  }

  // ------------------------------------------------------------------------ queries

  datatype Pair = Pair(key: string, value: string)

  predicate GoodKey(key: string) {
    '&' !in key && '=' !in key && '?' !in key
  }

  ghost predicate GoodPairs(pairs: seq<Pair>) {
    forall p :: p in pairs ==> GoodKey(p.key) && IsBytes(p.value)
  }

  lemma GoodConcat(a: seq<Pair>, b: seq<Pair>)
    ensures GoodPairs(a + b) <==> GoodPairs(a) && GoodPairs(b)
  {
  }

  function PartOf(p: Pair): string
    requires IsBytes(p.value)
  {
    p.key + "=" + Encode(p.value)
  }

  ghost function Parts(pairs: seq<Pair>): (r: seq<string>)
    requires GoodPairs(pairs)
    ensures |r| == |pairs|
  {
    if pairs == [] then [] else [PartOf(pairs[0])] + Parts(pairs[1..])
  }

  function Lookup(pairs: seq<Pair>, key: string): Param {
    if pairs == [] then Missing else if pairs[0].key == key then Found(pairs[0].value) else Lookup(pairs[1..], key)
  }

  lemma EncodeFree(s: string, c: char)
    requires IsBytes(s) && !Unreserved(c) && c != '%'
    ensures c !in Encode(s)
  {
    EncodeAlphabet(s);
  }

  lemma {:induction false} PartsFree(pairs: seq<Pair>, c: char)
    requires GoodPairs(pairs) && (c == '&' || c == '?')
    ensures forall p :: p in Parts(pairs) ==> c !in p
  {
    if pairs != [] {
      EncodeFree(pairs[0].value, c);
      assert c !in PartOf(pairs[0]);
      PartsFree(pairs[1..], c);
    }
  }

  lemma {:induction false} FirstWithParts(pairs: seq<Pair>, key: string)
    requires GoodPairs(pairs)
    ensures match FirstWith(Parts(pairs), key)
      case None => Lookup(pairs, key) == Missing
      case Some(v) => match Decode(v) case Some(value) => Lookup(pairs, key) == Found(value) case None => false
  {
    if pairs != [] {
      var p := pairs[0];
      SplitOnceAt(p.key, '=', Encode(p.value));
      assert Parts(pairs)[0] == PartOf(p) && Parts(pairs)[1..] == Parts(pairs[1..]);
      DecodeEncode(p.value);
      FirstWithParts(pairs[1..], key);
      hide SplitOnce, Encode, Decode;
    }
  }

  /** A query printed from pairs reads back as their first value for the key, or as missing. */
  lemma QueryRoundTrip(pairs: seq<Pair>, key: string)
    requires pairs != [] && GoodPairs(pairs)
    ensures QueryParam(Join(Parts(pairs), '&'), key) == Lookup(pairs, key)
  {
    PartsFree(pairs, '&');
    SplitJoin(Parts(pairs), '&');
    FirstWithParts(pairs, key);
    hide Parts, Join, Split, FirstWith, Decode;
  }

  // --------------------------------------------------------------------------- URLs

  const SCHEME := "mindos://"
  const HOST := "shell"
  const PAGE := "app/index.html"

  /** What follows the origin comes apart where it was put together. */
  lemma SplitUriAt(path: string, query: string)
    requires '?' !in path
    ensures SplitUri(SCHEME + HOST + "/" + path + "?" + query) == Some(("/" + path, query))
    ensures SplitUri(SCHEME + HOST + "/" + path) == Some(("/" + path, ""))
  {
    var hostpath := HOST + "/" + path;
    var uri := SCHEME + HOST + "/" + path;
    assert uri[|SCHEME|..] == hostpath;
    assert (uri + "?" + query)[|SCHEME|..] == hostpath + "?" + query;
    assert '?' !in HOST && '/' !in HOST;
    hide SplitOnce;
    SplitOnceAt(hostpath, '?', query);
    SplitOnceNone(hostpath, '?');
    SplitOnceAt(HOST, '/', path);
  }

  /** Only the shell's own host is served, with or without a path. */
  lemma SplitUriHost(host: string, path: string)
    requires '?' !in host && '/' !in host && '?' !in path
    ensures SplitUri(SCHEME + host + "/" + path).Some? <==> host == HOST
    ensures SplitUri(SCHEME + host) == if host == HOST then Some(("/", "")) else None
  {
    var hostpath := host + "/" + path;
    assert (SCHEME + host + "/" + path)[|SCHEME|..] == hostpath;
    assert (SCHEME + host)[|SCHEME|..] == host;
    hide SplitOnce;
    SplitOnceNone(hostpath, '?');
    SplitOnceNone(host, '?');
    SplitOnceNone(host, '/');
    SplitOnceAt(host, '/', path);
  }

  datatype Json = Null | Text(text: string)

  function Optional(key: string, value: Option<string>): seq<Pair> {
    if value.Some? then [Pair(key, value.value)] else []
  }

  /** A JSON null is left out like a value that is not there. */
  function Present(value: Option<Json>): Option<string> {
    if value.Some? && value.value.Text? then Some(value.value.text) else None
  }

  /** What a window's URL says about it. */
  datatype Window = Window(kind: string, id: string, output: string, popup: Option<string>, arg: Option<Json>,
      anchor: Option<Json>)

  function BasePairs(w: Window): seq<Pair> {
    [Pair("kind", w.kind)] + [Pair("id", w.id)] + [Pair("output", w.output)]
  }

  function WindowPairs(w: Window): seq<Pair> {
    BasePairs(w) + Optional("popup", w.popup) + Optional("arg", Present(w.arg)) + Optional("anchor", Present(w.anchor))
  }

  predicate OptionalBytes(value: Option<string>) {
    value.Some? ==> IsBytes(value.value)
  }

  ghost predicate AllBytes(w: Window) {
    && IsBytes(w.kind) && IsBytes(w.id) && IsBytes(w.output)
    && OptionalBytes(w.popup) && OptionalBytes(Present(w.arg)) && OptionalBytes(Present(w.anchor))
  }

  lemma GoodKeys()
    ensures GoodKey("kind") && GoodKey("id") && GoodKey("output") && GoodKey("popup") && GoodKey("arg") &&
      GoodKey("anchor")
  {
  }

  lemma GoodOptional(key: string, value: Option<string>)
    requires GoodKey(key) && OptionalBytes(value)
    ensures GoodPairs(Optional(key, value))
  {
  }

  lemma GoodOne(key: string, value: string)
    requires GoodKey(key) && IsBytes(value)
    ensures GoodPairs([Pair(key, value)])
  {
  }

  lemma BaseGood(w: Window)
    requires AllBytes(w)
    ensures GoodPairs(BasePairs(w))
  {
    GoodKeys();
    hide GoodKey, GoodPairs, IsBytes;
    GoodOne("kind", w.kind);
    GoodOne("id", w.id);
    GoodOne("output", w.output);
    GoodConcat([Pair("kind", w.kind)], [Pair("id", w.id)]);
    GoodConcat([Pair("kind", w.kind)] + [Pair("id", w.id)], [Pair("output", w.output)]);
  }

  lemma WindowGood(w: Window)
    requires AllBytes(w)
    ensures GoodPairs(WindowPairs(w))
  {
    GoodKeys();
    hide GoodKey, GoodPairs, IsBytes, BasePairs, Optional, OptionalBytes;
    var a, b, c, d := BasePairs(w), Optional("popup", w.popup), Optional("arg", Present(w.arg)),
      Optional("anchor", Present(w.anchor));
    BaseGood(w);
    GoodOptional("popup", w.popup);
    GoodOptional("arg", Present(w.arg));
    GoodOptional("anchor", Present(w.anchor));
    GoodConcat(a, b);
    GoodConcat(a + b, c);
    GoodConcat(a + b + c, d);
  }

  lemma {:induction false} PartsAppend(pairs: seq<Pair>, p: Pair)
    requires GoodPairs(pairs + [p]) && GoodPairs(pairs) && IsBytes(p.value)
    ensures Parts(pairs + [p]) == Parts(pairs) + [PartOf(p)]
  {
    if pairs == [] {
      assert pairs + [p] == [p];
      assert [p][1..] == [];
    } else {
      assert (pairs + [p])[1..] == pairs[1..] + [p];
      PartsAppend(pairs[1..], p);
    }
  }

  lemma {:induction false} JoinAppend(parts: seq<string>, part: string, separator: char)
    requires parts != []
    ensures Join(parts + [part], separator) == Join(parts, separator) + [separator] + part
  {
    if |parts| == 1 {
      assert (parts + [part])[1..] == [part];
      assert Join([part], separator) == part;
    } else {
      assert (parts + [part])[1..] == parts[1..] + [part];
      JoinAppend(parts[1..], part, separator);
    }
  }

  ghost function QueryText(pairs: seq<Pair>): string
    requires GoodPairs(pairs)
  {
    Join(Parts(pairs), '&')
  }

  lemma QueryAppend(pairs: seq<Pair>, p: Pair)
    requires pairs != [] && GoodPairs(pairs + [p])
    ensures GoodPairs(pairs) && IsBytes(p.value)
    ensures QueryText(pairs + [p]) == QueryText(pairs) + "&" + p.key + "=" + Encode(p.value)
  {
    hide Encode, Join, IsBytes, GoodKey, Parts;
    assert forall q :: q in pairs ==> q in pairs + [p];
    assert p in pairs + [p];
    PartsAppend(pairs, p);
    JoinAppend(Parts(pairs), PartOf(p), '&');
  }

  method AppendParam(text: string, ghost pairs: seq<Pair>, key: string, value: Option<string>) returns (r: string)
    requires pairs != [] && GoodPairs(pairs + Optional(key, value))
    requires GoodPairs(pairs) && text == QueryText(pairs)
    ensures r == QueryText(pairs + Optional(key, value))
  {
    r := text;
    if value.Some? {
      QueryAppend(pairs, Pair(key, value.value));
      hide QueryText, Encode;
      var e := PercentEncode(value.value);
      r := r + "&" + key + "=" + e;
    } else {
      assert pairs + [] == pairs;
    }
  }

  lemma BaseQuery(w: Window)
    requires AllBytes(w)
    ensures GoodPairs(BasePairs(w))
    ensures QueryText(BasePairs(w)) ==
      "kind" + "=" + Encode(w.kind) + "&" + "id" + "=" + Encode(w.id) + "&" + "output" + "=" + Encode(w.output)
  {
    BaseGood(w);
    hide GoodPairs, QueryText, Encode, IsBytes;
    var a, b, c := Pair("kind", w.kind), Pair("id", w.id), Pair("output", w.output);
    GoodConcat([a] + [b], [c]);
    GoodConcat([a], [b]);
    QueryAppend([a], b);
    QueryAppend([a] + [b], c);
  }

  /** `window_url`: the origin and page, then the query. */
  method WindowUrl(w: Window) returns (url: string)
    requires AllBytes(w)
    ensures GoodPairs(WindowPairs(w)) && url == SCHEME + HOST + "/" + PAGE + "?" + QueryText(WindowPairs(w))
  {
    ghost var a, b, c, d := BasePairs(w), Optional("popup", w.popup), Optional("arg", Present(w.arg)),
      Optional("anchor", Present(w.anchor));
    WindowGood(w);
    BaseQuery(w);
    assert a != [];
    hide GoodPairs, QueryText, Encode, IsBytes, Optional, BasePairs;
    GoodConcat(a + b + c, d);
    GoodConcat(a + b, c);
    var text := BaseText(w);
    text := AppendParam(text, a, "popup", w.popup);
    text := AppendParam(text, a + b, "arg", Present(w.arg));
    text := AppendParam(text, a + b + c, "anchor", Present(w.anchor));
    url := SCHEME + HOST + "/" + PAGE + "?" + text;
  }

  method BaseText(w: Window) returns (text: string)
    requires AllBytes(w)
    ensures text == "kind" + "=" + Encode(w.kind) + "&" + "id" + "=" + Encode(w.id) + "&" + "output" + "=" +
      Encode(w.output)
  {
    hide Encode, IsBytes;
    var kind := PercentEncode(w.kind);
    var id := PercentEncode(w.id);
    var output := PercentEncode(w.output);
    text := "kind" + "=" + kind + "&" + "id" + "=" + id + "&" + "output" + "=" + output;
  }

  ghost predicate UrlOf(w: Window, url: string) {
    GoodPairs(WindowPairs(w)) && url == SCHEME + HOST + "/" + PAGE + "?" + QueryText(WindowPairs(w))
  }

  lemma WindowUrlQuery(w: Window, url: string, key: string)
    requires UrlOf(w, url)
    ensures SplitUri(url).Some? && SplitUri(url).value.0 == "/" + PAGE
    ensures QueryParam(SplitUri(url).value.1, key) == Lookup(WindowPairs(w), key)
  {
    assert '?' !in PAGE;
    hide SplitUri, QueryParam, GoodPairs, WindowPairs, Lookup, Parts, Join;
    SplitUriAt(PAGE, QueryText(WindowPairs(w)));
    assert WindowPairs(w) != [];
    QueryRoundTrip(WindowPairs(w), key);
  }

  /** A window's page reads back everything its URL was made of, and nothing that was not
      given: absent and null values are missing, and so is any other key. */
  lemma WindowUrlRoundTrip(w: Window, url: string, key: string)
    requires UrlOf(w, url)
    ensures SplitUri(url).Some? && SplitUri(url).value.0 == "/" + PAGE
    ensures QueryParam(SplitUri(url).value.1, key) ==
      if key == "kind" then Found(w.kind) else if key == "id" then Found(w.id)
      else if key == "output" then Found(w.output)
      else if key == "popup" then Given(w.popup) else if key == "arg" then Given(Present(w.arg))
      else if key == "anchor" then Given(Present(w.anchor)) else Missing
  {
    hide SplitUri, QueryParam, UrlOf, Lookup, WindowPairs;
    WindowUrlQuery(w, url, key);
    LookupKey(w, key);
  }

  function Given(value: Option<string>): Param {
    if value.Some? then Found(value.value) else Missing
  }

  lemma {:induction false} LookupConcat(a: seq<Pair>, b: seq<Pair>, key: string)
    ensures Lookup(a + b, key) == if Lookup(a, key) == Missing then Lookup(b, key) else Lookup(a, key)
  {
    if a == [] {
      assert a + b == b;
    } else {
      assert (a + b)[1..] == a[1..] + b;
      LookupConcat(a[1..], b, key);
    }
  }

  lemma LookupOptional(k: string, value: Option<string>, key: string)
    ensures Lookup(Optional(k, value), key) == if k == key then Given(value) else Missing
  {
  }

  lemma LookupOne(k: string, v: string, key: string)
    ensures Lookup([Pair(k, v)], key) == if k == key then Found(v) else Missing
  {
  }

  lemma LookupKey(w: Window, k: string)
    ensures Lookup(WindowPairs(w), k) ==
      if k == "kind" then Found(w.kind) else if k == "id" then Found(w.id) else if k == "output" then Found(w.output)
      else if k == "popup" then Given(w.popup) else if k == "arg" then Given(Present(w.arg))
      else if k == "anchor" then Given(Present(w.anchor)) else Missing
  {
    hide Lookup, Optional;
    var p1, p2, p3 := [Pair("kind", w.kind)], [Pair("id", w.id)], [Pair("output", w.output)];
    var b, c, d := Optional("popup", w.popup), Optional("arg", Present(w.arg)), Optional("anchor", Present(w.anchor));
    LookupConcat(p1 + p2 + p3 + b + c, d, k);
    LookupConcat(p1 + p2 + p3 + b, c, k);
    LookupConcat(p1 + p2 + p3, b, k);
    LookupConcat(p1 + p2, p3, k);
    LookupConcat(p1, p2, k);
    LookupOne("kind", w.kind, k);
    LookupOne("id", w.id, k);
    LookupOne("output", w.output, k);
    LookupOptional("popup", w.popup, k);
    LookupOptional("arg", Present(w.arg), k);
    LookupOptional("anchor", Present(w.anchor), k);
  }

  // ------------------------------------------------------------- pictures and thumbnails

  function FileUrl(path: string): string
    requires IsBytes(path)
  {
    SCHEME + HOST + "/" + "file/" + Encode(path)
  }

  function ThumbUrl(path: string, width: int): string
    requires IsBytes(path)
  {
    SCHEME + HOST + "/" + "thumb/" + Encode(path) + "?" + ("w=" + IntText(width))
  }

  function IntText(n: int): string {
    if n < 0 then "-" + LayoutIds.Decimal(-n) else LayoutIds.Decimal(n)
  }

  function ParseNat(s: string): Option<nat> {
    if s == "" then None
    else
      var last := s[|s| - 1];
      if !('0' <= last <= '9') then None
      else
        var d := last as int - '0' as int;
        if |s| == 1 then Some(d)
        else
          var front := ParseNat(s[..|s| - 1]);
          if front.None? then None else Some(front.value * 10 + d)
  }

  function Signed(minus: bool, n: int): int {
    if minus then -n else n
  }

  /** `parse::<i32>`. */
  function ParseI32(s: string): Option<int> {
    var sign := s != "" && (s[0] == '-' || s[0] == '+');
    var n := ParseNat(if sign then s[1..] else s);
    if n.None? then None
    else
      var v := Signed(sign && s[0] == '-', n.value);
      if -0x8000_0000 <= v < 0x8000_0000 then Some(v) else None
  }

  lemma {:induction false} ParseDecimal(n: nat)
    ensures ParseNat(LayoutIds.Decimal(n)) == Some(n)
  {
    var s := LayoutIds.Decimal(n);
    assert LayoutIds.Digit(n % 10) as int == '0' as int + n % 10;
    if n < 10 {
      assert n % 10 == n;
    } else {
      ParseDecimal(n / 10);
      assert s[..|s| - 1] == LayoutIds.Decimal(n / 10);
    }
  }

  lemma ParseIntText(n: int)
    requires -0x8000_0000 <= n < 0x8000_0000
    ensures ParseI32(IntText(n)) == Some(n)
  {
    var size := if n < 0 then -n else n;
    ParseDecimal(size);
    FirstIsDigit(size);
    hide LayoutIds.Decimal, ParseNat, ParseI32;
    ParseSigned(LayoutIds.Decimal(size), size);
  }

  lemma ParseSigned(digits: string, n: nat)
    requires digits != "" && digits[0] != '-' && digits[0] != '+' && ParseNat(digits) == Some(n)
    ensures n < 0x8000_0000 ==> ParseI32(digits) == Some(n)
    ensures n <= 0x8000_0000 ==> ParseI32("-" + digits) == Some(0 - n as int)
  {
    hide ParseNat;
    assert ("-" + digits)[1..] == digits;
  }

  lemma FirstIsDigit(n: nat)
    ensures LayoutIds.Decimal(n)[0] != '-' && LayoutIds.Decimal(n)[0] != '+'
  {
    assert LayoutIds.Decimal(n)[0] in "0123456789";
  }

  /** Without escapes and plus signs a text decodes to itself. */
  lemma {:induction false} DecodePlain(s: string)
    requires '%' !in s && '+' !in s
    ensures Decode(s) == Some(s)
  {
    if s != "" {
      DecodePlain(s[1..]);
      assert [s[0]] + s[1..] == s;
    }
  }

  lemma IntTextPlain(n: int)
    ensures forall c :: c in IntText(n) ==> c in "-0123456789"
  {
  }

  lemma PictureUri(dir: string, tail: string, query: string)
    requires '?' !in dir && '?' !in tail
    ensures SplitUri(SCHEME + HOST + "/" + dir + tail + "?" + query) == Some(("/" + dir + tail, query))
    ensures SplitUri(SCHEME + HOST + "/" + dir + tail) == Some(("/" + dir + tail, ""))
    ensures StripPrefix("/" + dir + tail, "/" + dir) == Some(tail)
  {
    hide SplitUri;
    var path := dir + tail;
    SplitUriAt(path, query);
    assert "/" + path == "/" + dir + tail;
    assert SCHEME + HOST + "/" + path == SCHEME + HOST + "/" + dir + tail;
    assert ("/" + dir + tail)[|"/" + dir|..] == tail;
  }

  /** The path in a picture's URL comes back as it was. */
  lemma FileUrlRoundTrip(path: string)
    requires IsBytes(path)
    ensures SplitUri(FileUrl(path)) == Some(("/" + "file/" + Encode(path), ""))
    ensures StripPrefix("/" + "file/" + Encode(path), "/" + "file/") == Some(Encode(path)) &&
      Decode(Encode(path)) == Some(path)
  {
    DecodeEncode(path);
    EncodeFree(path, '?');
    hide SplitUri, Encode, Decode, StripPrefix, IsBytes;
    PictureUri("file/", Encode(path), "");
  }

  /** And so do the path and the width in a thumbnail's. */
  lemma ThumbUrlRoundTrip(path: string, width: int)
    requires IsBytes(path) && -0x8000_0000 <= width < 0x8000_0000
    ensures SplitUri(ThumbUrl(path, width)) == Some(("/" + "thumb/" + Encode(path), "w=" + IntText(width)))
    ensures StripPrefix("/" + "thumb/" + Encode(path), "/" + "thumb/") == Some(Encode(path)) &&
      Decode(Encode(path)) == Some(path)
    ensures QueryParam("w=" + IntText(width), "w") == Found(IntText(width)) && ParseI32(IntText(width)) == Some(width)
  {
    DecodeEncode(path);
    EncodeFree(path, '?');
    ParseIntText(width);
    WidthParam(width);
    hide SplitUri, Encode, Decode, IntText, QueryParam, ParseI32, StripPrefix, IsBytes;
    PictureUri("thumb/", Encode(path), "w=" + IntText(width));
  }

  lemma WidthParam(width: int)
    ensures QueryParam("w=" + IntText(width), "w") == Found(IntText(width))
  {
    var t := IntText(width);
    IntTextPlain(width);
    hide IntText;
    assert '&' !in "-0123456789" && '%' !in "-0123456789" && '+' !in "-0123456789";
    SplitNone("w=" + t, '&');
    SplitOnceAt("w", '=', t);
    assert "w" + ['='] + t == "w=" + t;
    DecodePlain(t);
    hide Split, SplitOnce, Decode;
  }
}
