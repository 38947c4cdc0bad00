/** `URLSearchParams` as the admin service uses it: name/value pairs
    appended in order and serialised in the
    `application/x-www-form-urlencoded` format of the WHATWG URL Standard
    (section 5.2, "application/x-www-form-urlencoded serializing"). */
module Query {

  import opened Json
  import Seqs

  /** `s.split(sep)`: always at least one piece. */
  function Split(s: string, sep: char): (parts: seq<string>)
    ensures |parts| >= 1
    decreases |s|
  {
    var i := IndexOf(s, sep);
    if i == |s| then [s] else [s[..i]] + Split(s[i + 1..], sep)
  }

  /** `parts.join(sep)`. */
  function Join(parts: seq<string>, sep: char): string {
    if parts == [] then ""
    else if |parts| == 1 then parts[0]
    else parts[0] + [sep] + Join(parts[1..], sep)
  }

  /** Splitting a join of separator-free pieces gives the pieces back. */
  lemma {:induction false} SplitJoin(parts: seq<string>, sep: char)
    requires |parts| >= 1
    requires forall p :: p in parts ==> sep !in p
    ensures Split(Join(parts, sep), sep) == parts
  {
    var s := Join(parts, sep);
    assert parts[0] in parts;
    if |parts| == 1 {
      assert s == parts[0];
      assert IndexOf(s, sep) == |s|;
    } else {
      var rest := Join(parts[1..], sep);
      assert s == parts[0] + [sep] + rest;
      IndexAfterHead(parts[0], sep, rest);
      assert s[..|parts[0]|] == parts[0];
      assert s[|parts[0]| + 1..] == rest;
      assert forall p :: p in parts[1..] ==> p in parts;
      SplitJoin(parts[1..], sep);
      assert parts == [parts[0]] + parts[1..];
    }
  }

  // ---------------------------------------------------------------------
  // Percent-encoding
  // ---------------------------------------------------------------------

  /** The code points the serializer leaves as they are. */
  predicate Unreserved(c: char) {
    ('a' <= c <= 'z') || ('A' <= c <= 'Z') || ('0' <= c <= '9')
    || c == '*' || c == '-' || c == '.' || c == '_'
  }

  /** Characters an encoded component can contain. */
  predicate Safe(c: char) {
    Unreserved(c) || c == '+' || c == '%'
  }

  predicate AllSafe(s: string) {
    forall i :: 0 <= i < |s| ==> Safe(s[i])
  }

  lemma AllSafeAppend(a: string, b: string)
    requires AllSafe(a) && AllSafe(b)
    ensures AllSafe(a + b)
  {
    assert forall i :: |a| <= i < |a + b| ==> (a + b)[i] == b[i - |a|];
  }

  /** The UTF-8 encoding of a code point. */
  function Utf8(cp: nat): (bytes: seq<nat>)
    requires cp < 0x11_0000
    ensures 1 <= |bytes| <= 4
    ensures forall i :: 0 <= i < |bytes| ==> bytes[i] < 256
  {
    if cp < 0x80 then [cp]
    else if cp < 0x800 then [0xC0 + cp / 64, 0x80 + cp % 64]
    else if cp < 0x1_0000 then [0xE0 + cp / 4096, 0x80 + (cp / 64) % 64, 0x80 + cp % 64]
    else [0xF0 + cp / 262144, 0x80 + (cp / 4096) % 64, 0x80 + (cp / 64) % 64, 0x80 + cp % 64]
  }

  function HexDigit(d: nat): (c: char)
    requires d < 16
    ensures Unreserved(c)
  {
    "0123456789ABCDEF"[d]
  }

  /** `%XX` per byte, upper-case hexadecimal. */
  function PercentBytes(bytes: seq<nat>): (s: string)
    requires forall i :: 0 <= i < |bytes| ==> bytes[i] < 256
    ensures |s| == 3 * |bytes|
    ensures AllSafe(s)
  {
    if bytes == [] then ""
    else
      var head := ['%', HexDigit(bytes[0] / 16), HexDigit(bytes[0] % 16)];
      var tail := PercentBytes(bytes[1..]);
      AllSafeAppend(head, tail);
      head + tail
  }

  function EncodeChar(c: char): (s: string)
    ensures s != [] && AllSafe(s)
  {
    if c == ' ' then "+"
    else if Unreserved(c) then [c]
    else PercentBytes(Utf8(c as int))
  }

  /** A name or a value, form-urlencoded. */
  function Encode(s: string): (r: string)
    ensures AllSafe(r)
    ensures |r| >= |s|
  {
    if s == [] then ""
    else
      var head := EncodeChar(s[0]);
      var tail := Encode(s[1..]);
      AllSafeAppend(head, tail);
      head + tail
  }

  /** Text the serializer does not touch passes through unchanged. */
  lemma {:induction false} EncodeUnreserved(s: string)
    requires forall i :: 0 <= i < |s| ==> Unreserved(s[i])
    ensures Encode(s) == s
  {
    if s != [] {
      EncodeUnreserved(s[1..]);
    }
  }

  // ---------------------------------------------------------------------
  // Serialising
  // ---------------------------------------------------------------------

  function Pair(p: (string, string)): string {
    Encode(p.0) + "=" + Encode(p.1)
  }

  /** `params.toString()`: the encoded pairs joined by `&`. */
  function Serialize(params: seq<(string, string)>): string {
    Join(Seqs.Map(params, Pair), '&')
  }

  lemma SafeHasNoDelimiters(s: string)
    requires AllSafe(s)
    ensures '&' !in s && '=' !in s && '?' !in s && '#' !in s
  {
  }

  /** A serialised pair holds a single `=` and no `&`. */
  lemma PairShape(p: (string, string))
    ensures '&' !in Pair(p) && '?' !in Pair(p)
    ensures Split(Pair(p), '=') == [Encode(p.0), Encode(p.1)]
  {
    SafeHasNoDelimiters(Encode(p.0));
    SafeHasNoDelimiters(Encode(p.1));
    assert Pair(p) == Join([Encode(p.0), Encode(p.1)], '=');
    SplitJoin([Encode(p.0), Encode(p.1)], '=');
  }

  /** The serialised text is empty exactly when there are no pairs, and it
      never contains `?`. */
  lemma {:induction false} SerializeEmptyIff(params: seq<(string, string)>)
    ensures Serialize(params) == "" <==> params == []
    ensures '?' !in Serialize(params)
  {
    var pieces := Seqs.Map(params, Pair);
    if params != [] {
      PairShape(params[0]);
      assert pieces[1..] == Seqs.Map(params[1..], Pair);
      SerializeEmptyIff(params[1..]);
      if |params| > 1 {
        assert Serialize(params) == pieces[0] + ['&'] + Serialize(params[1..]);
      }
    }
  }

  /** Reading a query string back: split at `&`, then at `=`, recovers the
      pairs in their order, each as its encoded name and value. */
  lemma ParseSerialize(params: seq<(string, string)>)
    requires params != []
    ensures var pieces := Split(Serialize(params), '&');
      |pieces| == |params|
      && forall i :: 0 <= i < |params| ==>
           Split(pieces[i], '=') == [Encode(params[i].0), Encode(params[i].1)]
  {
    var pieces := Seqs.Map(params, Pair);
    forall p | p in pieces
      ensures '&' !in p
    {
      var i :| 0 <= i < |pieces| && pieces[i] == p;
      PairShape(params[i]);
    }
    SplitJoin(pieces, '&');
    forall i | 0 <= i < |params|
      ensures Split(pieces[i], '=') == [Encode(params[i].0), Encode(params[i].1)]
    {
      PairShape(params[i]);
    }
  }

  // ---------------------------------------------------------------------
  // Filters
  // ---------------------------------------------------------------------

  /** `if (filters?.key) params.append(key, String(filters.key))`. */
  function Step(filters: Json, key: string): seq<(string, string)> {
    var v := Get(filters, key);
    if Truthy(v) then [(key, JsString(v))] else []
  }

  /** The parameters the `admin*` listing builders append, one guarded
      append per filter key, in the order of `keys`. */
  function Params(filters: Json, keys: seq<string>): (r: seq<(string, string)>)
    ensures |r| <= |keys|
    ensures forall i :: 0 <= i < |r| ==>
      r[i].0 in keys && Truthy(Get(filters, r[i].0)) && r[i].1 == JsString(Get(filters, r[i].0))
  {
    if keys == [] then []
    else Params(filters, keys[..|keys| - 1]) + Step(filters, keys[|keys| - 1])
  }

  predicate Present(filters: Json, key: string) {
    Truthy(Get(filters, key))
  }

  /** The parameter names are exactly the filter keys whose value is
      truthy, in the builder's order: `page: 0` or `search: ""` adds
      nothing. */
  lemma {:induction false} ParamNamesAreTruthyKeys(filters: Json, keys: seq<string>)
    ensures Seqs.Map(Params(filters, keys), (p: (string, string)) => p.0)
         == Seqs.Filter(keys, k => Present(filters, k))
  {
    var first := (p: (string, string)) => p.0;
    var keep := k => Present(filters, k);
    if keys != [] {
      var init, last := keys[..|keys| - 1], keys[|keys| - 1];
      ParamNamesAreTruthyKeys(filters, init);
      assert keys == init + [last];
      Seqs.FilterAppend(init, [last], keep);
      assert Seqs.Filter([last], keep) == if Present(filters, last) then [last] else [];
      var a, b := Params(filters, init), Step(filters, last);
      assert Seqs.Map(a + b, first) == Seqs.Map(a, first) + Seqs.Map(b, first);
    }
  }

  /** No parameter is appended exactly when every filter key is falsy. */
  lemma {:induction false} ParamsEmptyIff(filters: Json, keys: seq<string>)
    ensures Params(filters, keys) == [] <==> forall k :: k in keys ==> !Present(filters, k)
  {
    if keys != [] {
      var init, last := keys[..|keys| - 1], keys[|keys| - 1];
      ParamsEmptyIff(filters, init);
      assert keys == init + [last];
      assert forall k :: k in keys <==> k in init || k == last;
      assert Params(filters, keys) == Params(filters, init) + Step(filters, last);
      assert Step(filters, last) == [] <==> !Present(filters, last);
    }
  }

  /** When exactly one key is truthy, that key is the only parameter. */
  lemma {:induction false} ParamsSingle(filters: Json, keys: seq<string>, j: nat)
    requires j < |keys| && Present(filters, keys[j])
    requires forall i :: 0 <= i < |keys| && i != j ==> !Present(filters, keys[i])
    ensures Params(filters, keys) == [(keys[j], JsString(Get(filters, keys[j])))]
  {
    var init, last := keys[..|keys| - 1], keys[|keys| - 1];
    if j == |keys| - 1 {
      forall k | k in init
        ensures !Present(filters, k)
      {
        var i :| 0 <= i < |init| && init[i] == k;
        assert keys[i] == k;
      }
      ParamsEmptyIff(filters, init);
    } else {
      ParamsSingle(filters, init, j);
    }
  }

  /** No filters object at all (`filters` left out) yields no parameters. */
  lemma {:induction false} NoFiltersNoParams(keys: seq<string>)
    ensures Params(Undefined, keys) == []
  {
    if keys != [] {
      NoFiltersNoParams(keys[..|keys| - 1]);
    }
  }

  /** The builder itself: a fresh `URLSearchParams` and one guarded append
      per key. */
  method Build(filters: Json, keys: seq<string>) returns (params: seq<(string, string)>)
    ensures params == Params(filters, keys)
  {
    params := [];
    for i := 0 to |keys|
      invariant params == Params(filters, keys[..i])
    {
      assert keys[..i + 1][..i] == keys[..i];
      var v := Get(filters, keys[i]);
      if Truthy(v) {
        params := params + [(keys[i], JsString(v))];
      }
    }
    assert keys[..|keys|] == keys;
  }

  /** `` `${path}${query ? `?${query}` : ''}` ``. */
  function WithQuery(path: string, params: seq<(string, string)>): string {
    var query := Serialize(params);
    if query != "" then path + "?" + query else path
  }

  /** The path carries a `?` exactly when some parameter was appended, and
      whatever follows it is the serialised parameters. */
  lemma QuestionMarkIffParams(path: string, params: seq<(string, string)>)
    requires '?' !in path
    ensures '?' in WithQuery(path, params) <==> params != []
    ensures params != [] ==> WithQuery(path, params) == path + "?" + Serialize(params)
  {
    SerializeEmptyIff(params);
    if params != [] {
      assert WithQuery(path, params)[|path|] == '?';
    } else {
      assert WithQuery(path, params) == path;
    }
  }
}
