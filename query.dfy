/** A reader for the query strings the URL builders produce: the text after the
    first '?', cut at every '&', each piece cut at its first '=' into a name and a
    value (no percent-decoding; the client performs no encoding either). The URL
    builders are specified by the parameter list this reader recovers. */
module Query {
  import opened Wrappers

  /** Rust's `str::split(c)`: the pieces between the occurrences of `c`, in order. */
  function SplitOn(s: string, c: char): (r: seq<string>)
    ensures |r| >= 1
    ensures c !in s ==> r == [s]
  {
    if s == [] then [""]
    else
      var init := SplitOn(s[..|s| - 1], c);
      if s[|s| - 1] == c then init + [""]
      else
        assert s[..|s| - 1] + [s[|s| - 1]] == s;
        init[..|init| - 1] + [init[|init| - 1] + [s[|s| - 1]]]
  }

  /** Appending a separator and a piece without separators adds exactly that piece. */
  lemma {:induction false} SplitOnAppend(a: string, c: char, b: string)
    requires c !in b
    ensures SplitOn(a + [c] + b, c) == SplitOn(a, c) + [b]
    decreases |b|
  {
    var s := a + [c] + b;
    if b == [] {
      assert s[..|s| - 1] == a;
    } else {
      var b', last := b[..|b| - 1], b[|b| - 1];
      assert s[..|s| - 1] == a + [c] + b';
      assert s[|s| - 1] == last && last != c;
      assert c !in b' by { assert forall i :: 0 <= i < |b'| ==> b'[i] == b[i]; }
      SplitOnAppend(a, c, b');
      var init := SplitOn(a + [c] + b', c);
      assert init == SplitOn(a, c) + [b'];
      assert SplitOn(s, c) == init[..|init| - 1] + [init[|init| - 1] + [last]];
      assert init[..|init| - 1] == SplitOn(a, c);
      assert init[|init| - 1] + [last] == b;
    }
  }

  /** A query piece cut at its first '='; a piece without '=' is a name with an empty value. */
  function ParsePair(piece: string): (string, string)
  {
    if piece == [] then ("", "")
    else if piece[0] == '=' then ("", piece[1..])
    else
      var (name, value) := ParsePair(piece[1..]);
      ([piece[0]] + name, value)
  }

  lemma {:induction false} ParsePairOf(name: string, value: string)
    requires '=' !in name
    ensures ParsePair(name + "=" + value) == (name, value)
  {
    var piece := name + "=" + value;
    if name != [] {
      assert piece[1..] == name[1..] + "=" + value;
      assert '=' !in name[1..] by { assert forall i :: 0 <= i < |name[1..]| ==> name[1..][i] == name[i + 1]; }
      ParsePairOf(name[1..], value);
      assert [name[0]] + name[1..] == name;
    } else {
      assert piece[1..] == value;
    }
  }

  /** The text after the first '?' of a URL ("" when there is none). */
  function QueryString(url: string): string
  {
    if url == [] then ""
    else if url[0] == '?' then url[1..]
    else QueryString(url[1..])
  }

  lemma {:induction false} QueryStringAppend(url: string, more: string)
    requires '?' in url
    ensures '?' in url + more
    ensures QueryString(url + more) == QueryString(url) + more
  {
    assert (url + more)[0] == url[0];
    if url[0] != '?' {
      assert '?' in url[1..] by {
        var i :| 0 <= i < |url| && url[i] == '?';
        assert url[1..][i - 1] == '?';
      }
      assert (url + more)[1..] == url[1..] + more;
      QueryStringAppend(url[1..], more);
    } else {
      assert (url + more)[1..] == url[1..] + more;
    }
  }

  lemma {:induction false} QueryStringAfter(path: string, query: string)
    requires '?' !in path
    ensures QueryString(path + "?" + query) == query
  {
    var url := path + "?" + query;
    if path != [] {
      assert url[1..] == path[1..] + "?" + query;
      assert '?' !in path[1..] by { assert forall i :: 0 <= i < |path[1..]| ==> path[1..][i] == path[i + 1]; }
      QueryStringAfter(path[1..], query);
    } else {
      assert url[1..] == query;
    }
  }

  function Pairs(pieces: seq<string>): (r: seq<(string, string)>)
    ensures |r| == |pieces|
  {
    if pieces == [] then [] else Pairs(pieces[..|pieces| - 1]) + [ParsePair(pieces[|pieces| - 1])]
  }

  /** The (name, value) parameters of a URL's query, in order. */
  function QueryParams(url: string): seq<(string, string)>
  {
    if '?' in url then Pairs(SplitOn(QueryString(url), '&')) else []
  }

  /** The value of the first parameter called `name`. */
  function Lookup(params: seq<(string, string)>, name: string): (r: Option<string>)
    ensures r.Some? <==> exists i :: 0 <= i < |params| && params[i].0 == name
    ensures r.Some? ==> exists i :: 0 <= i < |params| && params[i] == (name, r.value)
  {
    if params == [] then None
    else if params[0].0 == name then Some(params[0].1)
    else
      var r := Lookup(params[1..], name);
      assert forall i :: 0 <= i < |params[1..]| ==> params[1..][i] == params[i + 1];
      assert forall i :: 1 <= i < |params| ==> params[i] == params[1..][i - 1];
      r
  }

  /** A parameter name: no separator of either kind. */
  predicate IsName(s: string) { '&' !in s && '=' !in s }

  /** A parameter value: no '&' (it may hold '=', which is cut only once). */
  predicate IsValue(s: string) { '&' !in s }

  /** The first parameter of a URL whose path has no '?'. */
  lemma FirstParam(path: string, name: string, value: string)
    requires '?' !in path && IsName(name) && IsValue(value)
    ensures QueryParams(path + "?" + name + "=" + value) == [(name, value)]
  {
    var url := path + "?" + name + "=" + value;
    assert url == path + "?" + (name + "=" + value);
    assert url[|path|] == '?';
    QueryStringAfter(path, name + "=" + value);
    assert '&' !in name + "=" + value;
    ParsePairOf(name, value);
  }

  /** Appending "&name=value" to a URL that already has a query adds one parameter at the end. */
  lemma AppendParam(url: string, name: string, value: string)
    requires '?' in url && IsName(name) && IsValue(value)
    ensures '?' in url + "&" + name + "=" + value
    ensures QueryParams(url + "&" + name + "=" + value) == QueryParams(url) + [(name, value)]
  {
    var piece := name + "=" + value;
    assert url + "&" + name + "=" + value == url + ("&" + piece);
    QueryStringAppend(url, "&" + piece);
    assert QueryString(url) + ("&" + piece) == QueryString(url) + ['&'] + piece;
    assert '&' !in piece;
    SplitOnAppend(QueryString(url), '&', piece);
    ParsePairOf(name, value);
    var pieces := SplitOn(QueryString(url), '&') + [piece];
    assert pieces[..|pieces| - 1] == SplitOn(QueryString(url), '&');
  }

  /** `AppendParam` for a URL written with the literal "&name=" in one piece. */
  lemma AppendParamAs(url: string, sep: string, name: string, value: string)
    requires sep == "&" + name + "="
    requires '?' in url && IsName(name) && IsValue(value)
    ensures '?' in url + sep + value
    ensures QueryParams(url + sep + value) == QueryParams(url) + [(name, value)]
  {
    assert url + sep + value == url + "&" + name + "=" + value;
    AppendParam(url, name, value);
  }

  /** `AppendParam` for a parameter written out whole, such as "&orig=ALL". */
  lemma AppendFixedParam(url: string, piece: string, name: string, value: string)
    requires piece == "&" + name + "=" + value
    requires '?' in url && IsName(name) && IsValue(value)
    ensures '?' in url + piece
    ensures QueryParams(url + piece) == QueryParams(url) + [(name, value)]
  {
    assert url + piece == url + "&" + name + "=" + value;
    AppendParam(url, name, value);
  }

  /** A URL root with two fixed parameters, such as "...?cmd=etd&json=y". */
  lemma FirstTwoParams(path: string, name1: string, value1: string, name2: string, value2: string)
    requires '?' !in path && IsName(name1) && IsValue(value1) && IsName(name2) && IsValue(value2)
    ensures '?' in path + "?" + name1 + "=" + value1 + "&" + name2 + "=" + value2
    ensures QueryParams(path + "?" + name1 + "=" + value1 + "&" + name2 + "=" + value2)
      == [(name1, value1), (name2, value2)]
  {
    FirstParam(path, name1, value1);
    AppendParam(path + "?" + name1 + "=" + value1, name2, value2);
  }

  /** A URL with "&name=value" appended for each parameter in turn. */
  function WithParams(url: string, params: seq<(string, string)>): string
  {
    if params == [] then url
    else
      var last := params[|params| - 1];
      WithParams(url, params[..|params| - 1]) + "&" + last.0 + "=" + last.1
  }

  /** Parameters that survive the round trip: names without separators, values without '&'. */
  predicate SafeParams(params: seq<(string, string)>)
  {
    forall i :: 0 <= i < |params| ==> IsName(params[i].0) && IsValue(params[i].1)
  }

  lemma SafeParamsAppend(params: seq<(string, string)>, name: string, value: string)
    requires SafeParams(params) && IsName(name) && IsValue(value)
    ensures SafeParams(params + [(name, value)])
  {
    var ps := params + [(name, value)];
    assert forall i :: 0 <= i < |params| ==> ps[i] == params[i];
  }

  /** Appending safe parameters to a URL with a query adds exactly those parameters, in order. */
  lemma {:induction false} AppendParams(url: string, params: seq<(string, string)>)
    requires '?' in url && SafeParams(params)
    ensures '?' in WithParams(url, params)
    ensures QueryParams(WithParams(url, params)) == QueryParams(url) + params
    decreases |params|
  {
    if params != [] {
      var init, last := params[..|params| - 1], params[|params| - 1];
      assert SafeParams(init) by { assert forall i :: 0 <= i < |init| ==> init[i] == params[i]; }
      AppendParams(url, init);
      var prefix := WithParams(url, init);
      assert WithParams(url, params) == prefix + "&" + last.0 + "=" + last.1;
      AppendParam(prefix, last.0, last.1);
      SnocAssoc(QueryParams(url), params);
    }
  }

  lemma SnocAssoc<T>(a: seq<T>, s: seq<T>)
    requires s != []
    ensures (a + s[..|s| - 1]) + [s[|s| - 1]] == a + s
  {
    assert s[..|s| - 1] + [s[|s| - 1]] == s;
  }

  /** The key every request carries: the caller's key, or else the public key. */
  function KeyOr(key: Option<string>, publicKey: string): (r: string)
    ensures key.Some? ==> r == key.value
    ensures key.None? ==> r == publicKey
  {
    match key
    case Some(k) => k
    case None => publicKey
  }
}
