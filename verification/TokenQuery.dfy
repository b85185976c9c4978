/** What a server reads from the query of a URI with a token on it (internal/handler/hls_handler.go): the
    token that was put there, byte for byte, and nothing else. */
module TokenQuery {
  import opened SegmentTable
  import opened SegmentNames
  import opened Playlist
  import HlsService

  // ----- Reading a query -----

  function HexValue(c: char): Option<int> {
    if '0' <= c <= '9' then Some(c as int - '0' as int)
    else if 'A' <= c <= 'F' then Some(c as int - 'A' as int + 10)
    else if 'a' <= c <= 'f' then Some(c as int - 'a' as int + 10)
    else None
  }

  function Then(b: int, rest: Option<seq<Byte>>): Option<seq<Byte>> {
    if 0 <= b < 256 && rest.Some? then Some([b] + rest.value) else None
  }

  /** The bytes a query value stands for: a plus is a space, a percent sign takes two hexadecimal digits,
      and every other character is itself. */
  function Unescape(s: string): Option<seq<Byte>> {
    if s == [] then Some([])
    else if s[0] == '+' then Then(32, Unescape(s[1..]))
    else if s[0] != '%' then Then(s[0] as int, Unescape(s[1..]))
    else if |s| < 3 || HexValue(s[1]).None? || HexValue(s[2]).None? then None
    else Then(HexValue(s[1]).value * 16 + HexValue(s[2]).value, Unescape(s[3..]))
  }

  datatype Param = Param(name: string, value: Option<seq<Byte>>)

  function ParamOf(field: string): Param {
    var n := Upto(field, '=');
    Param(field[..n], if n < |field| then Unescape(field[n + 1..]) else Some([]))
  }

  /** The parameters of a query, in order; empty fields are skipped. */
  function Params(query: string): seq<Param> {
    if query == [] then []
    else
      var n := Upto(query, '&');
      (if n == 0 then [] else [ParamOf(query[..n])]) + if n < |query| then Params(query[n + 1..]) else []
  }

  /** The query of a URI: what follows its first question mark, up to the fragment. */
  function QueryOf(uri: string): string {
    var whole := uri[..Upto(uri, '#')];
    var n := Upto(whole, '?');
    if n < |whole| then whole[n + 1..] else []
  }

  // ----- The escaped token reads back -----

  lemma HexReadsBack(d: int)
    requires 0 <= d < 16
    ensures HexValue(HexDigit(d)) == Some(d)
  {
  }

  lemma ByteReadsBack(b: Byte, rest: string)
    ensures Unescape(EscapeByte(b) + rest) == Then(b, Unescape(rest))
  {
    var s := EscapeByte(b) + rest;
    if |EscapeByte(b)| == 3 {
      HexReadsBack(b / 16);
      HexReadsBack(b % 16);
      assert s[0] == '%' && s[1] == HexDigit(b / 16) && s[2] == HexDigit(b % 16) && s[3..] == rest;
    } else {
      assert s[1..] == rest;
    }
  }

  /** Unescaping gives back every token, whatever its bytes. */
  lemma {:induction false} TokenReadsBack(token: seq<Byte>)
    ensures Unescape(QueryEscape(token)) == Some(token)
  {
    if token != [] {
      TokenReadsBack(token[1..]);
      ByteReadsBack(token[0], QueryEscape(token[1..]));
      assert token == [token[0]] + token[1..];
    }
  }

  predicate Unreserved(b: Byte) {
    IsDigit(b as char) || 'A' <= b as char <= 'Z' || 'a' <= b as char <= 'z' || b as char in "-_.~"
  }

  /** A token of letters, digits, dashes, underscores, dots and tildes goes out as it is. */
  lemma {:induction false} PlainTokenStays(token: seq<Byte>)
    requires forall i :: 0 <= i < |token| ==> Unreserved(token[i])
    ensures |QueryEscape(token)| == |token|
    ensures forall i :: 0 <= i < |token| ==> QueryEscape(token)[i] == token[i] as char
  {
    if token != [] { PlainTokenStays(token[1..]); }
  }

  /** Nothing in an escaped token separates parameters or ends the query. */
  predicate Contained(s: string) {
    '&' !in s && '#' !in s && '=' !in s && '?' !in s
  }

  lemma ByteIsContained(b: Byte)
    ensures Contained(EscapeByte(b))
  {
  }

  lemma ContainedConcat(a: string, b: string)
    requires Contained(a) && Contained(b)
    ensures Contained(a + b)
  {
  }

  lemma {:induction false} TokenIsContained(token: seq<Byte>)
    ensures Contained(QueryEscape(token))
  {
    if token != [] {
      ByteIsContained(token[0]);
      TokenIsContained(token[1..]);
      ContainedConcat(EscapeByte(token[0]), QueryEscape(token[1..]));
    }
  }

  // ----- One parameter more -----

  lemma UptoNone(s: string, c: char)
    requires c !in s
    ensures Upto(s, c) == |s|
  {
  }

  lemma UptoFirst(a: string, c: char, b: string)
    requires c !in a
    ensures var s := a + [c] + b; Upto(s, c) == |a| && s[..|a|] == a && s[|a| + 1..] == b
  {
    var s := a + [c] + b;
    assert s[|a|] == c;
    forall i | 0 <= i < |a| ensures s[i] != c {
      assert s[i] == a[i];
    }
  }

  lemma UptoEarly(a: string, b: string, c: char)
    requires c in a
    ensures var n := Upto(a, c);
            n < |a| && Upto(a + b, c) == n && (a + b)[..n] == a[..n] && (a + b)[n + 1..] == a[n + 1..] + b
  {
    var n := Upto(a, c);
    var i :| 0 <= i < |a| && a[i] == c;
    assert (a + b)[n] == c;
    forall j | 0 <= j < n ensures (a + b)[j] != c {
      assert (a + b)[j] == a[j];
    }
  }

  function OneParam(field: string): seq<Param> {
    if field == [] then [] else [ParamOf(field)]
  }

  lemma LastParam(field: string)
    requires '&' !in field
    ensures Params(field) == OneParam(field)
  {
    UptoNone(field, '&');
    assert field[..|field|] == field;
  }

  lemma FirstParam(field: string, more: string)
    requires '&' !in field
    ensures Params(field + "&" + more) == OneParam(field) + Params(more)
  {
    UptoFirst(field, '&', more);
  }

  lemma Regroup<T>(a: seq<T>, b: seq<T>, c: seq<T>, d: seq<T>)
    ensures a + (b + c) + d == a + b + (c + d)
  {
  }

  lemma SplitAt(s: string, c: char) returns (first: string, more: string)
    requires c in s
    ensures s == first + [c] + more && c !in first
  {
    var n := Upto(s, c);
    first, more := s[..n], s[n + 1..];
    UptoEarly(s, [], c);
    assert s == s[..n] + [s[n]] + s[n + 1..];
  }

  lemma {:induction false} MoreParams(query: string, field: string)
    ensures Params(query + "&" + field) == Params(query) + Params(field)
    decreases |query|
  {
    if '&' in query {
      var first, more := SplitAt(query, '&');
      FirstParam(first, more);
      MoreParams(more, field);
      FirstParam(first, more + "&" + field);
      OntoQuery(first, "&", more, field);
    } else {
      LastParam(query);
      FirstParam(query, field);
    }
  }

  lemma OntoQuery(first: string, separator: string, more: string, field: string)
    ensures first + separator + (more + "&" + field) == first + separator + more + "&" + field
  {
  }

  lemma TokenParam(token: seq<Byte>)
    ensures Params("token=" + QueryEscape(token)) == [Param("token", Some(token))]
  {
    var (name, value) := ("token", QueryEscape(token));
    var field := "token=" + value;
    assert field == name + "=" + value;
    TokenIsContained(token);
    TokenReadsBack(token);
    UptoFirst(name, '=', value);
    assert '&' !in field;
    UptoNone(field, '&');
    assert field[..|field|] == field;
  }

  /** The query behind the first question mark of a URI without a fragment. */
  lemma QueryBehind(path: string, query: string)
    requires '?' !in path && '#' !in path && '#' !in query
    ensures QueryOf(path + "?" + query) == query && HlsService.WithoutQuery(path + "?" + query) == path
    ensures QueryOf(path) == [] && HlsService.WithoutQuery(path) == path
  {
    var uri := path + "?" + query;
    UptoNone(uri, '#');
    UptoNone(path, '#');
    UptoNone(path, '?');
    UptoFirst(path, '?', query);
    assert uri[..|uri|] == uri && path[..|path|] == path;
  }

  /** A URI of any playlist keeps its path and its parameters, and gets the token as one more, last. */
  lemma UriGetsTheToken(line: string, token: seq<Byte>)
    requires line != [] && '#' !in line
    ensures var out := TokenLine(line, token);
            Params(QueryOf(out)) == Params(QueryOf(line)) + [Param("token", Some(token))] &&
            HlsService.WithoutQuery(out) == HlsService.WithoutQuery(line)
  {
    var field := "token=" + QueryEscape(token);
    TokenIsContained(token);
    TokenParam(token);
    assert '#' !in field;
    if '?' in line {
      var path, query := SplitAt(line, '?');
      QueryBehind(path, query);
      QueryBehind(path, query + "&" + field);
      MoreParams(query, field);
      OntoQuery(path, "?", query, field);
      AndToken(line, token);
    } else {
      QueryBehind(line, field);
      FirstToken(line, token);
    }
  }

  lemma AndToken(line: string, token: seq<Byte>)
    requires line != [] && '#' !in line && '?' in line
    ensures TokenLine(line, token) == line + "&" + ("token=" + QueryEscape(token))
  {
    assert "&token=" == "&" + "token=";
    Regroup(line, "&", "token=", QueryEscape(token));
  }

  lemma FirstToken(line: string, token: seq<Byte>)
    requires line != [] && '#' !in line && '?' !in line
    ensures TokenLine(line, token) == line + "?" + ("token=" + QueryEscape(token))
  {
    assert "?token=" == "?" + "token=";
    Regroup(line, "?", "token=", QueryEscape(token));
  }

  /** Whoever reads the served playlist finds in the query of its i-th URI one parameter: the token the
      playlist was asked for with. */
  lemma ListedUrisCarryTheToken(segs: seq<SegmentBoundary>, token: seq<Byte>, vod: Vod, i: nat)
    requires Printable(segs) && ReadPlaylist(Tokenised(Unlines(ManifestLines(segs)), token)) == Some(vod)
    requires i < |vod.entries|
    ensures Params(QueryOf(vod.entries[i].uri)) == if token == [] then [] else [Param("token", Some(token))]
  {
    PlaylistReadsBack(segs, token);
    assert vod.entries[i] == EntryOf(segs, 0 + i, token);
    NameHasNoQuery(i);
    if token != [] {
      UriGetsTheToken(SegmentName(i), token);
      TokenOnName(i, token);
    }
  }

  lemma NameHasNoQuery(i: nat)
    ensures '#' !in SegmentName(i) && SegmentName(i) != [] && QueryOf(SegmentName(i)) == []
  {
    NameIsPlain(i);
    QueryBehind(SegmentName(i), []);
  }
}
