/**
 * The client object: URL assembly against the service's base URL, the
 * request headers, and the decision that turns a response with a status
 * code of 300 or more into an `AirshipException`. `urlencode` and the
 * HTTP transport are parameters.
 */
module AirshipClient {
  import opened Wrappers
  import opened OrderedMaps

  const BaseUrl := "https://go.urbanairship.com"
  /** `VERSION_STRING` around its `%d`. */
  const VersionPrefix := "application/vnd.urbanairship+json; version="
  const VersionSuffix := ";"
  const DefaultVersion := 3

  // ---------------------------------------------------------------------------
  // Strings: `implode`, and the splitting it is the inverse of

  /** `implode(sep, parts)`. */
  function Join(sep: string, parts: seq<string>): string {
    if |parts| == 0 then ""
    else if |parts| == 1 then parts[0]
    else parts[0] + sep + Join(sep, parts[1..])
  }

  /** The pieces of `s` between occurrences of `c` (`explode`). */
  function Split(c: char, s: string): (r: seq<string>)
    ensures |r| >= 1
  {
    if |s| == 0 then [""]
    else
      var rest := Split(c, s[1..]);
      if s[0] == c then [""] + rest else [[s[0]] + rest[0]] + rest[1..]
  }

  /** How many times `c` occurs in `s`. */
  function Occurrences(c: char, s: string): nat {
    if |s| == 0 then 0 else (if s[0] == c then 1 else 0) + Occurrences(c, s[1..])
  }

  lemma {:induction false} OccurrencesAppend(c: char, a: string, b: string)
    ensures Occurrences(c, a + b) == Occurrences(c, a) + Occurrences(c, b)
  {
    if |a| == 0 {
      assert a + b == b;
    } else {
      assert (a + b)[1..] == a[1..] + b;
      OccurrencesAppend(c, a[1..], b);
    }
  }

  lemma {:induction false} OccurrencesAbsent(c: char, s: string)
    requires c !in s
    ensures Occurrences(c, s) == 0
  {
    if |s| > 0 {
      assert c !in s[1..] by {
        forall i | 0 <= i < |s[1..]| ensures s[1..][i] != c {
          assert s[1..][i] == s[i + 1];
        }
      }
      OccurrencesAbsent(c, s[1..]);
    }
  }

  /** A piece without the separator splits to itself. */
  lemma {:induction false} SplitAbsent(c: char, p: string)
    requires c !in p
    ensures Split(c, p) == [p]
  {
    if |p| > 0 {
      assert c !in p[1..] by {
        forall i | 0 <= i < |p[1..]| ensures p[1..][i] != c {
          assert p[1..][i] == p[i + 1];
        }
      }
      SplitAbsent(c, p[1..]);
      assert [p[0]] + p[1..] == p;
    }
  }

  /** Splitting `p + [c] + t` peels `p` off the front when `p` has no `c`. */
  lemma {:induction false} SplitPiece(c: char, p: string, t: string)
    requires c !in p
    ensures Split(c, p + [c] + t) == [p] + Split(c, t)
  {
    var s := p + [c] + t;
    if |p| == 0 {
      assert s[0] == c && s[1..] == t;
    } else {
      assert c !in p[1..] by {
        forall i | 0 <= i < |p[1..]| ensures p[1..][i] != c {
          assert p[1..][i] == p[i + 1];
        }
      }
      assert s[0] == p[0] && s[1..] == p[1..] + [c] + t;
      SplitPiece(c, p[1..], t);
      assert [p[0]] + p[1..] == p;
    }
  }

  /** `explode` undoes `implode` when no piece holds the separator. */
  lemma {:induction false} SplitJoin(c: char, parts: seq<string>)
    requires |parts| >= 1
    requires forall i :: 0 <= i < |parts| ==> c !in parts[i]
    ensures Split(c, Join([c], parts)) == parts
  {
    if |parts| == 1 {
      SplitAbsent(c, parts[0]);
    } else {
      SplitJoin(c, parts[1..]);
      SplitPiece(c, parts[0], Join([c], parts[1..]));
      assert [parts[0]] + parts[1..] == parts;
    }
  }

  /** `implode` puts exactly one separator between consecutive pieces. */
  lemma {:induction false} JoinSeparators(c: char, parts: seq<string>)
    requires |parts| >= 1
    requires forall i :: 0 <= i < |parts| ==> c !in parts[i]
    ensures Occurrences(c, Join([c], parts)) == |parts| - 1
  {
    if |parts| == 1 {
      OccurrencesAbsent(c, parts[0]);
    } else {
      JoinSeparators(c, parts[1..]);
      OccurrencesAbsent(c, parts[0]);
      OccurrencesAppend(c, parts[0], [c]);
      OccurrencesAppend(c, parts[0] + [c], Join([c], parts[1..]));
    }
  }

  // ---------------------------------------------------------------------------
  // buildUrl

  /** The `key=value` pairs of the query, in the arguments' iteration order. */
  function QueryPairs(args: Assoc<string>, urlencode: string -> string): (ps: seq<string>)
    ensures |ps| == |args|
  {
    if |args| == 0 then []
    else
      var last := args[|args| - 1];
      QueryPairs(args[..|args| - 1], urlencode) + [urlencode(last.0) + "=" + urlencode(last.1)]
  }

  /** The text after the `?`. */
  function Query(args: Assoc<string>, urlencode: string -> string): string {
    Join("&", QueryPairs(args, urlencode))
  }

  /** What `buildUrl` returns. */
  function UrlOf(path: string, args: Option<Assoc<string>>, urlencode: string -> string): string {
    match args
    case None => BaseUrl + path
    case Some(a) => BaseUrl + path + "?" + Query(a, urlencode)
  }

  /** Each pair is the encoded key, `=`, and the encoded value of one argument, in order. */
  lemma {:induction false} QueryPairsAt(args: Assoc<string>, urlencode: string -> string, i: int)
    requires 0 <= i < |args|
    ensures QueryPairs(args, urlencode)[i] == urlencode(args[i].0) + "=" + urlencode(args[i].1)
  {
    if i < |args| - 1 {
      QueryPairsAt(args[..|args| - 1], urlencode, i);
    }
  }

  /** With an encoder that never emits `&` (as `urlencode` turns it into `%26`), no pair holds `&`. */
  lemma PairsHaveNoAmpersand(args: Assoc<string>, urlencode: string -> string)
    requires forall s :: '&' !in urlencode(s)
    ensures forall i :: 0 <= i < |args| ==> '&' !in QueryPairs(args, urlencode)[i]
  {
    forall i | 0 <= i < |args| ensures '&' !in QueryPairs(args, urlencode)[i] {
      QueryPairsAt(args, urlencode, i);
      var k, v := urlencode(args[i].0), urlencode(args[i].1);
      assert forall j :: 0 <= j < |k + "=" + v| ==> (k + "=" + v)[j] in k || (k + "=" + v)[j] == '=' || (k + "=" + v)[j] in v;
    }
  }

  /**
   * The query splits back at `&` into exactly one pair per argument, in the
   * arguments' order, with one `&` fewer than there are arguments.
   */
  lemma QueryRoundTrip(args: Assoc<string>, urlencode: string -> string)
    requires |args| >= 1
    requires forall s :: '&' !in urlencode(s)
    ensures Split('&', Query(args, urlencode)) == QueryPairs(args, urlencode)
    ensures |Split('&', Query(args, urlencode))| == |args|
    ensures Occurrences('&', Query(args, urlencode)) == |args| - 1
  {
    PairsHaveNoAmpersand(args, urlencode);
    SplitJoin('&', QueryPairs(args, urlencode));
    JoinSeparators('&', QueryPairs(args, urlencode));
  }

  /** An empty (but set) argument array still adds the `?`, with nothing after it. */
  lemma EmptyArgsKeepQuestionMark(path: string, urlencode: string -> string)
    ensures UrlOf(path, Some([]), urlencode) == BaseUrl + path + "?"
  {
  }

  /** Without arguments the URL is the base URL followed by the path. */
  lemma NoArgsIsBaseAndPath(path: string, urlencode: string -> string)
    ensures UrlOf(path, None, urlencode) == BaseUrl + path
    ensures |UrlOf(path, None, urlencode)| == |BaseUrl| + |path|
  {
  }

  /** Two arguments give two pairs joined by one `&`. */
  lemma {:induction false} TwoArgsQuery(k1: string, v1: string, k2: string, v2: string, urlencode: string -> string)
    ensures Query([(k1, v1), (k2, v2)], urlencode)
         == urlencode(k1) + "=" + urlencode(v1) + "&" + urlencode(k2) + "=" + urlencode(v2)
  {
    var args := [(k1, v1), (k2, v2)];
    var first, second := urlencode(k1) + "=" + urlencode(v1), urlencode(k2) + "=" + urlencode(v2);
    assert args[..1] == [(k1, v1)] && args[..1][..0] == [];
    assert QueryPairs(args[..1], urlencode) == [] + [first];
    var ps := QueryPairs(args, urlencode);
    assert ps == [first] + [second];
    assert ps[1..] == [second];
    assert Join("&", ps) == first + "&" + second;
  }

  /**
   * Two arguments, with an encoder that leaves their plain letters alone:
   * `foo=bar&baz=ack` after the `?`, and no `?` at all without arguments.
   */
  lemma BuildUrlExample(urlencode: string -> string)
    requires urlencode("foo") == "foo" && urlencode("bar") == "bar"
    requires urlencode("baz") == "baz" && urlencode("ack") == "ack"
    ensures UrlOf("/api/test/", None, urlencode) == "https://go.urbanairship.com/api/test/"
    ensures UrlOf("/api/test/", Some([("foo", "bar"), ("baz", "ack")]), urlencode)
         == "https://go.urbanairship.com/api/test/?foo=bar&baz=ack"
  {
    TwoArgsQuery("foo", "bar", "baz", "ack", urlencode);
  }

  // ---------------------------------------------------------------------------
  // sprintf("%d") and the Accept header

  function DigitChar(d: int): char
    requires 0 <= d < 10
  {
    (48 + d) as char
  }

  function DigitValue(c: char): int {
    if '0' <= c <= '9' then c as int - 48 else 0
  }

  /** The decimal digits of `n`, most significant first. */
  function NatDigits(n: nat): (s: string)
    ensures |s| >= 1
    ensures forall i :: 0 <= i < |s| ==> '0' <= s[i] <= '9'
  {
    if n < 10 then [DigitChar(n)] else NatDigits(n / 10) + [DigitChar(n % 10)]
  }

  /** `sprintf('%d', n)`. */
  function FormatInt(n: int): string {
    if n < 0 then "-" + NatDigits(-n) else NatDigits(n)
  }

  function ParseNat(s: string): nat {
    if |s| == 0 then 0 else ParseNat(s[..|s| - 1]) * 10 + (if '0' <= s[|s| - 1] <= '9' then DigitValue(s[|s| - 1]) else 0)
  }

  /** Reading a decimal integer back, with an optional leading `-`. */
  function ParseInt(s: string): int {
    if |s| > 0 && s[0] == '-' then -(ParseNat(s[1..]) as int) else ParseNat(s)
  }

  lemma {:induction false} NatDigitsRoundTrip(n: nat)
    ensures ParseNat(NatDigits(n)) == n
  {
    if n >= 10 {
      var s := NatDigits(n);
      assert s[..|s| - 1] == NatDigits(n / 10);
      NatDigitsRoundTrip(n / 10);
    }
  }

  /** The `%d` text reads back as the number it was made from. */
  lemma FormatIntRoundTrip(n: int)
    ensures ParseInt(FormatInt(n)) == n
  {
    if n < 0 {
      var d := NatDigits(-n);
      var s := "-" + d;
      assert s[0] == '-' && s[1..] == d;
      NatDigitsRoundTrip(-n);
    } else {
      var d := NatDigits(n);
      assert d[0] != '-';
      NatDigitsRoundTrip(n);
    }
  }

  /** `sprintf(VERSION_STRING, $version)`. */
  function VersionString(version: int): string {
    VersionPrefix + FormatInt(version) + VersionSuffix
  }

  /**
   * The Accept header is the media type with `version=`, then the version
   * number in decimal, then `;`: the number between them reads back as the
   * version asked for.
   */
  lemma VersionStringRoundTrip(version: int)
    ensures var s := VersionString(version);
      && |s| > |VersionPrefix|
      && s[..|VersionPrefix|] == VersionPrefix
      && s[|s| - 1] == ';'
      && ParseInt(s[|VersionPrefix|..|s| - 1]) == version
  {
    var s := VersionString(version);
    assert s[|VersionPrefix|..|s| - 1] == FormatInt(version);
    FormatIntRoundTrip(version);
  }

  // ---------------------------------------------------------------------------
  // request

  /** The header array `request` builds: `Accept` first, `Content-type` only when given. */
  function Headers(contentType: Option<string>, version: int): (h: Assoc<string>)
    ensures Keys(h) == ["Accept"] + (if contentType.Some? then ["Content-type"] else [])
    ensures DistinctKeys(h)
    ensures Lookup(h, "Accept") == Some(VersionString(version))
    ensures Lookup(h, "Content-type") == contentType
  {
    var accept := [("Accept", VersionString(version))];
    assert Keys(accept) == ["Accept"] && DistinctKeys(accept) by {
      assert accept[1..] == [];
    }
    match contentType
    case None => accept
    case Some(ct) =>
      assert !HasKey(accept, "Content-type") by {
        assert "Accept"[0] != "Content-type"[0];
      }
      PutNew(accept, "Content-type", ct);
      Put(accept, "Content-type", ct)
  }

  /**
   * `request` called without its optional arguments: only `Accept` is sent,
   * and it asks for version 3.
   */
  lemma DefaultHeaders()
    ensures Headers(None, DefaultVersion) == [("Accept", VersionPrefix + "3" + VersionSuffix)]
  {
    assert NatDigits(3) == "3";
  }

  /** A response as the transport returns it. */
  datatype Response = Response(code: int, rawHeaders: Assoc<string>, rawBody: string)

  /** `AirshipException`, carrying the response it was raised for. */
  datatype AirshipError = AirshipException(response: Response)

  /** What `request` hands to the transport. */
  datatype Outgoing = Outgoing(verb: string, uri: string, user: string, password: string, body: string, headers: Assoc<string>)

  /** The status decision at the end of `request`. */
  function CheckStatus(response: Response): (r: Result<Response, AirshipError>)
    ensures r.Failure? <==> response.code >= 300
    ensures r.Success? ==> r.value == response
    ensures r.Failure? ==> r.error.response == response
  {
    if response.code >= 300 then Failure(AirshipException(response)) else Success(response)
  }

  /** A success status (below 300) is passed through; 400 and the like raise. */
  lemma StatusExamples(ok: Response, bad: Response)
    requires ok.code == 200 && bad.code == 400
    ensures CheckStatus(ok) == Success(ok)
    ensures CheckStatus(bad).Failure? && CheckStatus(bad).error.response == bad
  {
  }

  /** `new Airship($appKey, $masterSecret)`; the injected request object is the `send` parameter of `Request`. */
  class Airship {
    var key: string
    var secret: string

    constructor (appKey: string, masterSecret: string)
      ensures key == appKey && secret == masterSecret
    {
      key := appKey;
      secret := masterSecret;
    }

    /**
     * `buildUrl`: the base URL and the path, then, when arguments are given
     * (even none), `?` and the encoded pairs joined by `&` in argument order.
     */
    method BuildUrl(path: string, args: Option<Assoc<string>>, urlencode: string -> string) returns (url: string)
      ensures args.None? ==> url == BaseUrl + path
      ensures args.Some? ==> url == BaseUrl + path + "?" + Join("&", QueryPairs(args.value, urlencode))
    {
      url := BaseUrl + path;
      if args.Some? {
        var params: seq<string> := [];
        url := url + "?";
        var a := args.value;
        for i := 0 to |a|
          invariant params == QueryPairs(a[..i], urlencode)
        {
          assert a[..i + 1][..i] == a[..i];
          params := params + [urlencode(a[i].0) + "=" + urlencode(a[i].1)];
        }
        assert a[..|a|] == a;
        url := url + Join("&", params);
      }
    }

    /**
     * `request`: sends the method, URI, credentials, body and the headers
     * to the transport, then raises on a status of 300 or more and returns
     * the response unchanged otherwise.
     */
    method Request(verb: string, body: string, uri: string, contentType: Option<string>, version: int,
                   send: Outgoing -> Response)
      returns (r: Result<Response, AirshipError>)
      ensures var sent := send(Outgoing(verb, uri, key, secret, body, Headers(contentType, version)));
        && (r.Failure? <==> sent.code >= 300)
        && (r.Success? ==> r.value == sent)
        && (r.Failure? ==> r.error.response == sent)
    {
      var response := send(Outgoing(verb, uri, key, secret, body, Headers(contentType, version)));
      r := CheckStatus(response);
    }
  }
}
