/** objectStorage/minioObjectStorageAdapter.go: which requests are served from the cache, under
    which key, and what a cached object is turned into. */
module Adapter {
  import opened Text
  import opened Basics
  import opened Objects

  /** The parts of http.Request the adapter looks at, and the address that the client's connection
      asked for, to which the proxy dials. path is the decoded URL.Path, text is URL.String(), and
      host is the Host header, unlike url.host. */
  datatype URL = URL(host: string, path: string, rawQuery: string, text: string)

  datatype Request = Request(verb: string, host: string, url: URL, target: string)

  function Key(host: string, path: string, query: string): string {
    host + path + "?" + query
  }

  function ExtractObjectKey(req: Request): string {
    Key(req.url.host, req.url.path, req.url.rawQuery)
  }

  /** None is the nil dereference of an object without data. */
  function CreateLocalResponse(o: Object): Option<Response> {
    if o.data.None? then None else Some(Response(STATUS_OK, o.headers, o.data.value))
  }

  predicate ValidateBucketName(bucket: string) {
    bucket != "" && bucket != ".." && bucket != "."
  }

  function ObjectPathFromURL(url: string): string {
    var parts := Split(url, '/');
    if |parts| < 3 then "" else Join(parts[2..], '/')
  }

  predicate ShouldIntercept(adapterHost: string, req: Request) {
    if Contains(req.url.rawQuery, "location") then false
    else if req.verb != "GET" then false
    else
      var path := Split(req.url.path, '/');
      var hostOk := Contains(req.host, adapterHost);
      var requestOk := req.verb == "GET" && |path| >= 3 && ValidateBucketName(path[1])
                       && ObjectPathFromURL(req.url.text) != "";
      hostOk && requestOk
  }

  /** The proxy's loop over its adapters: the first that wants the request. */
  method FindAdapter(adapterHosts: seq<string>, req: Request) returns (found: bool, index: int)
    ensures found <==> exists i :: 0 <= i < |adapterHosts| && ShouldIntercept(adapterHosts[i], req)
    ensures !found ==> index == -1
    ensures found ==>
              && 0 <= index < |adapterHosts| && ShouldIntercept(adapterHosts[index], req)
              && forall i :: 0 <= i < index ==> !ShouldIntercept(adapterHosts[i], req)
  {
    for i := 0 to |adapterHosts|
      invariant forall j :: 0 <= j < i ==> !ShouldIntercept(adapterHosts[j], req)
    {
      if ShouldIntercept(adapterHosts[i], req) {
        return true, i;
      }
    }
    return false, -1;
  }

  // ----- the object clause -----

  /** The object part of a URL text is what follows its second slash. */
  lemma {:induction false} ObjectPathIsSuffix(url: string, i: nat)
    requires i < |url| && url[i] == '/' && Count(url[..i], '/') == 1
    ensures ObjectPathFromURL(url) == url[i + 1..]
  {
    assert url == url[..i] + (['/'] + url[i + 1..]);
    CountOfJoin(url[..i], ['/'] + url[i + 1..], '/');
    var a, rest := FirstSeparator(url, '/');
    var b, tail := FirstSeparator(rest, '/');
    SplitAtFirst(a, rest, '/');
    SplitAtFirst(b, tail, '/');
    assert Split(url, '/')[2..] == Split(tail, '/');
    JoinOfSplit(tail, '/');
    SameCut(a, b, tail, url, i);
  }

  /** There is only one position with exactly one slash before it. */
  lemma {:induction false} SameCut(a: string, b: string, tail: string, url: string, i: nat)
    requires '/' !in a && '/' !in b && url == a + ['/'] + (b + ['/'] + tail)
    requires i < |url| && url[i] == '/' && Count(url[..i], '/') == 1
    ensures url[i + 1..] == tail
  {
    var k := |a| + 1 + |b|;
    assert url[k] == '/';
    assert url[..k] == a + (['/'] + b);
    CountOfJoin(a, ['/'] + b, '/');
    CountZero(a, '/');
    CountZero(b, '/');
    assert (['/'] + b)[1..] == b;
    assert Count(url[..k], '/') == 1;
    if i < k {
      OneMore(url, i, k);
    } else if k < i {
      OneMore(url, k, i);
    }
    assert url[k + 1..] == tail;
  }

  lemma OneMore(s: string, i: nat, k: nat)
    requires i < k <= |s| && s[i] == '/'
    ensures Count(s[..k], '/') > Count(s[..i], '/')
  {
    assert s[..k] == s[..i] + s[i..k];
    CountOfJoin(s[..i], s[i..k], '/');
  }

  /** With fewer than two slashes there is no object part. */
  lemma NoObjectPath(url: string)
    requires Count(url, '/') < 2
    ensures ObjectPathFromURL(url) == ""
  {
    assert |Split(url, '/')| < 3;
  }

  ghost predicate SecondSlash(url: string, i: nat) {
    i < |url| && url[i] == '/' && Count(url[..i], '/') == 1
  }

  /** The object clause of the intercept test: some text follows the second slash. */
  lemma ObjectClause(url: string)
    ensures ObjectPathFromURL(url) != "" <==> exists i: nat :: SecondSlash(url, i) && i + 1 < |url|
  {
    if Count(url, '/') < 2 {
      NoObjectPath(url);
      forall i: nat | SecondSlash(url, i)
        ensures false
      {
        assert url[..|url|] == url;
        OneMore(url, i, |url|);
      }
    } else {
      var i := HasSecondSlash(url);
      ObjectPathIsSuffix(url, i);
      forall j: nat | SecondSlash(url, j)
        ensures ObjectPathFromURL(url) == url[j + 1..]
      {
        ObjectPathIsSuffix(url, j);
      }
    }
  }

  lemma HasSecondSlash(url: string) returns (i: nat)
    requires Count(url, '/') >= 2
    ensures SecondSlash(url, i)
  {
    var a, rest := FirstSeparator(url, '/');
    var b, tail := FirstSeparator(rest, '/');
    i := |a| + 1 + |b|;
    assert url[..i] == a + (['/'] + b);
    CountOfJoin(a, ['/'] + b, '/');
    CountZero(a, '/');
    CountZero(b, '/');
    assert (['/'] + b)[1..] == b;
  }

  /** The path has a bucket name between its first two slashes. */
  ghost predicate NamesBucket(path: string, a: string, bucket: string, rest: string) {
    '/' !in a && '/' !in bucket && path == a + ['/'] + (bucket + ['/'] + rest)
    && bucket != "" && bucket != "." && bucket != ".."
  }

  /** The intercept test in terms of the texts themselves: a GET for the adapter's host, without
      "location" in the query, with a bucket name in the path and an object part in the URL. */
  lemma InterceptTest(adapterHost: string, req: Request)
    ensures ShouldIntercept(adapterHost, req)
            <==> && req.verb == "GET"
                 && (exists i: nat :: At(req.host, adapterHost, i))
                 && !(exists i: nat :: At(req.url.rawQuery, "location", i))
                 && (exists a, bucket, rest :: NamesBucket(req.url.path, a, bucket, rest))
                 && (exists i: nat :: SecondSlash(req.url.text, i) && i + 1 < |req.url.text|)
  {
    ContainsMeans(req.host, adapterHost);
    ContainsMeans(req.url.rawQuery, "location");
    BucketClause(req.url.path);
    ObjectClause(req.url.text);
  }

  lemma BucketClause(path: string)
    ensures (exists a, bucket, rest :: NamesBucket(path, a, bucket, rest))
            <==> |Split(path, '/')| >= 3 && ValidateBucketName(Split(path, '/')[1])
  {
    forall a, bucket, rest | NamesBucket(path, a, bucket, rest)
      ensures |Split(path, '/')| >= 3 && Split(path, '/')[1] == bucket
    {
      SplitAtFirst(a, bucket + ['/'] + rest, '/');
      SplitAtFirst(bucket, rest, '/');
    }
    if |Split(path, '/')| >= 3 && ValidateBucketName(Split(path, '/')[1]) {
      var a, tail := FirstSeparator(path, '/');
      var bucket, rest := FirstSeparator(tail, '/');
      assert path == a + ['/'] + (bucket + ['/'] + rest);
      SplitAtFirst(a, tail, '/');
      SplitAtFirst(bucket, rest, '/');
      assert NamesBucket(path, a, bucket, rest);
    }
  }

  /** A listing of a bucket counts as an object request for every valid bucket name, because the
      query follows the slash; escaped is how the name appears in the URL text. */
  lemma ListingsAreIntercepted(adapterHost: string, req: Request, bucket: string, escaped: string)
    requires req.verb == "GET" && Contains(req.host, adapterHost) && !Contains(req.url.rawQuery, "location")
    requires '/' !in bucket && ValidateBucketName(bucket) && '/' !in escaped
    requires req.url.path == "/" + bucket + "/" && req.url.text == "/" + escaped + "/?" + req.url.rawQuery
    ensures ShouldIntercept(adapterHost, req)
  {
    ContainsMeans(req.host, adapterHost);
    ContainsMeans(req.url.rawQuery, "location");
    assert NamesBucket(req.url.path, "", bucket, "");
    var text, i := req.url.text, |escaped| + 1;
    assert text[..i] == ['/'] + escaped;
    assert (['/'] + escaped)[1..] == escaped;
    CountZero(escaped, '/');
    assert SecondSlash(text, i) && i + 1 < |text|;
    InterceptTest(adapterHost, req);
  }

  // ----- keys -----

  /** Hosts and paths as a request line delivers them, without an escaped question mark. */
  predicate Plain(u: URL) {
    '/' !in u.host && '?' !in u.host && '?' !in u.path && (u.path == "" || u.path[0] == '/')
  }

  /** The key determines host, path and query. */
  lemma KeyDetermines(r1: Request, r2: Request)
    requires Plain(r1.url) && Plain(r2.url) && ExtractObjectKey(r1) == ExtractObjectKey(r2)
    ensures r1.url.host == r2.url.host && r1.url.path == r2.url.path && r1.url.rawQuery == r2.url.rawQuery
  {
    var u, v := r1.url, r2.url;
    CutOnce(u.host + u.path, u.rawQuery, v.host + v.path, v.rawQuery, '?');
    SlashMeansPath(u);
    SlashMeansPath(v);
    if u.path != "" && v.path != "" {
      assert u.host + u.path == u.host + "/" + u.path[1..];
      assert v.host + v.path == v.host + "/" + v.path[1..];
      CutOnce(u.host, u.path[1..], v.host, v.path[1..], '/');
    }
  }

  lemma SlashMeansPath(u: URL)
    requires Plain(u)
    ensures '/' in u.host + u.path <==> u.path != ""
    ensures u.path == "" ==> u.host + u.path == u.host
  {
    if u.path != "" { assert (u.host + u.path)[|u.host|] == '/'; }
  }

  /** A text has one cut at its first separator. */
  lemma CutOnce(a: string, x: string, b: string, y: string, sep: char)
    requires sep !in a && sep !in b && a + [sep] + x == b + [sep] + y
    ensures a == b && x == y
  {
    CutPosition(a, x, sep);
    CutPosition(b, y, sep);
  }

  lemma CutPosition(a: string, x: string, sep: char)
    requires sep !in a
    ensures var s := a + [sep] + x;
            && s[|a|] == sep && a == s[..|a|] && x == s[|a| + 1..]
            && forall i :: 0 <= i < |a| ==> s[i] != sep
  {
    var s := a + [sep] + x;
    forall i | 0 <= i < |a|
      ensures s[i] != sep
    {
      assert s[i] == a[i] && a[i] in a;
    }
  }

  ghost predicate Collides(path: string, query: string, path': string, query': string) {
    path' != "" && path'[0] == '/' && (path', query') != (path, query)
    && Key("", path', query') == Key("", path, query)
  }

  /** For requests without a host in the URL, a key stands for two different requests exactly
      when a question mark occurs in the decoded path or in the query. */
  lemma KeyAmbiguity(path: string, query: string)
    requires path != "" && path[0] == '/'
    ensures (exists path', query' :: Collides(path, query, path', query')) <==> '?' in path || '?' in query
  {
    if '?' in query {
      var i :| 0 <= i < |query| && query[i] == '?';
      var p, q := path + "?" + query[..i], query[i + 1..];
      assert query == query[..i] + "?" + query[i + 1..];
      assert Key("", p, q) == Key("", path, query);
      assert |p| > |path|;
      assert Collides(path, query, p, q);
    } else if '?' in path {
      var i :| 0 <= i < |path| && path[i] == '?';
      var p, q := path[..i], path[i + 1..] + "?" + query;
      assert path == path[..i] + "?" + path[i + 1..];
      assert Key("", p, q) == Key("", path, query);
      assert |p| < |path|;
      assert Collides(path, query, p, q);
    } else {
      forall p, q
        ensures !Collides(path, query, p, q)
      {
        if Collides(path, query, p, q) { OnlyCut(path, query, p, q); }
      }
    }
  }

  lemma OnlyCut(path: string, query: string, p: string, q: string)
    requires '?' !in path && '?' !in query && Key("", p, q) == Key("", path, query)
    ensures p == path && q == query
  {
    var s := Key("", path, query);
    assert s == path + "?" + query && s == p + "?" + q;
    CutPosition(path, query, '?');
    forall i | |path| < i < |s|
      ensures s[i] != '?'
    {
      assert s[i] == query[i - |path| - 1] && query[i - |path| - 1] in query;
    }
    assert s[|p|] == '?';
    assert p == s[..|p|] && q == s[|p| + 1..];
  }
}
