/** Path normalisation of the API function (api.ts:26-37): the pathname of
    the request URL becomes the logical path that the router matches. */
module Paths {

  /** The path under which Netlify invokes the function directly. */
  const FunctionPrefix := "/.netlify/functions/api"

  predicate StartsWith(s: string, prefix: string) {
    |prefix| <= |s| && s[..|prefix|] == prefix
  }

  /** `r` is a contiguous piece of `s`. */
  ghost predicate IsSlice(r: string, s: string) {
    exists i, j :: 0 <= i <= j <= |s| && r == s[i..j]
  }

  /** Step 1: strip the function-invocation prefix (a plain string prefix,
      not a path segment). */
  function StripFunctionPrefix(p: string): string {
    if StartsWith(p, FunctionPrefix) then p[|FunctionPrefix|..] else p
  }

  /** Step 2: `/api` becomes `/`, and `/api/x` becomes `/x`. */
  function StripApiPrefix(p: string): string {
    if p == "/api" then "/" else if StartsWith(p, "/api/") then p[4..] else p
  }

  /** Step 3: drop one trailing slash, unless the path is a single character. */
  function TrimTrailingSlash(p: string): string {
    if |p| > 1 && p[|p| - 1] == '/' then p[..|p| - 1] else p
  }

  /** The logical path of a request pathname. Normalisation only ever cuts
      characters off the two ends of the pathname; it never adds any. */
  function NormalizePath(p: string): (r: string)
    ensures |r| <= |p|
    ensures IsSlice(r, p)
  {
    var a := StripFunctionPrefix(p);
    var b := StripApiPrefix(a);
    var c := TrimTrailingSlash(b);
    var i := if StartsWith(p, FunctionPrefix) then |FunctionPrefix| else 0;
    assert a == p[i..];
    var j := if a == "/api" then 0 else if StartsWith(a, "/api/") then 4 else 0;
    var k := if a == "/api" then 1 else |b|;
    assert b == a[j..j + k];
    var k' := if |b| > 1 && b[|b| - 1] == '/' then k - 1 else k;
    assert c == a[j..j + k'];
    assert c == p[i + j..i + j + k'];
    c
  }

  /** A path as the router's table spells it: it starts with a slash, has no
      trailing slash (unless it is the root), and does not itself begin with
      one of the prefixes that normalisation strips. */
  predicate IsLogicalPath(q: string) {
    && |q| >= 1 && q[0] == '/'
    && (q == "/" || q[|q| - 1] != '/')
    && q != "/api" && !StartsWith(q, "/api/")
    && !StartsWith(q, FunctionPrefix)
  }

  /** A slash-led path whose second character rules out both stripped
      prefixes, and that has no trailing slash, is already logical. */
  lemma LogicalBySecondChar(q: string)
    requires |q| >= 2 && q[0] == '/' && q[1] != 'a' && q[1] != '.' && q[|q| - 1] != '/'
    ensures IsLogicalPath(q)
  {
    if |q| >= 5 {
      assert q[..5][1] != "/api/"[1];
    }
    if |q| >= |FunctionPrefix| {
      assert q[..|FunctionPrefix|][1] != FunctionPrefix[1];
    }
  }

  /** A path under `/api` never starts with the function URL. */
  lemma ApiNotFunctionPrefixed(q: string)
    requires |q| >= 1 && q[0] == '/'
    ensures !StartsWith("/api" + q, FunctionPrefix)
    ensures !StartsWith("/api" + q + "/", FunctionPrefix)
  {
    assert ("/api" + q)[1] == 'a';
    assert ("/api" + q + "/")[1] == 'a';
  }

  /** The `/api` strip removes exactly the four characters of `/api`. */
  lemma StripsApiFromFront(q: string)
    requires |q| >= 1 && q[0] == '/'
    ensures StripApiPrefix("/api" + q) == q
    ensures StripApiPrefix("/api" + q + "/") == q + "/"
  {
    assert ("/api" + q)[..5] == "/api/";
    assert ("/api" + q)[4..] == q;
    assert ("/api" + q + "/")[..5] == "/api/";
    assert ("/api" + q + "/")[4..] == q + "/";
  }

  /** The function-URL strip removes exactly the function URL. */
  lemma StripsFunctionPrefix(q: string)
    ensures StripFunctionPrefix(FunctionPrefix + q) == q
  {
    assert (FunctionPrefix + q)[..|FunctionPrefix|] == FunctionPrefix;
    assert (FunctionPrefix + q)[|FunctionPrefix|..] == q;
  }

  /** Appending one slash to a logical path does not create a prefix that
      normalisation would strip. */
  lemma KeepsLogicalPath(q: string)
    requires IsLogicalPath(q)
    ensures StripApiPrefix(q + "/") == q + "/"
    ensures !StartsWith(q + "/", FunctionPrefix)
  {
    var q' := q + "/";
    assert q'[|q|] == '/';
    if |q| >= |FunctionPrefix| {
      assert q'[..|FunctionPrefix|] == q[..|FunctionPrefix|];
    } else if |q| + 1 == |FunctionPrefix| {
      assert q'[|q|] != FunctionPrefix[|q|];
    }
    if |q| >= 5 {
      assert q'[..5] == q[..5];
    } else if |q| == 4 {
      assert q'[..4] == q;
      assert q'[..4] != "/api";
    } else if |q| == 3 {
      assert q'[3] != "/api"[3];
    }
  }

  /** The function URL, the `/api` URL and either of them with a trailing
      slash all reach the same logical path. */
  lemma {:induction false} PrefixVariantsNormalize(q: string)
    requires IsLogicalPath(q)
    ensures NormalizePath(q) == q
    ensures NormalizePath(q + "/") == q
    ensures NormalizePath("/api" + q) == q
    ensures NormalizePath("/api" + q + "/") == q
    ensures NormalizePath(FunctionPrefix + q) == q
    ensures NormalizePath(FunctionPrefix + q + "/") == q
    ensures NormalizePath(FunctionPrefix + "/api" + q) == q
  {
    ApiNotFunctionPrefixed(q);
    StripsApiFromFront(q);
    StripsFunctionPrefix(q);
    StripsFunctionPrefix(q + "/");
    StripsFunctionPrefix("/api" + q);
    assert FunctionPrefix + q + "/" == FunctionPrefix + (q + "/");
    assert FunctionPrefix + "/api" + q == FunctionPrefix + ("/api" + q);
    KeepsLogicalPath(q);
    assert (q + "/")[..|q|] == q;
    assert ("/api" + q + "/")[..|"/api" + q|] == "/api" + q;
  }

  /** Only one trailing slash is removed: a doubled slash leaves one behind,
      so the path no longer matches its route. */
  lemma {:induction false} OneTrailingSlashRemoved(q: string)
    requires IsLogicalPath(q)
    ensures NormalizePath(q + "//") == q + "/"
    ensures NormalizePath("/api" + q + "//") == q + "/"
  {
    ApiNotFunctionPrefixed(q + "/");
    StripsApiFromFront(q + "/");
    assert "/api" + q + "//" == "/api" + (q + "/") + "/";
    assert q + "//" == (q + "/") + "/";
    KeepsLogicalPath(q);
    var q'' := q + "//";
    if |q''| >= |FunctionPrefix| {
      assert q''[..|FunctionPrefix| - 1] == (q + "/")[..|FunctionPrefix| - 1];
      if |q| + 1 >= |FunctionPrefix| {
        assert q''[..|FunctionPrefix|] == (q + "/")[..|FunctionPrefix|];
      } else {
        assert q''[|FunctionPrefix| - 1] != FunctionPrefix[|FunctionPrefix| - 1];
      }
    }
    if |q| >= 5 {
      assert q''[..5] == q[..5];
    } else if |q| == 4 {
      assert q''[..4] == q;
      assert q''[..4] != "/api";
    } else if |q| == 3 {
      assert q''[3] != "/api/"[3];
    } else if |q| == 2 {
      assert q''[2] != "/api/"[2];
    } else {
      assert q''[1] != "/api/"[1];
    }
    assert (q + "//")[..|q + "/"|] == q + "/";
    assert ("/api" + q + "//")[..|"/api" + q + "/"|] == "/api" + q + "/";
  }

  /** `/api` alone is the root; the bare function URL is the empty path. */
  lemma RootPaths()
    ensures NormalizePath("/api") == "/"
    ensures NormalizePath("/api/") == "/"
    ensures NormalizePath("/") == "/"
    ensures NormalizePath(FunctionPrefix) == ""
    ensures NormalizePath(FunctionPrefix + "/") == "/"
  {
    StripsFunctionPrefix("");
    StripsFunctionPrefix("/");
    assert FunctionPrefix + "" == FunctionPrefix;
  }
}
