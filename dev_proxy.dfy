/** The development proxy: the dev server forwards every request whose path
    starts with `/api` to the Nextcloud host after stripping that prefix, and
    in development the to-do backend points its base URL at that proxy by
    replacing the `https://host` part of the stored URL with `/api`. */
module DevProxy {
  import Js

  /** The proxy's path rewrite: one leading `/api` is removed, as a plain
      text prefix (so `/apix` becomes `x`). */
  function Rewrite(path: string): (r: string)
    ensures Js.StartsWith(path, "/api") ==> path == "/api" + r
    ensures !Js.StartsWith(path, "/api") ==> r == path
  {
    if Js.StartsWith(path, "/api") then path[4..] else path
  }

  /** Prefixing `/api` and rewriting gives the path back. */
  lemma RewriteRemovesPrefix(p: string)
    ensures Rewrite("/api" + p) == p
  {
    assert Js.StartsWith("/api" + p, "/api") by {
      assert ("/api" + p)[..4] == "/api";
    }
    assert ("/api" + p)[4..] == p;
  }

  /** The longest prefix of `s` without a slash: what `[^/]+` consumes. */
  function HostPrefix(s: string): (h: string)
    ensures |h| <= |s| && h == s[..|h|]
    ensures '/' !in h
    ensures |h| < |s| ==> s[|h|] == '/'
  {
    if s == [] || s[0] == '/' then [] else [s[0]] + HostPrefix(s[1..])
  }

  /** The development base-URL rewrite: a leading `https://` followed by at
      least one non-slash character is replaced, up to the next slash, by
      `/api`; any other URL is left alone. */
  function DevUrlRewrite(url: string): (r: string)
    ensures !Js.StartsWith(url, "https://") ==> r == url
  {
    if Js.StartsWith(url, "https://") && HostPrefix(url[8..]) != "" then
      "/api" + url[8 + |HostPrefix(url[8..])|..]
    else
      url
  }

  lemma {:induction false} HostPrefixOf(host: string, p: string)
    requires '/' !in host
    requires p == [] || p[0] == '/'
    ensures HostPrefix(host + p) == host
  {
    if host != [] {
      assert (host + p)[1..] == host[1..] + p;
      HostPrefixOf(host[1..], p);
    }
  }

  /** `https://host/p` becomes `/api/p` for a host without slashes. */
  lemma DevUrlRewriteOfHost(host: string, p: string)
    requires host != [] && '/' !in host
    requires p == [] || p[0] == '/'
    ensures DevUrlRewrite("https://" + host + p) == "/api" + p
  {
    var url := "https://" + host + p;
    assert url[..8] == "https://";
    assert url[8..] == host + p;
    HostPrefixOf(host, p);
    assert url[8 + |host|..] == p;
  }

  /** The two rewrites compose to the path on the Nextcloud host:
      `https://host/p` is requested as `/api/p` and forwarded as `/p`. */
  lemma DevUrlRoundTrip(host: string, p: string)
    requires host != [] && '/' !in host
    requires p == [] || p[0] == '/'
    ensures Rewrite(DevUrlRewrite("https://" + host + p)) == p
  {
    DevUrlRewriteOfHost(host, p);
    RewriteRemovesPrefix(p);
  }
}
