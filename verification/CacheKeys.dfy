/**
  The layout of cache keys. A key names a tenant, a tool and a digest of the arguments,
  separated by colons; the two invalidation prefixes name a tenant, or a tenant and a tool.
*/
module CacheKeys {

  /** One cacheable call. The arguments are their canonical JSON text. */
  datatype Request = Request(tenant: string, tool: string, args: string)

  predicate ColonFree(s: string) {
    ':' !in s
  }

  predicate PlainNames(r: Request) {
    ColonFree(r.tenant) && ColonFree(r.tool)
  }

  /** The digest stands for the truncated SHA-256, which is assumed to be injective. */
  ghost predicate Injective(digest: string -> string) {
    forall a, b :: digest(a) == digest(b) ==> a == b
  }

  /** It is written in hexadecimal digits, so it has no colon. */
  ghost predicate Hex(digest: string -> string) {
    forall x :: ColonFree(digest(x))
  }

  function FullName(tenant: string, tool: string): string {
    tenant + ":" + tool
  }

  function CacheKey(digest: string -> string, r: Request): string {
    "atlas:" + r.tenant + ":" + r.tool + ":" + digest(r.args)
  }

  function ToolPrefix(tenant: string, tool: string): string {
    "atlas:" + tenant + ":" + tool + ":"
  }

  function TenantPrefix(tenant: string): string {
    "atlas:" + tenant + ":"
  }

  /** The position of the first colon, or the length. */
  function FirstColon(s: string): nat {
    if s == [] || s[0] == ':' then 0 else 1 + FirstColon(s[1..])
  }

  lemma {:induction false} FirstColonAfter(name: string, rest: string)
    requires ColonFree(name)
    ensures FirstColon(name + ":" + rest) == |name|
  {
    if name != [] {
      FirstColonAfter(name[1..], rest);
      assert (name + ":" + rest)[1..] == name[1..] + ":" + rest;
    }
  }

  /** A colon-free name before a colon is determined by the text it starts. */
  lemma NameBeforeColon(a: string, b: string, rest: string)
    requires ColonFree(a) && ColonFree(b) && a + ":" <= b + ":" + rest
    ensures a == b
  {
    var s := b + ":" + rest;
    assert s == a + ":" + s[|a| + 1..];
    FirstColonAfter(a, s[|a| + 1..]);
    FirstColonAfter(b, rest);
    assert a == s[..|a|] && b == s[..|b|];
  }

  lemma DropCommon(p: string, a: string, b: string)
    requires p + a <= p + b
    ensures a <= b
  {
    assert a == (p + a)[|p|..] && b == (p + b)[|p|..];
  }

  lemma Regroup(digest: string -> string, r: Request)
    ensures CacheKey(digest, r) == "atlas:" + (r.tenant + ":" + (r.tool + ":" + digest(r.args)))
  {
  }

  /** The tenant prefix matches exactly the keys of that tenant. */
  lemma TenantPrefixExact(digest: string -> string, tenant: string, r: Request)
    requires ColonFree(tenant) && PlainNames(r)
    ensures TenantPrefix(tenant) <= CacheKey(digest, r) <==> r.tenant == tenant
  {
    var rest := r.tool + ":" + digest(r.args);
    Regroup(digest, r);
    assert TenantPrefix(tenant) == "atlas:" + (tenant + ":");
    if TenantPrefix(tenant) <= CacheKey(digest, r) {
      DropCommon("atlas:", tenant + ":", r.tenant + ":" + rest);
      NameBeforeColon(tenant, r.tenant, rest);
    }
  }

  /** The tool prefix matches exactly the keys of that tenant and tool. */
  lemma ToolPrefixExact(digest: string -> string, tenant: string, tool: string, r: Request)
    requires ColonFree(tenant) && ColonFree(tool) && PlainNames(r)
    ensures ToolPrefix(tenant, tool) <= CacheKey(digest, r) <==> r.tenant == tenant && r.tool == tool
  {
    Regroup(digest, r);
    assert ToolPrefix(tenant, tool) == TenantPrefix(tenant) + (tool + ":");
    if ToolPrefix(tenant, tool) <= CacheKey(digest, r) {
      TenantPrefixExact(digest, tenant, r);
      assert CacheKey(digest, r) == TenantPrefix(tenant) + (r.tool + ":" + digest(r.args));
      DropCommon(TenantPrefix(tenant), tool + ":", r.tool + ":" + digest(r.args));
      NameBeforeColon(tool, r.tool, digest(r.args));
    }
  }

  // ---------------------------------------------------------------------------------
  // When two calls share a key
  // ---------------------------------------------------------------------------------

  /** What follows the last colon is determined. */
  lemma LastColonSplits(a: string, d: string, b: string, e: string)
    requires ColonFree(d) && ColonFree(e) && a + ":" + d == b + ":" + e
    ensures a == b && d == e
  {
    var s := a + ":" + d;
    assert s[|a|] == ':' && s[|b|] == ':';
    assert forall i :: |a| < i < |s| ==> s[i] == d[i - |a| - 1];
    assert forall i :: |b| < i < |s| ==> s[i] == e[i - |b| - 1];
    assert |a| == |b|;
    assert a == s[..|a|] && b == s[..|b|] && d == s[|a| + 1..] && e == s[|b| + 1..];
  }

  lemma KeyIsNamed(digest: string -> string, r: Request)
    ensures CacheKey(digest, r) == "atlas:" + (FullName(r.tenant, r.tool) + ":" + digest(r.args))
  {
  }

  lemma Unprefix(prefix: string, a: string, b: string)
    requires prefix + a == prefix + b
    ensures a == b
  {
    assert a == (prefix + a)[|prefix|..] && b == (prefix + b)[|prefix|..];
  }

  /** Whatever the names, two calls share a key exactly when tenant and tool, joined by a colon,
      spell the same and the arguments are the same. */
  lemma KeysEqualIff(digest: string -> string, r: Request, q: Request)
    requires Injective(digest) && Hex(digest)
    ensures CacheKey(digest, r) == CacheKey(digest, q) <==>
            FullName(r.tenant, r.tool) == FullName(q.tenant, q.tool) && r.args == q.args
  {
    KeyIsNamed(digest, r);
    KeyIsNamed(digest, q);
    if CacheKey(digest, r) == CacheKey(digest, q) {
      var a, b := FullName(r.tenant, r.tool), FullName(q.tenant, q.tool);
      Unprefix("atlas:", a + ":" + digest(r.args), b + ":" + digest(q.args));
      LastColonSplits(a, digest(r.args), b, digest(q.args));
    }
  }

  /** With colon-free tools, whatever the tenants, equal keys mean the same tenant, tool and
      arguments. */
  lemma KeyInjective(digest: string -> string, r: Request, q: Request)
    requires Injective(digest) && Hex(digest) && ColonFree(r.tool) && ColonFree(q.tool)
    requires CacheKey(digest, r) == CacheKey(digest, q)
    ensures r == q
  {
    KeysEqualIff(digest, r, q);
    LastColonSplits(r.tenant, r.tool, q.tenant, q.tool);
  }

  /** One tenant's name goes on from the other's with a colon. */
  predicate Extends(a: string, b: string) {
    a + ":" <= b || b + ":" <= a
  }

  lemma SameFullName(a: string, t: string, b: string, u: string)
    requires FullName(a, t) == FullName(b, u) && a != b
    ensures Extends(a, b)
  {
    var s := FullName(a, t);
    assert a == s[..|a|] && b == s[..|b|];
    if |a| < |b| {
      assert a + ":" == s[..|a| + 1] <= b;
    } else {
      assert b + ":" == s[..|b| + 1] <= a;
    }
  }

  /** Tools under which the tenants a and a:... share their full names. */
  function SharedTools(a: string, b: string): (string, string)
    requires Extends(a, b)
  {
    if a + ":" <= b then (b[|a| + 1..] + ":tool", "tool") else ("tool", a[|b| + 1..] + ":tool")
  }

  lemma SharedToolsShare(a: string, b: string)
    requires Extends(a, b)
    ensures FullName(a, SharedTools(a, b).0) == FullName(b, SharedTools(a, b).1)
  {
    if a + ":" <= b {
      assert b == a + ":" + b[|a| + 1..];
    } else {
      assert a == b + ":" + a[|b| + 1..];
    }
  }

  /** Two tenants can come to share a key, under some tools, if and only if one's name goes on from
      the other's with a colon. */
  lemma TenantsShareIff(digest: string -> string, a: string, b: string, args: string)
    requires Injective(digest) && Hex(digest) && a != b
    ensures (exists t, u :: CacheKey(digest, Request(a, t, args)) == CacheKey(digest, Request(b, u, args)))
            <==> Extends(a, b)
  {
    if Extends(a, b) {
      var (t, u) := SharedTools(a, b);
      SharedToolsShare(a, b);
      KeysEqualIff(digest, Request(a, t, args), Request(b, u, args));
    }
    forall t, u | CacheKey(digest, Request(a, t, args)) == CacheKey(digest, Request(b, u, args)) ensures Extends(a, b) {
      KeysEqualIff(digest, Request(a, t, args), Request(b, u, args));
      SameFullName(a, t, b, u);
    }
  }

  /** The shortest names that share a key, and over which one tenant's prefix reaches. */
  lemma ColonsCollide(digest: string -> string, args: string)
    ensures CacheKey(digest, Request("a", "b:c", args)) == CacheKey(digest, Request("a:b", "c", args))
    ensures TenantPrefix("a") <= CacheKey(digest, Request("a:b", "c", args))
  {
  }

  // ---------------------------------------------------------------------------------
  // How far a prefix reaches
  // ---------------------------------------------------------------------------------

  /** The keys of the tenant itself, of tenants whose names go on from it with a colon, and of a
      tool whose full name it spells. */
  predicate InReach(tenant: string, r: Request) {
    tenant == r.tenant || tenant + ":" <= r.tenant || tenant == FullName(r.tenant, r.tool)
  }

  /** With colon-free tools, whatever the tenants, the prefix of a tenant matches exactly these. */
  lemma TenantPrefixReaches(digest: string -> string, tenant: string, r: Request)
    requires Hex(digest) && ColonFree(r.tool)
    ensures TenantPrefix(tenant) <= CacheKey(digest, r) <==> InReach(tenant, r)
  {
    var s := FullName(r.tenant, r.tool) + ":" + digest(r.args);
    KeyIsNamed(digest, r);
    assert TenantPrefix(tenant) == "atlas:" + (tenant + ":");
    if TenantPrefix(tenant) <= CacheKey(digest, r) {
      DropCommon("atlas:", tenant + ":", s);
      EndsAtColon(tenant, r.tenant, r.tool, digest(r.args));
    } else {
      assert !(tenant + ":" <= s);
      assert r.tenant + ":" <= s && FullName(r.tenant, r.tool) + ":" <= s;
      assert tenant + ":" <= r.tenant ==> r.tenant <= s;
    }
  }

  lemma EndsAtColon(name: string, tenant: string, tool: string, rest: string)
    requires ColonFree(tool) && ColonFree(rest) && name + ":" <= FullName(tenant, tool) + ":" + rest
    ensures name == tenant || name + ":" <= tenant || name == FullName(tenant, tool)
  {
    var s, n, m := FullName(tenant, tool) + ":" + rest, |name|, |FullName(tenant, tool)|;
    assert s[n] == ':' && name == s[..n] && name + ":" == s[..n + 1];
    assert tenant == s[..|tenant|] && FullName(tenant, tool) == s[..m];
    assert forall i :: |tenant| < i < m ==> s[i] == tool[i - |tenant| - 1];
    assert forall i :: m < i < |s| ==> s[i] == rest[i - m - 1];
    assert n <= |tenant| || n == m;
  }

  /** The prefix of a tool reaches as far as that of a tenant of its full name. */
  lemma ToolPrefixReaches(digest: string -> string, tenant: string, tool: string, r: Request)
    requires Hex(digest) && ColonFree(r.tool)
    ensures ToolPrefix(tenant, tool) <= CacheKey(digest, r) <==> InReach(FullName(tenant, tool), r)
  {
    assert ToolPrefix(tenant, tool) == TenantPrefix(FullName(tenant, tool));
    TenantPrefixReaches(digest, FullName(tenant, tool), r);
  }

  // ---------------------------------------------------------------------------------
  // The assumptions on the digest can be met
  // ---------------------------------------------------------------------------------

  /** Every character marked, a colon as another one. */
  function Marked(s: string): string {
    if s == "" then "" else (if s[0] == ':' then "--" else [s[0], '+']) + Marked(s[1..])
  }

  lemma {:induction false} MarkedFacts(s: string, t: string)
    ensures ColonFree(Marked(s)) && (Marked(s) == Marked(t) ==> s == t)
  {
    if s != "" {
      MarkedFacts(s[1..], if t == "" then t else t[1..]);
      assert Marked(s)[2..] == Marked(s[1..]);
    }
    if s != "" && t != "" && Marked(s) == Marked(t) {
      assert Marked(t)[2..] == Marked(t[1..]);
      assert Marked(s)[0] == Marked(t)[0] && Marked(s)[1] == Marked(t)[1];
      assert s == [s[0]] + s[1..] && t == [t[0]] + t[1..];
    }
  }

  lemma DigestsExist() returns (digest: string -> string)
    ensures Injective(digest) && Hex(digest)
  {
    digest := s => Marked(s);
    forall a, b ensures ColonFree(digest(a)) && (digest(a) == digest(b) ==> a == b) {
      MarkedFacts(a, b);
    }
  }
}
