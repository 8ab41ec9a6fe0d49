/** How a (context, path) pair becomes a URL: the cache keys, the base
    address joins, the choice between a direct and a routed URL, and what
    each resolution leaves in the cache. Every function here takes the cache
    as it is before the call: a cached base address wins over the manager. */
module Resolution {
  import opened Wrappers
  import opened Text
  import opened Config

  /** A resolved URL: a base address joined to a path, or the
      `file-secretary.get.download_file` route with its three parameters. */
  datatype Url =
    | Direct(address: string)
    | Routed(contextName: string, contextFolder: string, afterContextPath: string)

  /** The static `$cache`: resolution keys to base addresses. */
  type Cache = map<string, string>

  const AssetPrefix: string := "asset_folders__"
  const FullRelativePrefix: string := "full_relative_to_full_url__"

  /** PHP's `(string)$force`: "1" for true, "" for false. */
  function BoolText(b: bool): string
  {
    if b then "1" else ""
  }

  /** The cache key of `asset`. */
  function AssetKey(folder: string, force: bool): string
  {
    AssetPrefix + folder + "_bool_" + BoolText(force)
  }

  /** The cache key of `fromContextFullRelative`. */
  function FullRelativeKey(ctx: string): string
  {
    FullRelativePrefix + ctx
  }

  /** No two (folder, force) pairs share an asset key. */
  lemma AssetKeyInjective(f1: string, b1: bool, f2: string, b2: bool)
    requires AssetKey(f1, b1) == AssetKey(f2, b2)
    ensures f1 == f2 && b1 == b2
  {
    var k1, k2 := AssetKey(f1, b1), AssetKey(f2, b2);
    assert k1[|k1| - 1] == if b1 then '1' else '_';
    assert k2[|k2| - 1] == if b2 then '1' else '_';
    if b1 == b2 {
      var n := |AssetPrefix|;
      assert k1[n..|k1| - |"_bool_" + BoolText(b1)|] == f1;
      assert k2[n..|k2| - |"_bool_" + BoolText(b2)|] == f2;
    }
  }

  /** No two contexts share a base-address key. */
  lemma FullRelativeKeyInjective(c1: string, c2: string)
    requires FullRelativeKey(c1) == FullRelativeKey(c2)
    ensures c1 == c2
  {
    assert FullRelativeKey(c1)[|FullRelativePrefix|..] == c1;
    assert FullRelativeKey(c2)[|FullRelativePrefix|..] == c2;
  }

  /** Asset keys and base-address keys never collide. */
  lemma CacheKeysApart(folder: string, force: bool, ctx: string)
    ensures AssetKey(folder, force) != FullRelativeKey(ctx)
  {
    assert AssetKey(folder, force)[0] == 'a';
    assert FullRelativeKey(ctx)[0] == 'f';
  }

  // ---------------------------------------------------------------- asset

  /** The base `asset` uses: the cached one, else the manager's answer. */
  function AssetBase(c: Cache, m: Manager, folder: string, force: bool): string
  {
    var key := AssetKey(folder, force);
    if key in c then c[key] else m.startingUrl(folder, force)
  }

  /** `rtrim(base, '/') . '/' . trim(item, '/')`. */
  function JoinAsset(base: string, item: string): string
  {
    RTrim(base, Slash) + "/" + Trim(item, Slash)
  }

  /** The URL `asset(folder, item, force)` returns. */
  function AssetUrl(c: Cache, m: Manager, folder: string, item: string, force: bool): string
  {
    JoinAsset(AssetBase(c, m, folder, force), item)
  }

  /** The cache after `asset(folder, _, force)`. */
  function FillAsset(c: Cache, m: Manager, folder: string, force: bool): Cache
  {
    c[AssetKey(folder, force) := AssetBase(c, m, folder, force)]
  }

  // ------------------------------------------------------- base addresses

  /** The base `fromContextFullRelative` uses: the cached one, else the
      configured `driver_base_address` (which may be null). */
  function CachedBase(c: Cache, m: Manager, ctx: string): Option<string>
  {
    var key := FullRelativeKey(ctx);
    if key in c then Some(c[key]) else BaseAddress(m, ctx)
  }

  /** `rtrim(base, '/') . '/' . trim(path)`: the path loses surrounding
      whitespace only, never slashes. */
  function JoinDirect(base: string, path: string): string
  {
    RTrim(base, Slash) + "/" + Trim(path, Whitespace)
  }

  /** The result of `fromContextFullRelative(ctx, path)`. */
  function FullRelativeUrl(c: Cache, m: Manager, ctx: string, path: string): (r: Option<string>)
    ensures r.None? <==> FullRelativeKey(ctx) !in c && BaseAddress(m, ctx).None?
  {
    match CachedBase(c, m, ctx)
    case None => None
    case Some(b) => Some(JoinDirect(b, path))
  }

  /** The cache after `fromContextFullRelative(ctx, _)`. */
  function FillFullRelative(c: Cache, m: Manager, ctx: string): Cache
  {
    match CachedBase(c, m, ctx)
    case None => c
    case Some(b) => c[FullRelativeKey(ctx) := b]
  }

  /** The result of `fromContextSpec`: a direct URL exactly when the base
      address is preferred and the configured one is truthy, and then the one
      `fromContextFullRelative` gives for `folder/after`; otherwise the route
      with exactly the three given parameters. */
  function ContextSpecUrl(c: Cache, m: Manager, ctx: string, folder: string, after: string, prefer: bool): (r: Url)
    ensures r.Direct? <==> prefer && TruthyOpt(BaseAddress(m, ctx))
    ensures r.Direct? ==> FullRelativeUrl(c, m, ctx, folder + "/" + after) == Some(r.address)
    ensures r.Routed? ==> r == Routed(ctx, folder, after)
  {
    if prefer && TruthyOpt(BaseAddress(m, ctx)) then
      Direct(JoinDirect(CachedBase(c, m, ctx).value, folder + "/" + after))
    else
      Routed(ctx, folder, after)
  }

  /** The cache after `fromContextSpec(ctx, ...)`. */
  function Warm(c: Cache, m: Manager, ctx: string, prefer: bool): Cache
  {
    if prefer && TruthyOpt(BaseAddress(m, ctx)) then FillFullRelative(c, m, ctx) else c
  }

  /** Every cached entry agrees with what the manager answers now. This
      holds from a purge until the manager is replaced. */
  ghost predicate Consistent(c: Cache, m: Manager)
  {
    && (forall ctx :: FullRelativeKey(ctx) in c ==> BaseAddress(m, ctx) == Some(c[FullRelativeKey(ctx)]))
    && (forall f, b :: AssetKey(f, b) in c ==> c[AssetKey(f, b)] == m.startingUrl(f, b))
  }

  // ----------------------------------------------------------- the joins

  lemma {:induction false} RTrimCons(ch: char, s: string, cs: set<char>)
    ensures RTrim([ch] + s, cs) == if ch in cs && RTrim(s, cs) == [] then [] else [ch] + RTrim(s, cs)
    decreases |s|
  {
    if |s| > 0 && s[|s| - 1] in cs {
      assert ([ch] + s)[..|s|] == [ch] + s[..|s| - 1];
      RTrimCons(ch, s[..|s| - 1], cs);
    } else {
      assert ([ch] + s)[..|s| + 1] == [ch] + s;
    }
  }

  /** Extra slashes at the seam of an asset URL change nothing: a trailing
      one on the base, or one on either end of the item. */
  lemma {:induction false} AssetSeamIgnoresSlashes(base: string, item: string)
    ensures JoinAsset(base + "/", item) == JoinAsset(base, item)
    ensures JoinAsset(base, "/" + item) == JoinAsset(base, item)
    ensures JoinAsset(base, item + "/") == JoinAsset(base, item)
  {
    assert (base + "/")[..|base|] == base;
    assert (item + "/")[..|item|] == item;
    RTrimCons('/', item, Slash);
    var p := RTrim(item, Slash);
    if p != [] {
      assert ("/" + p)[1..] == p;
    }
  }

  /** An asset base without a trailing slash and an item without edge
      slashes are joined by exactly one slash and otherwise kept as they are. */
  lemma CleanAssetJoin(base: string, item: string)
    requires base == [] || base[|base| - 1] != '/'
    requires item == [] || (item[0] != '/' && item[|item| - 1] != '/')
    ensures JoinAsset(base, item) == base + "/" + item
  {
    TrimKeepsClean(base, Slash);
    TrimKeepsClean(item, Slash);
  }

  /** `trim` in `fromContextFullRelative` strips whitespace, not slashes: a
      path that starts with a slash yields a double slash at the seam. */
  lemma DirectKeepsLeadingSlash(base: string, path: string)
    ensures JoinDirect(base, "/" + path) == RTrim(base, Slash) + "//" + RTrim(path, Whitespace)
  {
    RTrimCons('/', path, Whitespace);
    var q := RTrim("/" + path, Whitespace);
    assert q == "/" + RTrim(path, Whitespace);
    assert q[0] == '/';
    assert LTrim(q, Whitespace) == q;
    assert Trim("/" + path, Whitespace) == q;
  }

  /** The direct URL of the base address "https://cdn.example.com/" and the
      path "a/b" is "https://cdn.example.com/a/b". */
  lemma CdnExample(c: Cache, m: Manager, ctx: string)
    requires FullRelativeKey(ctx) !in c
    requires BaseAddress(m, ctx) == Some("https://cdn.example.com/")
    ensures FullRelativeUrl(c, m, ctx, "a/b") == Some("https://cdn.example.com/a/b")
  {
    CdnJoin("https://cdn.example.com/", "a/b");
  }

  lemma CdnJoin(b: string, p: string)
    requires b == "https://cdn.example.com/" && p == "a/b"
    ensures JoinDirect(b, p) == "https://cdn.example.com/a/b"
  {
    var h := b[..|b| - 1];
    assert h == "https://cdn.example.com";
    assert h[|h| - 1] == 'm';
    TrimKeepsClean(h, Slash);
    assert RTrim(b, Slash) == RTrim(h, Slash);
    TrimKeepsClean(p, Whitespace);
    LiteralJoin();
  }

  lemma LiteralJoin()
    ensures "https://cdn.example.com" + "/" + "a/b" == "https://cdn.example.com/a/b"
  {
    var joined := "https://cdn.example.com" + "/" + "a/b";
    assert |joined| == 27;
    assert forall i :: 0 <= i < 27 ==> joined[i] == "https://cdn.example.com/a/b"[i];
  }

  /** `fromContextSpec` tests the base address for truthiness, while
      `fromContextFullRelative` only tests for null: an empty base address
      routes, yet resolves directly to "/" + the path. */
  lemma EmptyBaseAddressGap(c: Cache, m: Manager, ctx: string, folder: string, after: string)
    requires FullRelativeKey(ctx) !in c
    requires BaseAddress(m, ctx) == Some("")
    ensures ContextSpecUrl(c, m, ctx, folder, after, true) == Routed(ctx, folder, after)
    ensures FullRelativeUrl(c, m, ctx, folder + "/" + after) == Some("/" + Trim(folder + "/" + after, Whitespace))
  {
    assert RTrim("", Slash) == "";
    assert CachedBase(c, m, ctx) == Some("");
    assert JoinDirect("", folder + "/" + after) == "/" + Trim(folder + "/" + after, Whitespace);
  }

  // ------------------------------------------------------------ the cache

  /** A cached entry is used whatever the manager now says: the manager is
      not consulted once the key is present. */
  lemma CachedEntryWins(c: Cache, m1: Manager, m2: Manager, ctx: string, path: string, folder: string, item: string, force: bool)
    ensures FullRelativeKey(ctx) in c ==>
      FullRelativeUrl(c, m1, ctx, path) == FullRelativeUrl(c, m2, ctx, path) == Some(JoinDirect(c[FullRelativeKey(ctx)], path))
    ensures AssetKey(folder, force) in c ==>
      AssetUrl(c, m1, folder, item, force) == AssetUrl(c, m2, folder, item, force) == JoinAsset(c[AssetKey(folder, force)], item)
  {
  }

  /** `fromContextSpec` asks the current manager before it looks at the
      cache: a context whose base address is not truthy now is routed, even
      when an entry cached under an earlier manager would give a direct URL. */
  lemma SpecAsksCurrentManager(c: Cache, m: Manager, ctx: string, folder: string, after: string, prefer: bool)
    requires !TruthyOpt(BaseAddress(m, ctx))
    ensures ContextSpecUrl(c, m, ctx, folder, after, prefer) == Routed(ctx, folder, after)
    ensures Warm(c, m, ctx, prefer) == c
  {
  }

  /** A consistent cache is invisible: every result equals the one an empty
      cache (just after a purge) gives. */
  lemma ConsistentIsTransparent(c: Cache, m: Manager, ctx: string, folder: string, after: string, prefer: bool, item: string, force: bool)
    requires Consistent(c, m)
    ensures CachedBase(c, m, ctx) == BaseAddress(m, ctx)
    ensures FullRelativeUrl(c, m, ctx, after) == FullRelativeUrl(map[], m, ctx, after)
    ensures ContextSpecUrl(c, m, ctx, folder, after, prefer) == ContextSpecUrl(map[], m, ctx, folder, after, prefer)
    ensures AssetUrl(c, m, folder, item, force) == AssetUrl(map[], m, folder, item, force)
  {
  }

  /** The empty cache is consistent with every manager. */
  lemma EmptyConsistent(m: Manager)
    ensures Consistent(map[], m)
  {
  }

  /** `asset` keeps the cache consistent. */
  lemma FillAssetConsistent(c: Cache, m: Manager, folder: string, force: bool)
    requires Consistent(c, m)
    ensures Consistent(FillAsset(c, m, folder, force), m)
  {
    var c' := FillAsset(c, m, folder, force);
    forall ctx | FullRelativeKey(ctx) in c'
      ensures BaseAddress(m, ctx) == Some(c'[FullRelativeKey(ctx)])
    {
      CacheKeysApart(folder, force, ctx);
    }
    forall f, b | AssetKey(f, b) in c'
      ensures c'[AssetKey(f, b)] == m.startingUrl(f, b)
    {
      if AssetKey(f, b) == AssetKey(folder, force) {
        AssetKeyInjective(f, b, folder, force);
      }
    }
  }

  /** `fromContextFullRelative` and `fromContextSpec` keep the cache consistent. */
  lemma WarmConsistent(c: Cache, m: Manager, ctx: string, prefer: bool)
    requires Consistent(c, m)
    ensures Consistent(FillFullRelative(c, m, ctx), m)
    ensures Consistent(Warm(c, m, ctx, prefer), m)
  {
    var c' := FillFullRelative(c, m, ctx);
    forall x | FullRelativeKey(x) in c'
      ensures BaseAddress(m, x) == Some(c'[FullRelativeKey(x)])
    {
      if FullRelativeKey(x) == FullRelativeKey(ctx) {
        FullRelativeKeyInjective(x, ctx);
      }
    }
    forall f, b | AssetKey(f, b) in c'
      ensures c'[AssetKey(f, b)] == m.startingUrl(f, b)
    {
      CacheKeysApart(f, b, ctx);
    }
  }

  /** Filling the cache never changes what a later resolution returns: the
      key it adds was absent and gets the manager's own answer. */
  lemma WarmKeepsResults(c: Cache, m: Manager, x: string, p: bool, ctx: string, folder: string, after: string, prefer: bool)
    ensures CachedBase(Warm(c, m, x, p), m, ctx) == CachedBase(c, m, ctx)
    ensures ContextSpecUrl(Warm(c, m, x, p), m, ctx, folder, after, prefer) == ContextSpecUrl(c, m, ctx, folder, after, prefer)
  {
    if FullRelativeKey(ctx) == FullRelativeKey(x) {
      FullRelativeKeyInjective(ctx, x);
    }
  }

  /** Repeated `asset` calls return the same URL until the cache is purged,
      even after the manager is replaced; the fill changes no other folder's
      URL, and a second fill changes nothing. */
  lemma AssetRepeats(c: Cache, m: Manager, m2: Manager, folder: string, force: bool,
                     item: string, f2: string, b2: bool)
    ensures AssetUrl(FillAsset(c, m, folder, force), m2, folder, item, force) == AssetUrl(c, m, folder, item, force)
    ensures AssetUrl(FillAsset(c, m, folder, force), m, f2, item, b2) == AssetUrl(c, m, f2, item, b2)
    ensures FillAsset(FillAsset(c, m, folder, force), m2, folder, force) == FillAsset(c, m, folder, force)
  {
    if AssetKey(f2, b2) == AssetKey(folder, force) {
      AssetKeyInjective(f2, b2, folder, force);
    }
  }

  /** Repeated `fromContextFullRelative` calls return the same value until
      the cache is purged: its fill changes no later result for any context,
      once a base address was found the result no longer depends on the
      manager, and a second fill changes nothing. */
  lemma FullRelativeRepeats(c: Cache, m: Manager, m2: Manager, x: string, ctx: string, path: string)
    ensures FullRelativeUrl(FillFullRelative(c, m, x), m, ctx, path) == FullRelativeUrl(c, m, ctx, path)
    ensures FullRelativeUrl(c, m, x, path).Some? ==>
      FullRelativeUrl(FillFullRelative(c, m, x), m2, x, path) == FullRelativeUrl(c, m, x, path)
    ensures FillFullRelative(FillFullRelative(c, m, x), m, x) == FillFullRelative(c, m, x)
  {
    if FullRelativeKey(ctx) == FullRelativeKey(x) {
      FullRelativeKeyInjective(ctx, x);
    }
  }

  /** Resolving against the same context twice fills the cache once. */
  lemma WarmIdempotent(c: Cache, m: Manager, x: string, p: bool)
    ensures Warm(Warm(c, m, x, p), m, x, p) == Warm(c, m, x, p)
  {
  }
}
