/** The URL generator itself: one manager and one address cache, shared by
    every call, which the resolution methods fill as they go. Each method is
    proved against the functions of `Resolution`, `Templates` and
    `Adapters`, which say what it returns and what the cache holds after. */
module Generator {
  import opened Wrappers
  import opened Text
  import opened Config
  import opened OrderedMap
  import opened Resolution
  import opened Templates
  import opened Adapters

  class UrlGenerator {
    /** The secretary manager every configuration lookup goes to. */
    var manager: Manager
    /** Base addresses already looked up, by cache key. */
    var cache: Cache

    /** A generator whose manager has been set and whose cache is empty. */
    constructor(m: Manager)
      ensures manager == m && cache == map[]
      ensures Consistent(cache, manager)
    {
      manager := m;
      cache := map[];
      EmptyConsistent(m);
    }

    /** `setSecretaryManager`: replaces the manager and keeps the cache, so
        entries computed from the previous manager stay in force. */
    method SetSecretaryManager(m: Manager)
      modifies this`manager
      ensures manager == m && cache == old(cache)
    {
      manager := m;
    }

    /** `purgeCalculated`: empties the cache, after which every entry once
        more agrees with the manager. */
    method PurgeCalculated()
      modifies this`cache
      ensures cache == map[]
      ensures Consistent(cache, manager)
    {
      cache := map[];
      EmptyConsistent(manager);
    }

    /** `asset`: the starting URL of the asset folder, cached per folder and
        flag, joined to the item with exactly one slash. */
    method Asset(folder: string, item: string, force: bool) returns (r: string)
      modifies this`cache
      ensures r == AssetUrl(old(cache), manager, folder, item, force)
      ensures cache == FillAsset(old(cache), manager, folder, force)
    {
      var key := AssetKey(folder, force);
      if key !in cache {
        var base := manager.startingUrl(folder, force);
        cache := cache[key := base];
      }
      r := JoinAsset(cache[key], item);
    }

    /** `fromContextFullRelative`: the context's base address, cached per
        context, joined to the path; null, with the cache untouched, when no
        base address is cached or configured. */
    method FromContextFullRelative(ctx: string, path: string) returns (r: Option<string>)
      modifies this`cache
      ensures r == FullRelativeUrl(old(cache), manager, ctx, path)
      ensures cache == FillFullRelative(old(cache), manager, ctx)
    {
      var key := FullRelativeKey(ctx);
      if key !in cache {
        var base := BaseAddress(manager, ctx);
        if base.None? {
          return None;
        }
        cache := cache[key := base.value];
      }
      r := Some(JoinDirect(cache[key], path));
    }

    /** `fromContextSpec`: the direct URL when the base address is preferred
        and the configured one is truthy, the download route otherwise. */
    method FromContextSpec(ctx: string, folder: string, after: string, prefer: bool) returns (r: Url)
      modifies this`cache
      ensures r == ContextSpecUrl(old(cache), manager, ctx, folder, after, prefer)
      ensures cache == Warm(old(cache), manager, ctx, prefer)
    {
      if prefer {
        var b := BaseAddress(manager, ctx);
        if TruthyOpt(b) {
          var s := FromContextFullRelative(ctx, folder + "/" + after);
          r := Direct(s.value);
          return;
        }
      }
      r := Routed(ctx, folder, after);
    }

    /** `fromEloquentInstance`. */
    method FromEloquentInstance(pf: PersistedFile, prefer: bool) returns (r: Url)
      modifies this`cache
      ensures r == PersistedUrl(old(cache), manager, pf, prefer)
      ensures cache == Warm(old(cache), manager, pf.context, prefer)
    {
      r := FromContextSpec(pf.context, pf.contextFolder, pf.fileName, prefer);
    }

    /** `fromAddressableRemoteFile`. */
    method FromAddressableRemoteFile(rf: RemoteFile, prefer: bool) returns (r: Url)
      modifies this`cache
      ensures r == RemoteUrl(old(cache), manager, rf, prefer)
      ensures cache == Warm(old(cache), manager, rf.contextName, prefer)
    {
      r := FromContextSpec(rf.contextName, rf.contextFolder, rf.relative, prefer);
    }

    /** `getImageTemplatesFromContextSpec`: the parent URL, then one child
        per variant of every template, written into an insertion-ordered
        array. The children's context data is looked up lazily, at the first
        template. `lookups` counts the context-data lookups made. */
    method GetImageTemplatesFromContextSpec(ctx: string, folder: string, sibling: string,
                                            name: string, ext: Option<string>, prefer: bool)
      returns (r: Result<Option<ImageSet>>, ghost lookups: nat)
      modifies this`cache
      ensures r == ImageTemplates(old(cache), manager, ctx, folder, sibling, name, ext, prefer)
      ensures cache == ImageTemplatesCache(old(cache), manager, ctx, sibling, ext, prefer)
      ensures lookups == ContextLookups(manager, ctx)
    {
      ghost var c0 := cache;
      lookups := 1;
      var cdr := ContextData(manager, ctx);
      if cdr.Failure? {
        return Failure(cdr.error), lookups;
      }
      var cd := cdr.value;
      if cd.category != TypeImage {
        return Success(None), lookups;
      }
      var parent := FromContextSpec(ctx, folder, ParentPath(sibling, name, ext), prefer);
      ghost var c1 := cache;
      var ts := TemplatesFor(manager, cd);
      var children: Entries<Url> := [];
      var childrenContext: Option<Context> := None;
      var childName := ChildrenContextName(cd, ctx);
      ghost var done: seq<(string, string)> := [];
      for i := 0 to |ts|
        invariant childrenContext.Some? <==> i > 0
        invariant i > 0 ==> ChildrenContext(manager, cd) == Success(childrenContext.value)
        invariant lookups == if i > 0 && cd.storeManipulated.Some? then 2 else 1
        invariant done == Emissions(ts[..i], sibling, ext)
        invariant i == 0 ==> children == [] && done == []
        invariant i > 0 ==>
          children == PutAll([], Resolve(done, c0, manager, childName, childrenContext.value.contextFolder, prefer))
        invariant cache == if done == [] then c1 else Warm(c1, manager, childName, prefer)
      {
        if childrenContext.None? {
          if cd.storeManipulated.Some? {
            var ccr := ContextData(manager, cd.storeManipulated.value);
            lookups := lookups + 1;
            if ccr.Failure? {
              return Failure(ccr.error), lookups;
            }
            childrenContext := Some(ccr.value);
          } else {
            childrenContext := Some(cd);
          }
        }
        var cf := childrenContext.value.contextFolder;
        EmissionsPrefix(ts, i, sibling, ext);
        children, done := WriteTemplate(ctx, childName, cf, ts[i].0, ts[i].1, sibling, ext, prefer, children, c0, c1, done);
      }
      assert ts[..|ts|] == ts;
      r := Success(Some(ImageSet(parent, ext, children)));
    }

    /** `getImagesTemplatesForEloquentInstance`. */
    method GetImagesTemplatesForEloquentInstance(pf: PersistedFile, prefer: bool)
      returns (r: Result<Option<ImageSet>>, ghost lookups: nat)
      modifies this`cache
      ensures r == PersistedImageTemplates(old(cache), manager, pf, prefer)
      ensures cache == PersistedImageTemplatesCache(old(cache), manager, pf, prefer)
      ensures lookups == ContextLookups(manager, pf.context)
    {
      r, lookups := GetImageTemplatesFromContextSpec(pf.context, pf.contextFolder, pf.siblingFolder,
                                                     pf.uuid, pf.extension, prefer);
    }

    /** `getImageTemplatesForRemoteFile`: looks the context up itself, stops
        at a context of another category, and otherwise splits the relative
        path and expands it against the configured folder. */
    method GetImageTemplatesForRemoteFile(rf: RemoteFile, prefer: bool)
      returns (r: Result<Option<ImageSet>>, ghost lookups: nat)
      modifies this`cache
      ensures r == RemoteImageTemplates(old(cache), manager, rf, prefer)
      ensures cache == RemoteImageTemplatesCache(old(cache), manager, rf, prefer)
      ensures lookups ==
        if rf.contextName in manager.contexts && manager.contexts[rf.contextName].category == TypeImage
        then 1 + ContextLookups(manager, rf.contextName) else 1
    {
      ghost var c0 := cache;
      lookups := 1;
      var cdr := ContextData(manager, rf.contextName);
      if cdr.Failure? {
        return Failure(cdr.error), lookups;
      }
      if cdr.value.category != TypeImage {
        return Success(None), lookups;
      }
      var (sibling, stem, ext) := RemoteParts(rf.relative);
      RemoteDelegates(c0, manager, rf, prefer);
      ghost var inner;
      r, inner := GetImageTemplatesFromContextSpec(rf.contextName, cdr.value.contextFolder, sibling, stem, ext, prefer);
      lookups := 1 + inner;
    }

    /** One template of `getImageTemplatesFromContextSpec`: one child per
        encoding, or, when the encodings are null, one child that reuses the
        parent's extension. */
    method WriteTemplate(ghost ctx: string, childName: string, cf: string, tname: string, t: Template,
                         sibling: string, ext: Option<string>, prefer: bool,
                         children: Entries<Url>, ghost c0: Cache, ghost c1: Cache, ghost done: seq<(string, string)>)
      returns (children': Entries<Url>, ghost done': seq<(string, string)>)
      modifies this`cache
      requires c1 == Warm(c0, manager, ctx, prefer)
      requires cache == if done == [] then c1 else Warm(c1, manager, childName, prefer)
      requires children == PutAll([], Resolve(done, c0, manager, childName, cf, prefer))
      ensures done' == done + TemplateEmissions(tname, t, sibling, ext)
      ensures children' == PutAll([], Resolve(done', c0, manager, childName, cf, prefer))
      ensures cache == if done' == [] then c1 else Warm(c1, manager, childName, prefer)
    {
      children' := children;
      done' := done;
      ghost var te := TemplateEmissions(tname, t, sibling, ext);
      var encs := if t.encodings.Some? then t.encodings.value else [];
      assert done + te[..0] == done;
      for j := 0 to |encs|
        invariant done' == done + te[..j]
        invariant children' == PutAll([], Resolve(done', c0, manager, childName, cf, prefer))
        invariant cache == if done' == [] then c1 else Warm(c1, manager, childName, prefer)
      {
        var key, path := tname + "." + encs[j], sibling + "/" + tname + "." + encs[j];
        TemplateEmissionsPrefix(tname, t, sibling, ext, j);
        SeqAssoc(done, te[..j], [(key, path)]);
        children', done' := WriteChild(ctx, childName, cf, key, path, prefer, children', c0, c1, done');
      }
      if t.encodings.None? {
        var path := sibling + "/" + tname + "." + ExtText(ext);
        assert te == [(tname, path)];
        children', done' := WriteChild(ctx, childName, cf, tname, path, prefer, children', c0, c1, done');
      } else {
        assert te[..|encs|] == te;
      }
    }

    /** `$children[key] = fromContextSpec(...)` for one variant. */
    method WriteChild(ghost ctx: string, childName: string, cf: string, key: string, path: string, prefer: bool,
                      children: Entries<Url>, ghost c0: Cache, ghost c1: Cache, ghost done: seq<(string, string)>)
      returns (children': Entries<Url>, ghost done': seq<(string, string)>)
      modifies this`cache
      requires c1 == Warm(c0, manager, ctx, prefer)
      requires cache == if done == [] then c1 else Warm(c1, manager, childName, prefer)
      requires children == PutAll([], Resolve(done, c0, manager, childName, cf, prefer))
      ensures done' == done + [(key, path)]
      ensures children' == PutAll([], Resolve(done', c0, manager, childName, cf, prefer))
      ensures cache == Warm(c1, manager, childName, prefer)
    {
      ChildStep(manager, c0, ctx, prefer, done, childName, cf, key, path);
      var u := FromContextSpec(childName, cf, path, prefer);
      children' := Put(children, key, u);
      done' := done + [(key, path)];
    }
  }

  /** One child written: its resolution against the current cache is the
      one against the cache before the call, the cache after it is the cache
      after the first child, and the array after the write is that of one
      more resolved pair. */
  lemma ChildStep(m: Manager, c0: Cache, ctx: string, prefer: bool, done: seq<(string, string)>,
                  childName: string, cf: string, key: string, path: string)
    ensures var c1 := Warm(c0, m, ctx, prefer);
      var cur := if done == [] then c1 else Warm(c1, m, childName, prefer);
      && ContextSpecUrl(cur, m, childName, cf, path, prefer) == ContextSpecUrl(c0, m, childName, cf, path, prefer)
      && Warm(cur, m, childName, prefer) == Warm(c1, m, childName, prefer)
    ensures PutAll([], Resolve(done + [(key, path)], c0, m, childName, cf, prefer)) ==
      Put(PutAll([], Resolve(done, c0, m, childName, cf, prefer)), key, ContextSpecUrl(c0, m, childName, cf, path, prefer))
  {
    var c1 := Warm(c0, m, ctx, prefer);
    WarmKeepsResults(c0, m, ctx, prefer, childName, cf, path, prefer);
    WarmKeepsResults(c1, m, childName, prefer, childName, cf, path, prefer);
    WarmIdempotent(c1, m, childName, prefer);
    ResolveSnoc(done, (key, path), c0, m, childName, cf, prefer);
  }
}
