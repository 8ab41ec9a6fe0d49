# UrlGenerator of file-secretary, modelled in Dafny

file-secretary stores files under named *contexts*. Each context has a
category, a context folder, an optional driver base address, an optional
redirection of its manipulated images (`store_manipulated`) and optional
templates of its own. `UrlGenerator` turns a file reference into a public URL.
If the base address is preferred and the configured one is truthy (neither null, `""` nor `"0"`), the URL is direct: the base
address, then the context folder and the path. Otherwise it is the download
route, parameterised by context name, context folder and the path after the
folder. For an image the generator also derives the set of variant URLs that
its templates describe, in the context the variants are redirected to.
Resolved base addresses are kept in one static cache that only
`purgeCalculated` empties.

The modules follow the structure of the program:

- `Text`: PHP's `rtrim`, `ltrim` and `trim` with a character list, and PHP string truthiness.
- `OrderedMap`: PHP arrays with string keys. Keys keep their insertion order, and a write to an existing key replaces its value where it stands.
- `PathInfo`: the parts of `pathinfo` (directory, base name, file name, extension) with `/` as the separator. Trailing separators are ignored as PHP ignores them, and an empty path has an empty directory.
- `Config`: what the secretary manager answers: the contexts, the global templates, and the starting URL of an asset folder.
- `Resolution`: the cache keys and specification functions for `asset`, `fromContextFullRelative` and `fromContextSpec`. These take the cache as an input and say what it holds afterwards, together with the invariant `Consistent` (every cached entry agrees with the manager).
- `Templates`: the specification of `getImageTemplatesFromContextSpec`. Templates emit (key, path) pairs in order, each pair is resolved, and the pairs are written into an array.
- `Adapters`: the persisted and remote file references. For a remote file, its relative path is split into sibling folder, stem and extension.
- `Generator`: the class `UrlGenerator`, with a `manager` field and a `cache` field of type `map<string, string>`. It has one method per public source method except `getManager` (see "Left out"). In addition, `WriteTemplate` and `WriteChild` are the bodies of the two loops of `getImageTemplatesFromContextSpec`, split out as methods of their own. Each method is proved against the functions above. `getImageTemplatesFromContextSpec` keeps the source's two nested `foreach` loops as `for` loops with invariants, and looks up the children's context lazily at the first template.

Behaviours of the code that are easy to misread:

- An empty `encodings` list produces no children. Only a null one produces the single child that reuses the parent's extension. See `Templates.EmptyEncodingsWriteNothing`.
- Children take their folder from the configured `context_folder` of the children's context. This holds even without redirection; the folder passed in is used for the parent only. See `Templates.ChildrenIgnoreFolderArgument`.
- A cached base address wins over the current configuration in `asset` and `fromContextFullRelative`, and replacing the manager does not purge the cache. See `Resolution.CachedEntryWins`. `fromContextSpec` still decides between direct and routed on the current manager. See `Resolution.SpecAsksCurrentManager`.
- A base address of `""` or `"0"` is falsy. `fromContextSpec` then routes, although `fromContextFullRelative` would have joined onto it. See `Resolution.EmptyBaseAddressGap`.
- A redirected context that does not exist fails only when there is at least one template. With no templates it is never looked up. See `Templates.FailsExactly`.

## Model

| member | source | states |
|---|---|---|
| Text.RTrim | src/Infrastructure/UrlGenerator.php:62 | definition, no contract (`rtrim` with a character list) |
| Text.Trim | src/Infrastructure/UrlGenerator.php:160 | definition, no contract (`trim` with a character list) |
| Text.LTrim | src/Infrastructure/UrlGenerator.php:160 | definition, no contract (`ltrim` with a character list, the first half of `trim`) |
| Text.Truthy | src/Infrastructure/UrlGenerator.php:192 | definition, no contract (PHP truthiness of a string: neither `""` nor `"0"`) |
| Text.TruthyOpt | src/Infrastructure/UrlGenerator.php:100 | definition, no contract (PHP truthiness of a nullable string: null is falsy) |
| Text.RTrimSpec | src/Infrastructure/UrlGenerator.php:62 | `rtrim` keeps a prefix that is empty or does not end in the list, and everything it drops is in the list |
| Text.LTrimSpec | src/Infrastructure/UrlGenerator.php:62 | `ltrim` keeps a suffix that is empty or does not start in the list, and everything it drops is in the list |
| Text.TrimIsSlice | src/Infrastructure/UrlGenerator.php:160 | what `trim` keeps is one contiguous slice of the input that neither starts nor ends with a character of the list, and everything before and after that slice is in the list |
| Text.TrimKeepsClean | src/Infrastructure/UrlGenerator.php:62 | a string already free of the list at its ends is unchanged by `trim` and `rtrim` |
| Config.ContextData | src/Infrastructure/UrlGenerator.php:182 | definition, no contract (`getContextData`: the context's data, or a failure for an unknown context) |
| Config.BaseAddress | src/Infrastructure/UrlGenerator.php:97 | definition, no contract (the context's configured `driver_base_address`, null when absent) |
| Config.TemplatesFor | src/Infrastructure/UrlGenerator.php:196-200 | definition, no contract (`allowed_templates` when present, else the globally available templates) |
| Config.ChildrenContextName | src/Infrastructure/UrlGenerator.php:210 | definition, no contract (`store_manipulated` when it is a string, else the context's own name) |
| Config.ChildrenContext | src/Infrastructure/UrlGenerator.php:212-217 | definition, no contract (the redirected context's data, or the context's own) |
| OrderedMap.Get | src/Infrastructure/UrlGenerator.php:223 | definition, no contract (`$m[$k]`, null when absent) |
| OrderedMap.PutAll | src/Infrastructure/UrlGenerator.php:223 | definition, no contract (the writes of `es` one after the other) |
| OrderedMap.IndexOf | src/Infrastructure/UrlGenerator.php:223 | the position found holds the key and no earlier entry holds it; nothing is found exactly when the key is absent |
| OrderedMap.Put | src/Infrastructure/UrlGenerator.php:223 | writing a key reads back the value and leaves every other key's value alone; an existing key keeps its place, a new one goes last; distinct keys stay distinct |
| OrderedMap.PutAllDistinct | src/Infrastructure/UrlGenerator.php:211-239 | a sequence of writes never produces a duplicate key |
| OrderedMap.PutAllKeySet | src/Infrastructure/UrlGenerator.php:211-239 | after a sequence of writes the keys are the old ones plus the written ones |
| OrderedMap.PutAllLastWins | src/Infrastructure/UrlGenerator.php:223 | a key holds the value of its last write |
| OrderedMap.PutAllUntouched | src/Infrastructure/UrlGenerator.php:223 | a key never written keeps its value |
| OrderedMap.PutAllOrder | src/Infrastructure/UrlGenerator.php:211-239 | the key order is the old order followed by each new key at its first write |
| OrderedMap.PutAllEntriesFrom | src/Infrastructure/UrlGenerator.php:211-239 | every entry after the writes was there before or was written |
| PathInfo.LastIndexOf | src/Infrastructure/UrlGenerator.php:160-162 | the position found holds the character and no later one does; nothing is found exactly when the character is absent |
| PathInfo.DirName | src/Infrastructure/UrlGenerator.php:160 | definition, no contract (`PATHINFO_DIRNAME`) |
| PathInfo.BaseName | src/Infrastructure/UrlGenerator.php:161-162 | definition, no contract (`PATHINFO_BASENAME`, from which file name and extension are taken) |
| PathInfo.FileName | src/Infrastructure/UrlGenerator.php:161 | definition, no contract (`PATHINFO_FILENAME`) |
| PathInfo.Extension | src/Infrastructure/UrlGenerator.php:162 | definition, no contract (`PATHINFO_EXTENSION`) |
| PathInfo.SplitComposed | src/Infrastructure/UrlGenerator.php:160-162 | `pathinfo` of `dir/stem.ext` gives back the directory (`dir` without trailing separators, or `/`), `stem.ext`, `stem` and `ext` when stem and extension hold no separator and the extension no dot |
| PathInfo.SplitLast | src/Infrastructure/UrlGenerator.php:160-162 | `dir/base` with a non-empty base free of separators has base name `base` and directory `dir` without its trailing separators, or `/` when nothing is left |
| PathInfo.TrailingSeparatorIgnored | src/Infrastructure/UrlGenerator.php:160-162 | a trailing separator on a non-empty path changes neither directory nor base name |
| PathInfo.EmptyPath | src/Infrastructure/UrlGenerator.php:160-162 | the empty path has an empty directory, base name, file name and extension |
| Resolution.AssetKeyInjective | src/Infrastructure/UrlGenerator.php:55 | two asset cache keys are equal only for the same folder and the same flag |
| Resolution.FullRelativeKeyInjective | src/Infrastructure/UrlGenerator.php:72 | two base-address cache keys are equal only for the same context |
| Resolution.CacheKeysApart | src/Infrastructure/UrlGenerator.php:55 | an asset key never collides with a base-address key |
| Resolution.BoolText | src/Infrastructure/UrlGenerator.php:55 | definition, no contract (`(string)$force`: `"1"` or `""`) |
| Resolution.FullRelativeKey | src/Infrastructure/UrlGenerator.php:72 | definition, no contract (the base-address cache key) |
| Resolution.AssetBase | src/Infrastructure/UrlGenerator.php:57-59 | definition, no contract (the cached asset base, else the manager's starting URL) |
| Resolution.CachedBase | src/Infrastructure/UrlGenerator.php:74-81 | definition, no contract (the cached base address, else the configured one) |
| Resolution.Consistent | src/Infrastructure/UrlGenerator.php:14 | definition, no contract (the invariant: every cached entry equals what the manager answers now) |
| Resolution.AssetKey | src/Infrastructure/UrlGenerator.php:55 | definition, no contract (the asset cache key) |
| Resolution.AssetUrl | src/Infrastructure/UrlGenerator.php:53-63 | definition, no contract (the URL `asset` returns for a given cache) |
| Resolution.FillAsset | src/Infrastructure/UrlGenerator.php:57-60 | definition, no contract (the cache after `asset`) |
| Resolution.JoinAsset | src/Infrastructure/UrlGenerator.php:62 | definition, no contract (`rtrim(base, '/') . '/' . trim(item, '/')`) |
| Resolution.JoinDirect | src/Infrastructure/UrlGenerator.php:84 | definition, no contract (`rtrim(base, '/') . '/' . trim(path)`) |
| Resolution.FillFullRelative | src/Infrastructure/UrlGenerator.php:74-82 | definition, no contract (the cache after `fromContextFullRelative`, unchanged when no base address is found) |
| Resolution.Warm | src/Infrastructure/UrlGenerator.php:96-103 | definition, no contract (the cache after `fromContextSpec`) |
| Resolution.FullRelativeUrl | src/Infrastructure/UrlGenerator.php:70-85 | `fromContextFullRelative` is null exactly when the context has neither a cached nor a configured base address |
| Resolution.ContextSpecUrl | src/Infrastructure/UrlGenerator.php:94-110 | the URL is direct exactly when the base address is preferred and the configured one is truthy, and it is then `fromContextFullRelative` of `folder/after`; otherwise it is the route with exactly the three given parameters |
| Resolution.AssetSeamIgnoresSlashes | src/Infrastructure/UrlGenerator.php:62 | a trailing slash on the base, or a leading or trailing slash on the item, does not change the asset URL |
| Resolution.CleanAssetJoin | src/Infrastructure/UrlGenerator.php:62 | a base and an item without slashes at the seam are joined by exactly one slash |
| Resolution.DirectKeepsLeadingSlash | src/Infrastructure/UrlGenerator.php:84 | the direct join trims only whitespace from the path, so a leading slash on the path gives a double slash |
| Resolution.CdnExample | src/Infrastructure/UrlGenerator.php:70-85 | base address `https://cdn.example.com/` and path `a/b` give `https://cdn.example.com/a/b` |
| Resolution.EmptyBaseAddressGap | src/Infrastructure/UrlGenerator.php:96-103 | a configured base address of `""` makes `fromContextSpec` route, while `fromContextFullRelative` would join onto it |
| Resolution.CachedEntryWins | src/Infrastructure/UrlGenerator.php:57-62 | once a key is cached, the URL no longer depends on the manager |
| Resolution.SpecAsksCurrentManager | src/Infrastructure/UrlGenerator.php:96-109 | a context whose current base address is not truthy is routed, and the cache is left alone, whatever is cached for it |
| Resolution.ConsistentIsTransparent | src/Infrastructure/UrlGenerator.php:14 | a cache that agrees with the manager gives the same URLs as an empty cache |
| Resolution.EmptyConsistent | src/Infrastructure/UrlGenerator.php:41 | an empty cache agrees with every manager |
| Resolution.FillAssetConsistent | src/Infrastructure/UrlGenerator.php:57-60 | filling an asset entry keeps the cache in agreement with the manager |
| Resolution.WarmConsistent | src/Infrastructure/UrlGenerator.php:74-82 | filling a base-address entry keeps the cache in agreement with the manager |
| Resolution.WarmKeepsResults | src/Infrastructure/UrlGenerator.php:74-82 | filling the cache for one context changes no later resolution, for any context |
| Resolution.AssetRepeats | src/Infrastructure/UrlGenerator.php:55-62 | after `asset` fills its entry, the same call returns the same URL under any manager, other folders' URLs are unchanged, and a second fill changes nothing |
| Resolution.FullRelativeRepeats | src/Infrastructure/UrlGenerator.php:72-84 | the fill of `fromContextFullRelative` changes no later result for any context; once a base address was found, the same call returns the same URL under any manager; a second fill changes nothing |
| Resolution.WarmIdempotent | src/Infrastructure/UrlGenerator.php:74 | resolving against the same context twice fills the cache once |
| Templates.ExtText | src/Infrastructure/UrlGenerator.php:235 | definition, no contract (string conversion of a nullable extension) |
| Templates.ParentPath | src/Infrastructure/UrlGenerator.php:192 | definition, no contract (the parent's path after its folder) |
| Templates.TemplateEmissions | src/Infrastructure/UrlGenerator.php:220-238 | definition, no contract (the pairs one template writes) |
| Templates.Emissions | src/Infrastructure/UrlGenerator.php:211-239 | definition, no contract (the pairs all templates write, in order) |
| Templates.Resolve | src/Infrastructure/UrlGenerator.php:223-236 | definition, no contract (each pair's path resolved with `fromContextSpec`) |
| Templates.ImageTemplates | src/Infrastructure/UrlGenerator.php:174-243 | definition, no contract (the result of `getImageTemplatesFromContextSpec` for a given cache) |
| Templates.ImageTemplatesCache | src/Infrastructure/UrlGenerator.php:189-237 | definition, no contract (the cache after `getImageTemplatesFromContextSpec`) |
| Templates.ContextLookups | src/Infrastructure/UrlGenerator.php:182-214 | definition, no contract (context-data lookups of one expansion: one, plus one for a redirection when there is a template) |
| Templates.EmissionsAppend | src/Infrastructure/UrlGenerator.php:211-239 | the pairs of two template sets in a row are those of the first, then those of the second |
| Templates.EmptyEncodingsWriteNothing | src/Infrastructure/UrlGenerator.php:222-238 | a template with an empty encodings list emits nothing |
| Templates.EmissionsFromTemplates | src/Infrastructure/UrlGenerator.php:211-239 | a pair is emitted exactly when some template of the set emits it |
| Templates.TemplateEmissionsShape | src/Infrastructure/UrlGenerator.php:220-238 | a template emits `t.e` at `sibling/t.e` for each encoding in order, or, with null encodings, `t` at `sibling/t.ext`, with a trailing dot for a null extension |
| Templates.ThumbEncodings | src/Infrastructure/UrlGenerator.php:222-229 | `thumb` with encodings `webp`, `jpg` emits exactly `thumb.webp` and `thumb.jpg` at `sibling/thumb.webp` and `sibling/thumb.jpg` |
| Templates.SmallReusesExtension | src/Infrastructure/UrlGenerator.php:231-237 | `small` without encodings and parent extension `png` emits exactly `small` at `sibling/small.png` |
| Templates.ZeroExtension | src/Infrastructure/UrlGenerator.php:192 | the extension `"0"` is falsy, so it is left off the parent path, yet a child without encodings still appends `.0` |
| Templates.ResolveKeys | src/Infrastructure/UrlGenerator.php:223 | resolving the pairs keeps their keys in order |
| Templates.NullExactlyForNonImages | src/Infrastructure/UrlGenerator.php:182-187 | the result is null exactly for a known context whose category is not the image one |
| Templates.FailsExactly | src/Infrastructure/UrlGenerator.php:182-218 | the lookup fails exactly for an unknown context, or an image context whose redirection names an unknown context while there is a template |
| Templates.ResolvedWritesFrom | src/Infrastructure/UrlGenerator.php:223 | every child is one of the emitted pairs, resolved |
| Templates.ResolvedWritesKeys | src/Infrastructure/UrlGenerator.php:223 | the children have distinct keys, exactly the emitted keys, in order of first emission |
| Templates.ResolvedWritesLastWins | src/Infrastructure/UrlGenerator.php:223 | a repeated child key holds the URL of its last emission |
| Templates.ImageSetShape | src/Infrastructure/UrlGenerator.php:189-242 | a successful image set has the parent resolved in the given folder and the extension as given; it has no children without templates, and otherwise the resolved pairs of all templates written in order |
| Templates.RedirectedChildren | src/Infrastructure/UrlGenerator.php:208-228 | with a redirection every child resolves in the target context and its folder, while the parent stays in its own context |
| Templates.UnredirectedChildren | src/Infrastructure/UrlGenerator.php:215-216 | without a redirection every child resolves in the parent's context and its configured folder |
| Templates.ChildrenIgnoreFolderArgument | src/Infrastructure/UrlGenerator.php:225 | the folder passed in changes neither success nor the children |
| Templates.ConsistentImageTemplates | src/Infrastructure/UrlGenerator.php:189-237 | with a cache that agrees with the manager, the image set equals the one an empty cache gives |
| Templates.ImageTemplatesCacheConsistent | src/Infrastructure/UrlGenerator.php:189-237 | the expansion keeps the cache in agreement with the manager |
| Adapters.NormalizeExtension | src/Infrastructure/UrlGenerator.php:169 | definition, no contract (an empty extension becomes null) |
| Adapters.PersistedImageTemplatesCache | src/Infrastructure/UrlGenerator.php:128-138 | definition, no contract (the cache after expanding a persisted file) |
| Adapters.RemoteImageTemplatesCache | src/Infrastructure/UrlGenerator.php:150-172 | definition, no contract (the cache after expanding a remote file) |
| Adapters.PersistedUrl | src/Infrastructure/UrlGenerator.php:118-126 | definition, no contract (the URL of a persisted file) |
| Adapters.PersistedImageTemplates | src/Infrastructure/UrlGenerator.php:128-138 | definition, no contract (the image set of a persisted file) |
| Adapters.RemoteUrl | src/Infrastructure/UrlGenerator.php:140-148 | definition, no contract (the URL of a remote file) |
| Adapters.RemoteParts | src/Infrastructure/UrlGenerator.php:160-169 | definition, no contract (sibling folder, stem and nullable extension of a relative path) |
| Adapters.RemoteImageTemplates | src/Infrastructure/UrlGenerator.php:150-172 | definition, no contract (the image set of a remote file) |
| Adapters.RemotePartsOfComposed | src/Infrastructure/UrlGenerator.php:158-169 | splitting `sibling/stem.ext` gives back the parts, with an empty extension as null |
| Adapters.RemoteDelegates | src/Infrastructure/UrlGenerator.php:150-172 | for a known context the remote adapter equals the expansion of its split path in the configured folder |
| Adapters.RemoteParentIsRelative | src/Infrastructure/UrlGenerator.php:158-171 | for a relative path `sibling/stem.ext` whose sibling has no `/` at either end, whose stem and extension hold no `/`, and whose extension holds no dot and is truthy, the parent of the image set is that relative path resolved in the configured folder, with extension `ext`; it equals `fromAddressableRemoteFile` when the file's folder is the configured one |
| Adapters.RemoteIgnoresOwnFolder | src/Infrastructure/UrlGenerator.php:164-166 | the remote file's own folder does not affect its image set |
| Adapters.RemoteWithoutExtension | src/Infrastructure/UrlGenerator.php:161-169 | a base name without a dot gives a null extension and the whole base name as stem |
| Adapters.RemoteAtRoot | src/Infrastructure/UrlGenerator.php:160 | a non-empty path without a separator has sibling folder `.`, and the empty path an empty one |
| Adapters.RemoteTrailingSeparator | src/Infrastructure/UrlGenerator.php:160-169 | `sibling/stem/` splits into sibling folder `sibling`, stem `stem` and no extension |
| Adapters.RemoteNullAndFailure | src/Infrastructure/UrlGenerator.php:152-156 | the remote adapter is null exactly for a non-image context, and fails exactly where the expansion does |
| Adapters.AvatarsScenario | src/Infrastructure/UrlGenerator.php:128-138 | a persisted image in an `avatars` context has a routed parent `abc_sib/abc.png` and exactly one routed child `thumb.webp` at `abc_sib/thumb.webp` |
| Generator.UrlGenerator.constructor | src/Infrastructure/UrlGenerator.php:13-14 | the cache starts empty and agrees with the manager |
| Generator.UrlGenerator.SetSecretaryManager | src/Infrastructure/UrlGenerator.php:19-22 | the manager is replaced and the cache kept |
| Generator.UrlGenerator.PurgeCalculated | src/Infrastructure/UrlGenerator.php:39-42 | the cache becomes empty and agrees with the manager |
| Generator.UrlGenerator.Asset | src/Infrastructure/UrlGenerator.php:53-63 | returns the asset URL for the cache before the call, and fills that folder's entry |
| Generator.UrlGenerator.FromContextFullRelative | src/Infrastructure/UrlGenerator.php:70-85 | returns `FullRelativeUrl` for the cache before the call, and fills the context's entry only when a base address was found |
| Generator.UrlGenerator.FromContextSpec | src/Infrastructure/UrlGenerator.php:94-110 | returns `ContextSpecUrl` for the cache before the call, and fills the cache only on the direct path |
| Generator.UrlGenerator.FromEloquentInstance | src/Infrastructure/UrlGenerator.php:118-126 | the file name is resolved after the file's context folder |
| Generator.UrlGenerator.GetImagesTemplatesForEloquentInstance | src/Infrastructure/UrlGenerator.php:128-138 | the uuid names the parent and the sibling folder holds the variants |
| Generator.UrlGenerator.FromAddressableRemoteFile | src/Infrastructure/UrlGenerator.php:140-148 | the relative path is resolved after the file's own context folder |
| Generator.UrlGenerator.GetImageTemplatesForRemoteFile | src/Infrastructure/UrlGenerator.php:150-172 | returns `RemoteImageTemplates` for the cache before the call, with one more context lookup than the expansion for an image context |
| Generator.UrlGenerator.GetImageTemplatesFromContextSpec | src/Infrastructure/UrlGenerator.php:174-243 | the two loops return `ImageTemplates` for the cache before the call, leave the cache `ImageTemplatesCache` describes, and make `ContextLookups` context-data lookups, so the redirected context is looked up at most once however many templates there are |
| Generator.UrlGenerator.WriteTemplate | src/Infrastructure/UrlGenerator.php:220-238 | one template appends its emitted pairs, and the array is the earlier writes plus its resolved pairs |
| Generator.UrlGenerator.WriteChild | src/Infrastructure/UrlGenerator.php:223-228 | one child write resolves the pair against the cache before the expansion and leaves the children's context entry filled |

## Left out

- `getManager` (src/Infrastructure/UrlGenerator.php:27-34) fetches a manager from the service container when none is set. The container is outside this model, so the manager is a field set by the constructor.
- The download route is kept as its three parameters (`Url.Routed`). The routing framework's URL syntax is not modelled.
- `ContextCategoryTypes::isImageCategory` is taken to be equality with the image category constant. `ContextCategoryTypes` is not part of this model.
- `pathinfo` is modelled with `/` as `DIRECTORY_SEPARATOR` and with single-byte characters. The locale-dependent multibyte handling of PHP's `basename` is left out.
- `encodings` is modelled as null or a list of strings. A scalar value, which `(array)` would wrap into a one-element list, is left out.
- `allowed_templates` is modelled as present with a list, or absent. A present key holding null is left out.
- Numeric-string template names, which PHP would turn into integer array keys, are left out. Keys are strings.
- Concurrency is left out. PHP runs one request per process, so the static fields are modelled as one object's fields.
- The unused `MongoDB\BSON\Persistable` import is left out.
- The persisted file's ORM class is left out. The model keeps only the fields the generator reads.
- The configuration lookups are left out. `getConfig`, `getContextData`, `getAvailableTemplates` and `assetFolderToStartingUrl` are the manager's answers. PHP's notices for missing array keys are modelled as absent (`None`) values.
- The exception `getContextData` throws for an unknown context is modelled as a `Failure` result. Cache entries filled before the throw are kept, as in the source.
