/** The two kinds of file the generator accepts and how their fields feed
    resolution: a persisted file exposes its parts directly; a remote file
    exposes one relative path that is split into sibling folder, stem and
    extension. */
module Adapters {
  import opened Wrappers
  import opened Text
  import opened Config
  import opened Resolution
  import opened Templates
  import opened PathInfo
  import opened OrderedMap

  /** The fields of a persisted file the generator reads. */
  datatype PersistedFile = PersistedFile(
    context: string,
    contextFolder: string,
    fileName: string,
    siblingFolder: string,
    uuid: string,
    extension: Option<string>)

  /** A remote file: its context, its folder and its path after the folder. */
  datatype RemoteFile = RemoteFile(contextName: string, contextFolder: string, relative: string)

  /** `fromEloquentInstance`: the stored file name after the file's folder. */
  function PersistedUrl(c: Cache, m: Manager, pf: PersistedFile, prefer: bool): Url
  {
    ContextSpecUrl(c, m, pf.context, pf.contextFolder, pf.fileName, prefer)
  }

  /** `getImagesTemplatesForEloquentInstance`: the parent is named by the
      file's uuid, and its variants live in its sibling folder. */
  function PersistedImageTemplates(c: Cache, m: Manager, pf: PersistedFile, prefer: bool): Result<Option<ImageSet>>
  {
    ImageTemplates(c, m, pf.context, pf.contextFolder, pf.siblingFolder, pf.uuid, pf.extension, prefer)
  }

  /** The cache after `getImagesTemplatesForEloquentInstance`. */
  function PersistedImageTemplatesCache(c: Cache, m: Manager, pf: PersistedFile, prefer: bool): Cache
  {
    ImageTemplatesCache(c, m, pf.context, pf.siblingFolder, pf.extension, prefer)
  }

  /** `fromAddressableRemoteFile`: the relative path after the file's own
      folder. */
  function RemoteUrl(c: Cache, m: Manager, rf: RemoteFile, prefer: bool): Url
  {
    ContextSpecUrl(c, m, rf.contextName, rf.contextFolder, rf.relative, prefer)
  }

  /** An empty extension is null. */
  function NormalizeExtension(ext: string): Option<string>
  {
    if ext == "" then None else Some(ext)
  }

  /** Sibling folder (the directory with separators trimmed off), stem and
      extension of a remote file's relative path. */
  function RemoteParts(relative: string): (string, string, Option<string>)
  {
    (Trim(DirName(relative), Slash), FileName(relative), NormalizeExtension(Extension(relative)))
  }

  /** `getImageTemplatesForRemoteFile`: fails for an unknown context, is null
      for a category other than the image one, and otherwise expands the
      split path against the folder CONFIGURED for the context. */
  function RemoteImageTemplates(c: Cache, m: Manager, rf: RemoteFile, prefer: bool): Result<Option<ImageSet>>
  {
    match ContextData(m, rf.contextName)
    case Failure(e) => Failure(e)
    case Success(cd) =>
      if cd.category != TypeImage then Success(None)
      else
        var (sibling, stem, ext) := RemoteParts(rf.relative);
        ImageTemplates(c, m, rf.contextName, cd.contextFolder, sibling, stem, ext, prefer)
  }

  /** The cache after `getImageTemplatesForRemoteFile`. */
  function RemoteImageTemplatesCache(c: Cache, m: Manager, rf: RemoteFile, prefer: bool): Cache
  {
    var (sibling, _, ext) := RemoteParts(rf.relative);
    ImageTemplatesCache(c, m, rf.contextName, sibling, ext, prefer)
  }

  /** Splitting `sibling/stem.ext` gives back the three parts when the
      sibling has no separator at either end and neither stem nor extension
      holds one; an empty extension comes back as null. */
  lemma RemotePartsOfComposed(sibling: string, stem: string, ext: string)
    requires sibling == [] || (sibling[0] != '/' && sibling[|sibling| - 1] != '/')
    requires '/' !in stem && '/' !in ext && '.' !in ext
    ensures RemoteParts(sibling + "/" + stem + "." + ext) ==
      (sibling, stem, if ext == "" then None else Some(ext))
  {
    SplitComposed(sibling, stem, ext);
    TrimKeepsClean(sibling, Slash);
  }

  /** The adapter's own category check only short-cuts what the expansion
      does anyway: it equals expanding the split path against the folder
      configured for the context. */
  lemma RemoteDelegates(c: Cache, m: Manager, rf: RemoteFile, prefer: bool)
    requires rf.contextName in m.contexts
    ensures RemoteImageTemplates(c, m, rf, prefer) ==
      ImageTemplates(c, m, rf.contextName, m.contexts[rf.contextName].contextFolder,
                     RemoteParts(rf.relative).0, RemoteParts(rf.relative).1, RemoteParts(rf.relative).2, prefer)
  {
    var cd := m.contexts[rf.contextName];
    var (sibling, stem, ext) := RemoteParts(rf.relative);
    NullExactlyForNonImages(c, m, rf.contextName, cd.contextFolder, sibling, stem, ext, prefer);
  }

  /** The parent path of `sibling`, `stem` and a truthy extension is
      `sibling/stem.ext`. */
  lemma ParentOfTruthyExtension(sibling: string, stem: string, ext: string)
    requires Truthy(ext)
    ensures ParentPath(sibling, stem, Some(ext)) == sibling + "/" + stem + "." + ext
  {
  }

  /** For such a path with a truthy extension the parent of the image set is
      the remote file's own path, resolved against the configured folder. */
  lemma RemoteParentIsRelative(c: Cache, m: Manager, rf: RemoteFile, prefer: bool, sibling: string, stem: string, ext: string, s: ImageSet)
    requires rf.relative == sibling + "/" + stem + "." + ext
    requires sibling == [] || (sibling[0] != '/' && sibling[|sibling| - 1] != '/')
    requires '/' !in stem && '/' !in ext && '.' !in ext && Truthy(ext)
    requires RemoteImageTemplates(c, m, rf, prefer) == Success(Some(s))
    ensures rf.contextName in m.contexts
    ensures s.parentImageUrl ==
      ContextSpecUrl(c, m, rf.contextName, m.contexts[rf.contextName].contextFolder, rf.relative, prefer)
    ensures s.parentExtension == Some(ext)
    ensures rf.contextFolder == m.contexts[rf.contextName].contextFolder ==> s.parentImageUrl == RemoteUrl(c, m, rf, prefer)
  {
    assert rf.contextName in m.contexts;
    var cd := m.contexts[rf.contextName];
    RemotePartsOfComposed(sibling, stem, ext);
    RemoteDelegates(c, m, rf, prefer);
    ImageSetShape(c, m, rf.contextName, cd.contextFolder, sibling, stem, Some(ext), prefer, s);
    ParentOfTruthyExtension(sibling, stem, ext);
  }

  /** The remote file's own folder plays no part: the configured one is used. */
  lemma RemoteIgnoresOwnFolder(c: Cache, m: Manager, rf: RemoteFile, folder: string, prefer: bool)
    ensures RemoteImageTemplates(c, m, rf, prefer) == RemoteImageTemplates(c, m, rf.(contextFolder := folder), prefer)
  {
  }

  /** A path without a dot in its base name has a null extension, and its
      stem is the whole base name. */
  lemma RemoteWithoutExtension(relative: string)
    requires '.' !in BaseName(relative)
    ensures RemoteParts(relative).1 == BaseName(relative)
    ensures RemoteParts(relative).2 == None
  {
  }

  /** A remote file directly under its context folder has `.` as its
      sibling folder, since `pathinfo` reports `.` as the directory of a
      non-empty path without a separator; its parent path then starts with
      `./`. The empty path has an empty directory. */
  lemma RemoteAtRoot(relative: string)
    requires '/' !in relative
    ensures RemoteParts(relative).0 == if relative == "" then "" else "."
    ensures RemoteParts(relative).1 == FileName(relative)
  {
    if relative != "" {
      TrimKeepsClean(relative, Slash);
      assert DirName(relative) == ".";
      TrimKeepsClean(".", Slash);
    }
  }

  /** A trailing separator is not part of the split: `a/b/` has sibling
      folder `a`, stem `b` and no extension. */
  lemma RemoteTrailingSeparator(sibling: string, stem: string)
    requires sibling != [] && sibling[0] != '/' && sibling[|sibling| - 1] != '/'
    requires stem != [] && '/' !in stem && '.' !in stem
    ensures RemoteParts(sibling + "/" + stem + "/") == (sibling, stem, None)
  {
    var p := sibling + "/" + stem;
    assert p + "/" == sibling + "/" + stem + "/";
    TrailingSeparatorIgnored(p);
    SplitLast(sibling, stem);
    TrimKeepsClean(sibling, Slash);
  }

  /** A remote file in a context of another category has no image set; the
      adapter fails exactly where the expansion it delegates to does. */
  lemma RemoteNullAndFailure(c: Cache, m: Manager, rf: RemoteFile, prefer: bool)
    ensures RemoteImageTemplates(c, m, rf, prefer) == Success(None) <==>
      rf.contextName in m.contexts && m.contexts[rf.contextName].category != TypeImage
    ensures RemoteImageTemplates(c, m, rf, prefer).Failure? <==>
      || rf.contextName !in m.contexts
      || (&& m.contexts[rf.contextName].category == TypeImage
          && TemplatesFor(m, m.contexts[rf.contextName]) != []
          && m.contexts[rf.contextName].storeManipulated.Some?
          && m.contexts[rf.contextName].storeManipulated.value !in m.contexts)
  {
    if rf.contextName in m.contexts {
      var cd := m.contexts[rf.contextName];
      var (sibling, stem, ext) := RemoteParts(rf.relative);
      RemoteDelegates(c, m, rf, prefer);
      NullExactlyForNonImages(c, m, rf.contextName, cd.contextFolder, sibling, stem, ext, prefer);
      FailsExactly(c, m, rf.contextName, cd.contextFolder, sibling, stem, ext, prefer);
    }
  }

  /** One template of one encoding, resolved in a context without a base
      address, writes one routed child. */
  lemma SingleRoutedChild(c: Cache, m: Manager, ctx: string, folder: string, thumb: string, webp: string,
                          sib: string, ext: Option<string>, prefer: bool)
    requires BaseAddress(m, ctx).None?
    ensures PutAll([], Resolve(Emissions([(thumb, Template(Some([webp])))], sib, ext), c, m, ctx, folder, prefer)) ==
      [(thumb + "." + webp, Routed(ctx, folder, sib + "/" + thumb + "." + webp))]
  {
    var ts := [(thumb, Template(Some([webp])))];
    var es := [(thumb + "." + webp, sib + "/" + thumb + "." + webp)];
    assert TemplateEmissions(thumb, Template(Some([webp])), sib, ext) == es;
    assert Emissions(ts, sib, ext) == Emissions([], sib, ext) + es;
    var child := Routed(ctx, folder, sib + "/" + thumb + "." + webp);
    assert Resolve(es, c, m, ctx, folder, prefer) == [(thumb + "." + webp, child)];
    assert PutAll([], [(thumb + "." + webp, child)]) == Put([], thumb + "." + webp, child);
  }

  /** A persisted image in a context with one template of one encoding and
      no base address: the parent and the single child are both routes in
      the file's own context and folder. */
  lemma AvatarsScenario(c: Cache, m: Manager, pf: PersistedFile, prefer: bool)
    requires "avatars" in m.contexts
    requires m.contexts["avatars"] == Context(TypeImage, "avatars", None, None, Some([("thumb", Template(Some(["webp"])))]))
    requires pf.context == "avatars" && pf.contextFolder == "avatars"
    requires pf.siblingFolder == "abc_sib" && pf.uuid == "abc" && pf.extension == Some("png")
    ensures PersistedImageTemplates(c, m, pf, prefer) ==
      Success(Some(ImageSet(
        Routed("avatars", "avatars", "abc_sib/abc.png"),
        Some("png"),
        [("thumb.webp", Routed("avatars", "avatars", "abc_sib/thumb.webp"))])))
  {
    assert BaseAddress(m, "avatars").None?;
    SingleRoutedChild(c, m, "avatars", "avatars", "thumb", "webp", "abc_sib", Some("png"), prefer);
    assert "thumb" + "." + "webp" == "thumb.webp";
    assert "abc_sib" + "/" + "thumb" + "." + "webp" == "abc_sib/thumb.webp";
    assert ParentPath("abc_sib", "abc", Some("png")) == "abc_sib/abc.png";
    var cd := m.contexts["avatars"];
    assert TemplatesFor(m, cd) == [("thumb", Template(Some(["webp"])))];
    assert ChildrenContext(m, cd) == Success(cd);
    assert ChildrenContextName(cd, "avatars") == "avatars";
  }
}
