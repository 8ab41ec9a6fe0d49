/** What `getImageTemplatesFromContextSpec` computes for one image: the
    parent URL, and one child URL per variant a template describes. The
    children are produced in two steps: the (key, path) pairs the templates
    emit in order, and the PHP array those pairs are written into. */
module Templates {
  import opened Wrappers
  import opened Text
  import opened Config
  import opened OrderedMap
  import opened Resolution

  /** The array `getImageTemplatesFromContextSpec` returns for an image. */
  datatype ImageSet = ImageSet(
    parentImageUrl: Url,
    parentExtension: Option<string>,
    children: Entries<Url>)

  /** PHP's string conversion of a nullable extension: null becomes "". */
  function ExtText(ext: Option<string>): string
  {
    match ext
    case None => ""
    case Some(e) => e
  }

  /** The parent's path after its context folder: `sibling/name`, with
      `.ext` appended only when the extension is truthy. */
  function ParentPath(sibling: string, name: string, ext: Option<string>): string
  {
    sibling + "/" + name + (if TruthyOpt(ext) then "." + ext.value else "")
  }

  /** The (key, path) pairs one template writes: one per encoding, or, when
      `encodings` is null, one under the template's own name whose path
      reuses the parent's extension. */
  function TemplateEmissions(name: string, t: Template, sibling: string, ext: Option<string>): seq<(string, string)>
  {
    match t.encodings
    case Some(encs) =>
      seq(|encs|, j requires 0 <= j < |encs| => (name + "." + encs[j], sibling + "/" + name + "." + encs[j]))
    case None =>
      [(name, sibling + "/" + name + "." + ExtText(ext))]
  }

  /** The pairs a whole template set writes, template after template. */
  function Emissions(ts: TemplateSet, sibling: string, ext: Option<string>): seq<(string, string)>
  {
    if ts == [] then []
    else
      var last := ts[|ts| - 1];
      Emissions(ts[..|ts| - 1], sibling, ext) + TemplateEmissions(last.0, last.1, sibling, ext)
  }

  /** Each emitted pair with its path resolved against the children's context. */
  function Resolve(es: seq<(string, string)>, c: Cache, m: Manager, ctx: string, folder: string, prefer: bool): Entries<Url>
  {
    seq(|es|, i requires 0 <= i < |es| => (es[i].0, ContextSpecUrl(c, m, ctx, folder, es[i].1, prefer)))
  }

  /** `getImageTemplatesFromContextSpec`: fails for an unknown context, is
      null for a category other than the image one, and otherwise gives the
      parent URL, the extension as given and the children. The redirected
      context is only looked up when there is at least one template. */
  function ImageTemplates(c: Cache, m: Manager, ctx: string, folder: string, sibling: string,
                          name: string, ext: Option<string>, prefer: bool): Result<Option<ImageSet>>
  {
    match ContextData(m, ctx)
    case Failure(e) => Failure(e)
    case Success(cd) =>
      if cd.category != TypeImage then Success(None)
      else
        var parent := ContextSpecUrl(c, m, ctx, folder, ParentPath(sibling, name, ext), prefer);
        var ts := TemplatesFor(m, cd);
        if ts == [] then Success(Some(ImageSet(parent, ext, [])))
        else
          match ChildrenContext(m, cd)
          case Failure(e) => Failure(e)
          case Success(cc) =>
            var es := Resolve(Emissions(ts, sibling, ext), c, m, ChildrenContextName(cd, ctx), cc.contextFolder, prefer);
            Success(Some(ImageSet(parent, ext, PutAll([], es))))
  }

  /** The cache after `getImageTemplatesFromContextSpec`: the parent's
      resolution fills the entry of its context, and the first child's that
      of the children's context. */
  function ImageTemplatesCache(c: Cache, m: Manager, ctx: string, sibling: string, ext: Option<string>, prefer: bool): Cache
  {
    match ContextData(m, ctx)
    case Failure(_) => c
    case Success(cd) =>
      if cd.category != TypeImage then c
      else
        var c1 := Warm(c, m, ctx, prefer);
        var ts := TemplatesFor(m, cd);
        if ts != [] && ChildrenContext(m, cd).Success? && Emissions(ts, sibling, ext) != [] then
          Warm(c1, m, ChildrenContextName(cd, ctx), prefer)
        else c1
  }

  /** How many times `getImageTemplatesFromContextSpec` asks the manager for
      context data: once for its own context, and once more for the
      redirected one when it is a string and there is a template. */
  function ContextLookups(m: Manager, ctx: string): nat
  {
    if ctx in m.contexts && m.contexts[ctx].category == TypeImage
       && TemplatesFor(m, m.contexts[ctx]) != [] && m.contexts[ctx].storeManipulated.Some?
    then 2 else 1
  }

  // ------------------------------------------------------------ emissions

  /** One more template appends its pairs. */
  lemma EmissionsSnoc(ts: TemplateSet, t: (string, Template), sibling: string, ext: Option<string>)
    ensures Emissions(ts + [t], sibling, ext) == Emissions(ts, sibling, ext) + TemplateEmissions(t.0, t.1, sibling, ext)
  {
    assert (ts + [t])[..|ts|] == ts;
  }

  lemma SeqAssoc<T>(a: seq<T>, b: seq<T>, c: seq<T>)
    ensures (a + b) + c == a + (b + c)
  {
  }

  /** The pairs of two template sets in a row are those of the first, then
      those of the second. */
  lemma {:induction false} EmissionsAppend(ts1: TemplateSet, ts2: TemplateSet, sibling: string, ext: Option<string>)
    ensures Emissions(ts1 + ts2, sibling, ext) == Emissions(ts1, sibling, ext) + Emissions(ts2, sibling, ext)
    decreases |ts2|
  {
    if ts2 == [] {
      assert ts1 + ts2 == ts1;
    } else {
      var init := ts2[..|ts2| - 1];
      var last := ts2[|ts2| - 1];
      var te := TemplateEmissions(last.0, last.1, sibling, ext);
      var e1, ei := Emissions(ts1, sibling, ext), Emissions(init, sibling, ext);
      assert Emissions(ts1 + ts2, sibling, ext) == Emissions(ts1 + init, sibling, ext) + te by {
        assert ts1 + ts2 == (ts1 + init) + [last];
        EmissionsSnoc(ts1 + init, last, sibling, ext);
      }
      assert Emissions(ts2, sibling, ext) == ei + te by {
        assert ts2 == init + [last];
        EmissionsSnoc(init, last, sibling, ext);
      }
      EmissionsAppend(ts1, init, sibling, ext);
      calc {
        Emissions(ts1 + ts2, sibling, ext);
        Emissions(ts1 + init, sibling, ext) + te;
        (e1 + ei) + te;
        { SeqAssoc(e1, ei, te); }
        e1 + (ei + te);
        e1 + Emissions(ts2, sibling, ext);
      }
    }
  }

  /** A template with an empty `encodings` list writes nothing, wherever it
      stands in the set. */
  lemma EmptyEncodingsWriteNothing(ts1: TemplateSet, name: string, ts2: TemplateSet, sibling: string, ext: Option<string>)
    ensures Emissions(ts1 + [(name, Template(Some([])))] + ts2, sibling, ext) == Emissions(ts1 + ts2, sibling, ext)
  {
    var t := [(name, Template(Some([])))];
    EmissionsAppend(ts1 + t, ts2, sibling, ext);
    EmissionsAppend(ts1, t, sibling, ext);
    EmissionsAppend(ts1, ts2, sibling, ext);
    assert Emissions(t, sibling, ext) == [] by {
      assert t[..0] == [];
    }
  }

  /** Every emitted pair comes from one template of the set, and every
      pair of every template is emitted. */
  lemma {:induction false} EmissionsFromTemplates(ts: TemplateSet, sibling: string, ext: Option<string>, e: (string, string))
    ensures e in Emissions(ts, sibling, ext) <==>
      exists i :: 0 <= i < |ts| && e in TemplateEmissions(ts[i].0, ts[i].1, sibling, ext)
  {
    if ts != [] {
      var init := ts[..|ts| - 1];
      EmissionsFromTemplates(init, sibling, ext, e);
      var last := ts[|ts| - 1];
      if e in Emissions(ts, sibling, ext) {
        if e !in TemplateEmissions(last.0, last.1, sibling, ext) {
          var i :| 0 <= i < |init| && e in TemplateEmissions(init[i].0, init[i].1, sibling, ext);
          assert ts[i] == init[i];
        }
      }
      if exists i :: 0 <= i < |ts| && e in TemplateEmissions(ts[i].0, ts[i].1, sibling, ext) {
        var i :| 0 <= i < |ts| && e in TemplateEmissions(ts[i].0, ts[i].1, sibling, ext);
        if i < |init| {
          assert init[i] == ts[i];
        }
      }
    }
  }

  /** The keys and paths of one template's pairs: `t.e` at `sibling/t.e` for
      each encoding `e` in order, or `t` at `sibling/t.<ext>` when
      `encodings` is null ("" for a null extension, hence a trailing dot). */
  lemma TemplateEmissionsShape(name: string, t: Template, sibling: string, ext: Option<string>)
    ensures t.encodings.None? ==>
      TemplateEmissions(name, t, sibling, ext) == [(name, sibling + "/" + name + "." + ExtText(ext))]
    ensures t.encodings.Some? ==> |TemplateEmissions(name, t, sibling, ext)| == |t.encodings.value|
    ensures t.encodings.Some? ==> forall j :: 0 <= j < |t.encodings.value| ==>
      TemplateEmissions(name, t, sibling, ext)[j] ==
        (name + "." + t.encodings.value[j], sibling + "/" + name + "." + t.encodings.value[j])
    ensures ext.None? && t.encodings.None? ==>
      TemplateEmissions(name, t, sibling, ext)[0].1 == sibling + "/" + name + "."
  {
  }

  /** A template "thumb" with encodings ["webp", "jpg"] writes exactly the
      keys "thumb.webp" and "thumb.jpg", at `sibling/thumb.webp` and
      `sibling/thumb.jpg`. */
  lemma ThumbEncodings(sibling: string, ext: Option<string>)
    ensures Emissions([("thumb", Template(Some(["webp", "jpg"])))], sibling, ext) ==
      [("thumb.webp", sibling + "/thumb.webp"), ("thumb.jpg", sibling + "/thumb.jpg")]
  {
    var ts := [("thumb", Template(Some(["webp", "jpg"])))];
    assert ts[..0] == [];
    assert "thumb" + "." + "webp" == "thumb.webp";
    assert "thumb" + "." + "jpg" == "thumb.jpg";
    assert sibling + "/" + "thumb" + "." + "webp" == sibling + "/thumb.webp";
    assert sibling + "/" + "thumb" + "." + "jpg" == sibling + "/thumb.jpg";
  }

  /** A template "small" without encodings and the parent extension "png"
      write the single key "small" at `sibling/small.png`. */
  lemma SmallReusesExtension(sibling: string)
    ensures Emissions([("small", Template(None))], sibling, Some("png")) == [("small", sibling + "/small.png")]
  {
    var ts := [("small", Template(None))];
    assert ts[..0] == [];
    assert sibling + "/" + "small" + "." + "png" == sibling + "/small.png";
  }

  /** The extension "0" is falsy: the parent path drops it, while a child
      without encodings still appends ".0". */
  lemma ZeroExtension(sibling: string, name: string, t: string)
    ensures ParentPath(sibling, name, Some("0")) == sibling + "/" + name
    ensures TemplateEmissions(t, Template(None), sibling, Some("0")) == [(t, sibling + "/" + t + ".0")]
  {
    assert sibling + "/" + t + "." + "0" == sibling + "/" + t + ".0";
  }

  // ------------------------------------------------------------- results

  /** The keys of the resolved pairs are the emitted keys. */
  lemma ResolveKeys(es: seq<(string, string)>, c: Cache, m: Manager, ctx: string, folder: string, prefer: bool)
    ensures Keys(Resolve(es, c, m, ctx, folder, prefer)) == Keys(es)
    ensures KeySet(Resolve(es, c, m, ctx, folder, prefer)) == KeySet(es)
  {
    var r := Resolve(es, c, m, ctx, folder, prefer);
    assert Keys(r) == Keys(es);
    forall x | x in KeySet(r) ensures x in KeySet(es) {
      var i :| 0 <= i < |r| && r[i].0 == x;
      assert es[i].0 == x;
    }
    forall x | x in KeySet(es) ensures x in KeySet(r) {
      var i :| 0 <= i < |es| && es[i].0 == x;
      assert r[i].0 == x;
    }
  }

  /** Resolving one more pair appends its resolution. */
  lemma ResolveSnoc(es: seq<(string, string)>, e: (string, string), c: Cache, m: Manager, ctx: string, folder: string, prefer: bool)
    ensures Resolve(es + [e], c, m, ctx, folder, prefer) ==
      Resolve(es, c, m, ctx, folder, prefer) + [(e.0, ContextSpecUrl(c, m, ctx, folder, e.1, prefer))]
  {
    var r := Resolve(es + [e], c, m, ctx, folder, prefer);
    assert r[|es|] == (e.0, ContextSpecUrl(c, m, ctx, folder, e.1, prefer));
    assert r[..|es|] == Resolve(es, c, m, ctx, folder, prefer);
    assert r == r[..|es|] + [r[|es|]];
  }

  /** The templates up to index `i` inclusive emit the pairs of those before
      it, then the pairs of template `i`. */
  lemma EmissionsPrefix(ts: TemplateSet, i: nat, sibling: string, ext: Option<string>)
    requires i < |ts|
    ensures Emissions(ts[..i + 1], sibling, ext) ==
      Emissions(ts[..i], sibling, ext) + TemplateEmissions(ts[i].0, ts[i].1, sibling, ext)
  {
    assert ts[..i + 1][..i] == ts[..i];
  }

  /** The pairs of a template with encodings, one encoding at a time. */
  lemma TemplateEmissionsPrefix(name: string, t: Template, sibling: string, ext: Option<string>, j: nat)
    requires t.encodings.Some? && j < |t.encodings.value|
    ensures TemplateEmissions(name, t, sibling, ext)[..j + 1] ==
      TemplateEmissions(name, t, sibling, ext)[..j] +
      [(name + "." + t.encodings.value[j], sibling + "/" + name + "." + t.encodings.value[j])]
  {
    var es := TemplateEmissions(name, t, sibling, ext);
    assert es[..j + 1] == es[..j] + [es[j]];
  }

  /** Null exactly for a known context whose category is not the image one. */
  lemma NullExactlyForNonImages(c: Cache, m: Manager, ctx: string, folder: string, sibling: string,
                                name: string, ext: Option<string>, prefer: bool)
    ensures ImageTemplates(c, m, ctx, folder, sibling, name, ext, prefer) == Success(None) <==>
      ctx in m.contexts && m.contexts[ctx].category != TypeImage
  {
  }

  /** The failures: an unknown context, or an image context whose string
      `store_manipulated` names an unknown context while there is at least
      one template to expand. */
  lemma FailsExactly(c: Cache, m: Manager, ctx: string, folder: string, sibling: string,
                     name: string, ext: Option<string>, prefer: bool)
    ensures ImageTemplates(c, m, ctx, folder, sibling, name, ext, prefer).Failure? <==>
      || ctx !in m.contexts
      || (&& m.contexts[ctx].category == TypeImage
          && TemplatesFor(m, m.contexts[ctx]) != []
          && m.contexts[ctx].storeManipulated.Some?
          && m.contexts[ctx].storeManipulated.value !in m.contexts)
  {
  }

  /** Writing resolved pairs into an empty array: every child is one of the
      pairs, resolved. */
  lemma ResolvedWritesFrom(es: seq<(string, string)>, c: Cache, m: Manager, ctx: string, folder: string, prefer: bool)
    ensures var r := PutAll([], Resolve(es, c, m, ctx, folder, prefer));
      forall i :: 0 <= i < |r| ==>
        exists j :: 0 <= j < |es| && r[i] == (es[j].0, ContextSpecUrl(c, m, ctx, folder, es[j].1, prefer))
  {
    var rs := Resolve(es, c, m, ctx, folder, prefer);
    var r := PutAll([], rs);
    PutAllEntriesFrom([], rs);
    forall i | 0 <= i < |r|
      ensures exists j :: 0 <= j < |es| && r[i] == (es[j].0, ContextSpecUrl(c, m, ctx, folder, es[j].1, prefer))
    {
      var j :| 0 <= j < |rs| && rs[j] == r[i];
      assert r[i] == (es[j].0, ContextSpecUrl(c, m, ctx, folder, es[j].1, prefer));
    }
  }

  /** Each emitted key appears once among the children, in order of its
      first emission. */
  lemma ResolvedWritesKeys(es: seq<(string, string)>, c: Cache, m: Manager, ctx: string, folder: string, prefer: bool)
    ensures var r := PutAll([], Resolve(es, c, m, ctx, folder, prefer));
      && DistinctKeys(r)
      && KeySet(r) == KeySet(es)
      && Keys(r) == FirstOccurrences([], Keys(es))
  {
    var rs := Resolve(es, c, m, ctx, folder, prefer);
    var r := PutAll([], rs);
    PutAllDistinct([], rs);
    assert DistinctKeys(r);
    PutAllKeySet([], rs);
    ResolveKeys(es, c, m, ctx, folder, prefer);
    assert KeySet(r) == KeySet(es);
    var empty: Entries<Url> := [];
    PutAllOrder(empty, rs);
    assert Keys(empty) == [];
    assert Keys(r) == FirstOccurrences(Keys(empty), Keys(rs));
  }

  /** A key emitted more than once holds the URL of its last emission. */
  lemma ResolvedWritesLastWins(es: seq<(string, string)>, c: Cache, m: Manager, ctx: string, folder: string, prefer: bool, j: nat)
    requires j < |es| && forall k :: j < k < |es| ==> es[k].0 != es[j].0
    ensures Get(PutAll([], Resolve(es, c, m, ctx, folder, prefer)), es[j].0) ==
            Some(ContextSpecUrl(c, m, ctx, folder, es[j].1, prefer))
  {
    var rs := Resolve(es, c, m, ctx, folder, prefer);
    assert rs[j].0 == es[j].0;
    PutAllLastWins([], rs, j);
  }

  /** An image set resolves its parent against the context and folder it
      was given and echoes the extension. Without templates it has no
      children; otherwise the children's context data was found, and the
      children are the emitted pairs written in order, resolved against the
      children's context name and the folder configured for that context
      (not the folder given). */
  lemma ImageSetShape(c: Cache, m: Manager, ctx: string, folder: string, sibling: string,
                      name: string, ext: Option<string>, prefer: bool, s: ImageSet)
    requires ImageTemplates(c, m, ctx, folder, sibling, name, ext, prefer) == Success(Some(s))
    ensures ctx in m.contexts && m.contexts[ctx].category == TypeImage
    ensures s.parentImageUrl == ContextSpecUrl(c, m, ctx, folder, ParentPath(sibling, name, ext), prefer)
    ensures s.parentExtension == ext
    ensures TemplatesFor(m, m.contexts[ctx]) == [] ==> s.children == []
    ensures TemplatesFor(m, m.contexts[ctx]) != [] ==>
      var cd := m.contexts[ctx];
      && ChildrenContext(m, cd).Success?
      && s.children == PutAll([], Resolve(Emissions(TemplatesFor(m, cd), sibling, ext), c, m,
                                          ChildrenContextName(cd, ctx), ChildrenContext(m, cd).value.contextFolder, prefer))
  {
  }

  /** With `store_manipulated` naming a context, every child resolves against
      that context and its configured folder (a routed child carries exactly
      these), while the parent keeps its own context. */
  lemma RedirectedChildren(c: Cache, m: Manager, ctx: string, folder: string, sibling: string,
                           name: string, ext: Option<string>, prefer: bool, s: ImageSet, target: string, i: nat)
    requires ImageTemplates(c, m, ctx, folder, sibling, name, ext, prefer) == Success(Some(s))
    requires ctx in m.contexts && m.contexts[ctx].storeManipulated == Some(target)
    requires i < |s.children|
    ensures target in m.contexts
    ensures s.parentImageUrl == ContextSpecUrl(c, m, ctx, folder, ParentPath(sibling, name, ext), prefer)
    ensures exists path :: s.children[i].1 == ContextSpecUrl(c, m, target, m.contexts[target].contextFolder, path, prefer)
    ensures s.children[i].1.Routed? ==>
      s.children[i].1.contextName == target && s.children[i].1.contextFolder == m.contexts[target].contextFolder
  {
    ImageSetShape(c, m, ctx, folder, sibling, name, ext, prefer, s);
    var cd := m.contexts[ctx];
    var es := Emissions(TemplatesFor(m, cd), sibling, ext);
    ResolvedWritesFrom(es, c, m, target, m.contexts[target].contextFolder, prefer);
  }

  /** Without redirection every child resolves against the parent's context
      name and the folder configured for it. */
  lemma UnredirectedChildren(c: Cache, m: Manager, ctx: string, folder: string, sibling: string,
                             name: string, ext: Option<string>, prefer: bool, s: ImageSet, i: nat)
    requires ImageTemplates(c, m, ctx, folder, sibling, name, ext, prefer) == Success(Some(s))
    requires ctx in m.contexts && m.contexts[ctx].storeManipulated.None?
    requires i < |s.children|
    ensures exists path :: s.children[i].1 == ContextSpecUrl(c, m, ctx, m.contexts[ctx].contextFolder, path, prefer)
  {
    ImageSetShape(c, m, ctx, folder, sibling, name, ext, prefer, s);
    var cd := m.contexts[ctx];
    var es := Emissions(TemplatesFor(m, cd), sibling, ext);
    ResolvedWritesFrom(es, c, m, ctx, cd.contextFolder, prefer);
  }

  /** Children do not depend on the context folder passed in: they use the
      folder configured for the children's context. The parent does. */
  lemma ChildrenIgnoreFolderArgument(c: Cache, m: Manager, ctx: string, f1: string, f2: string,
                                     sibling: string, name: string, ext: Option<string>, prefer: bool)
    ensures ImageTemplates(c, m, ctx, f1, sibling, name, ext, prefer).Success? ==
            ImageTemplates(c, m, ctx, f2, sibling, name, ext, prefer).Success?
    ensures match (ImageTemplates(c, m, ctx, f1, sibling, name, ext, prefer), ImageTemplates(c, m, ctx, f2, sibling, name, ext, prefer))
      case (Success(Some(s1)), Success(Some(s2))) => s1.children == s2.children
      case _ => true
  {
  }

  /** A consistent cache changes nothing: the image set equals the one an
      empty cache gives. */
  lemma ConsistentImageTemplates(c: Cache, m: Manager, ctx: string, folder: string, sibling: string,
                                 name: string, ext: Option<string>, prefer: bool)
    requires Consistent(c, m)
    ensures ImageTemplates(c, m, ctx, folder, sibling, name, ext, prefer) ==
            ImageTemplates(map[], m, ctx, folder, sibling, name, ext, prefer)
  {
    forall x, f, a, p ensures ContextSpecUrl(c, m, x, f, a, p) == ContextSpecUrl(map[], m, x, f, a, p) {
      ConsistentIsTransparent(c, m, x, f, a, p, "", false);
    }
    forall es: seq<(string, string)>, x, f ensures Resolve(es, c, m, x, f, prefer) == Resolve(es, map[], m, x, f, prefer) {
    }
  }

  /** Expansion keeps a consistent cache consistent. */
  lemma ImageTemplatesCacheConsistent(c: Cache, m: Manager, ctx: string, sibling: string, ext: Option<string>, prefer: bool)
    requires Consistent(c, m)
    ensures Consistent(ImageTemplatesCache(c, m, ctx, sibling, ext, prefer), m)
  {
    if ctx in m.contexts && m.contexts[ctx].category == TypeImage {
      WarmConsistent(c, m, ctx, prefer);
      WarmConsistent(Warm(c, m, ctx, prefer), m, ChildrenContextName(m.contexts[ctx], ctx), prefer);
    }
  }
}
