/** The configuration the URL generator reads through its secretary manager:
    the contexts, the global template set and the asset folders. The
    manager itself is not part of this model; only what it answers is. */
module Config {
  import opened Wrappers

  /** The category constant image contexts carry. */
  const TypeImage: string := "image"

  /** The failure `getContextData` raises for a context nobody configured. */
  datatype Error = UnknownContext(name: string)

  datatype Result<+T> = Success(value: T) | Failure(error: Error)

  /** A template: `args.encodings` is either null (one variant that reuses
      the parent's extension) or a list of encodings, one variant each. */
  datatype Template = Template(encodings: Option<seq<string>>)

  /** A template set, in the order its entries are iterated. */
  type TemplateSet = seq<(string, Template)>

  /** One entry of the `contexts` configuration. `storeManipulated` is
      `Some(name)` exactly when the configured value is a string; every
      other value (absent, false, ...) is `None`. `allowedTemplates` is
      `Some` exactly when the key exists. */
  datatype Context = Context(
    category: string,
    contextFolder: string,
    driverBaseAddress: Option<string>,
    storeManipulated: Option<string>,
    allowedTemplates: Option<TemplateSet>)

  /** What the secretary manager answers: the contexts by name, the global
      templates (`getAvailableTemplates`) and the starting URL of an asset
      folder (`assetFolderToStartingUrl`). */
  datatype Manager = Manager(
    contexts: map<string, Context>,
    availableTemplates: TemplateSet,
    startingUrl: (string, bool) -> string)

  /** `getContextData`: fails for an unknown context. */
  function ContextData(m: Manager, name: string): Result<Context>
  {
    if name in m.contexts then Success(m.contexts[name]) else Failure(UnknownContext(name))
  }

  /** `getConfig("contexts.<ctx>.driver_base_address")`: null when the
      context or its base address is not configured. */
  function BaseAddress(m: Manager, ctx: string): Option<string>
  {
    if ctx in m.contexts then m.contexts[ctx].driverBaseAddress else None
  }

  /** The context's own templates when it declares them, else the global set. */
  function TemplatesFor(m: Manager, cd: Context): TemplateSet
  {
    match cd.allowedTemplates
    case Some(ts) => ts
    case None => m.availableTemplates
  }

  /** The context name every variant is resolved against. */
  function ChildrenContextName(cd: Context, ctx: string): string
  {
    match cd.storeManipulated
    case Some(n) => n
    case None => ctx
  }

  /** The context data the variants take their folder from: the redirected
      context's (looked up, so it may fail) or the parent's own. */
  function ChildrenContext(m: Manager, cd: Context): Result<Context>
  {
    match cd.storeManipulated
    case Some(n) => ContextData(m, n)
    case None => Success(cd)
  }
}
