/** The renderer backends (OpenUtau.Core.Render), reduced to a registry by name. */
module Render {
  import opened Wrappers
  import opened Singers

  /** A live renderer; `tag` is what its `ToString()` returns. */
  datatype RendererInstance = RendererInstance(tag: string)

  /**
    `Renderers.CreateRenderer` as a lookup by name, and
    `Renderers.GetDefaultRenderer` as a total function of the singer type.
  */
  datatype RendererRegistry = RendererRegistry(byName: map<string, RendererInstance>, defaultFor: SingerType -> string)

  /** `Renderers.CreateRenderer(name)`: none for a null or unknown name. */
  function CreateRenderer(registry: RendererRegistry, name: Option<string>): Option<RendererInstance> {
    if name.Some? && name.value in registry.byName then Some(registry.byName[name.value]) else None
  }

  /** `renderer?.ToString()`. */
  function Tag(r: Option<RendererInstance>): Option<string> {
    match r
    case Some(x) => Some(x.tag)
    case None => None
  }
}
