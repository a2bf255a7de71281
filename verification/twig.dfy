/** The template engine as seen from the renderer. Loading and rendering are
    external, so they are carried as functions of the environment. */
module Twig {
  import opened Wrappers
  import opened Resources

  /** One entry of a render context: a body value or the resource itself. */
  datatype ContextValue = Data(v: Value) | Ro(ro: Resource)

  type Context = map<string, ContextValue>

  /** An opaque handle to a loaded template. Which handle an identifier
      yields is decided by the environment's `load`. */
  datatype Template = Template(handle: string)

  /** The error the loader raises when it cannot find a template. */
  datatype LoaderError = LoaderError(message: string)

  /** Whether the loader is Twig's filesystem loader or any other kind of
      loader. */
  datatype Loader = FilesystemLoader | OtherLoader

  datatype Environment = Environment(
    loader: Loader,
    load: string -> Result<Template, LoaderError>,
    render: (Template, Context) -> string
  )
}
