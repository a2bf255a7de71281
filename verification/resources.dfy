/** The framework's resource object as the renderer sees it: a status code,
    a header map, a body and the rendered view, plus the identity of the
    class that implements it. */
module Resources {
  import opened Wrappers

  /** Status codes the renderer tests (HTTP status codes, RFC 9110). */
  const OK: int := 200
  const NO_CONTENT: int := 204
  const MOVED_PERMANENTLY: int := 301
  const FOUND: int := 302
  const SEE_OTHER: int := 303
  const TEMPORARY_REDIRECT: int := 307
  const PERMANENT_REDIRECT: int := 308

  /** A PHP value held in a resource body. Arrays are associative arrays
      keyed by strings. */
  datatype Value =
    | Null
    | Bool(b: bool)
    | Int(i: int)
    | Str(s: string)
    | Arr(entries: map<string, Value>)

  /** A class as reflection reports it: its fully-qualified name and the
      file that declares it. */
  datatype ClassInfo = ClassInfo(name: string, file: string)

  /** The runtime class of a resource. An aspect-weaved resource is an
      instance of a generated subclass of the class the user wrote. */
  datatype ResourceClass =
    | Plain(cls: ClassInfo)
    | Weaved(generated: ClassInfo, parent: ClassInfo)

  /** `view` is `None` while PHP's `$ro->view` is still null. */
  datatype Resource = Resource(
    code: int,
    headers: map<string, string>,
    body: Value,
    view: Option<string>,
    runtimeClass: ResourceClass
  )
}
