# Twig renderer dispatch, modelled in Dafny

This project models `TwigRenderer`, the component that turns a BEAR resource
object into its view through the Twig template engine. Given a resource
(status code, header map, body, current view and implementing class), the
renderer:

- adds `content-type: text/html; charset=utf-8` when the resource has no
  `content-type` header;
- sorts the resource into exactly one of three categories, tried in order:
  no-content (status 204 or a view that is already `''`), redirect (status
  301, 302, 303, 307 or 308 with a `Location` header), or normal;
- for a redirect, writes a fixed HTML page. The page refreshes to and links to
  the `Location` value, escaped as `htmlspecialchars` with `ENT_QUOTES` does
  it (`&`, `<`, `>`, `"`, `'` become `&amp;`, `&lt;`, `&gt;`, `&quot;`, `&#039;`);
- for a normal resource, resolves a template identifier from the resource's
  class, after unwrapping an aspect-weaved subclass to the class the user
  wrote. A filesystem loader gets the identifier through the template finder
  applied to the class file. Any other loader gets the class name followed
  by `.html.twig`. The template is rendered with the body entries plus an
  `_ro` entry for the resource, and a body entry named `_ro` wins;
- turns a missing template into a `TemplateNotFound` failure (code 500) when
  the status is 200. For any other status it turns it into an empty view;
- stores the output as the resource's view and returns it.

Modules:

- `Wrappers` (`wrappers.dfy`): `Option` and `Result`.
- `PhpArray` (`php_array.dfy`): PHP's `+=` on arrays, a union in which the
  left operand wins.
- `Html` (`html.dfy`): the escape, its inverse `Unescape`, and their lemmas.
- `Resources` (`resources.dfy`): the resource object, body values, class
  identity and the status codes.
- `Twig` (`twig.dfy`): the template engine. Its loader kind, its `load`
  (identifier to template or `LoaderError`) and its `render` (template and
  context to string) are fields of an `Environment` value.
- `Renderer` (`renderer.dfy`): the dispatch itself. `Render` is a pure
  function from a renderer configuration and a resource to either the
  updated resource with its view, or `TemplateNotFound`.

Twig's loader and renderer and the template finder are external code. They
are parameters of the model (function-typed fields), so every property below
holds for every loader, renderer and finder.

## Model

| member | source | states |
|---|---|---|
| `Renderer.Render` | src/TwigRenderer.php:46-59 | On success the returned resource is the input with `content-type` defaulted and the view set to the returned string, so the output always equals the stored view. It fails exactly when the resource is normal, its status is 200 and the loader cannot find its template |
| `Renderer.SetContentType` | src/TwigRenderer.php:61-66 | `content-type` is present afterwards. It is the default when it was absent. Every existing header keeps its value, no key other than `content-type` is added, and code, body, view and class are unchanged |
| `Renderer.RenderContentType` | src/TwigRenderer.php:46-66 | After a successful render the headers hold `content-type`, the default if it was missing. The key set is the old one plus `content-type`, and every old header keeps its value |
| `Renderer.Classify` | src/TwigRenderer.php:106-120 | The category is no-content iff the code is 204 or the view is `''`. It is redirect iff it is not no-content, the code is one of 301, 302, 303, 307, 308, and `Location` is present. A redirect code without `Location` is therefore normal |
| `Renderer.RenderNoContent` | src/TwigRenderer.php:50-51 | A no-content resource renders to `''` with its view set to `''`. The result is the same for any two renderer configurations, so the loader is never consulted |
| `Renderer.RenderRedirect` | src/TwigRenderer.php:52-53 | A redirect resource renders to the redirect page filled with the escaped `Location`. The result does not depend on the template engine or the finder |
| `Renderer.RenderRedirectView` | src/TwigRenderer.php:75-89 | The page contains `content="0;url=E"` and `<a href="E">`, where E is the escaped location. E contains no `<`, `>`, `"` or `'` |
| `Renderer.RedirectViewInjective` | src/TwigRenderer.php:75-89 | Equal redirect pages come only from equal `Location` values, so the page determines the location exactly |
| `Renderer.RenderNormal` | src/TwigRenderer.php:54-55 | A normal resource whose template loads renders to the engine's output for that template and the context built from its (content-type-defaulted) body |
| `Renderer.RenderView` | src/TwigRenderer.php:68-73 | If the template loads, the result is its rendering with the built context. A missing template gives `''` when the status is not 200 and `TemplateNotFound(message, 500)` when it is 200 |
| `Renderer.Load` | src/TwigRenderer.php:95-104 | Fails iff the loader fails and the status is 200, with the loader's message and code 500. Yields a template iff the loader does, and it is the loader's template. Otherwise it yields no template |
| `Renderer.RenderMissingTemplate` | src/TwigRenderer.php:95-104 | For a normal resource whose template is missing, rendering fails with `TemplateNotFound` when the status is 200 and yields the empty view for any other status |
| `Renderer.TemplateId` | src/TwigRenderer.php:122-133 | With a filesystem loader the identifier is the finder's result for the class file. With any other loader it is the class name followed by the 10-character suffix `.html.twig`, and the name can be read back from it |
| `Renderer.LoadTemplate` | src/TwigRenderer.php:122-133 | For a plain class, the loader is asked for the finder's path of the class file (filesystem loader) or for the class name followed by `.html.twig` (any other loader). For a weaved class the same holds with the parent class in place of the generated one |
| `Renderer.GetReflectionUnwrapsWeaving` | src/TwigRenderer.php:135-142 | Reflection on a weaved instance reports the same class as on a plain instance of its parent, namely the parent, whatever subclass was generated |
| `Renderer.TemplateIdIgnoresWeaving` | src/TwigRenderer.php:135-142 | A weaved resource gets the same template identifier as a plain instance of its parent class, whatever the generated subclass is |
| `Renderer.BuildBody` | src/TwigRenderer.php:144-150 | The context's keys are the array body's keys plus `_ro`, and no body keys for a non-array body. Every body entry is kept unchanged. `_ro` is bound to the resource only when the body lacks `_ro` |
| `Renderer.ExistingRoWins` | src/TwigRenderer.php:147 | A body `{"_ro": v}` gives the context `{"_ro": v}`: the body's own `_ro` is not overwritten by the resource |
| `PhpArray.PlusAssign` | src/TwigRenderer.php:147 | `a += b` has the keys of both. Keys of `a` keep `a`'s value, and keys only in `b` take `b`'s value |
| `Html.Escape` | src/TwigRenderer.php:89 | The escaped text contains no `<`, `>`, `"` or `'` and is never shorter than its input |
| `Html.EscapeAmpersands` | src/TwigRenderer.php:89 | Every `&` of the escaped text starts one of `&amp;`, `&lt;`, `&gt;`, `&quot;`, `&#039;` |
| `Html.UnescapeEscape` | src/TwigRenderer.php:89 | Decoding the five entities gives back the original text, so the escape loses nothing |
| `Html.EscapeInjective` | src/TwigRenderer.php:89 | Distinct texts escape to distinct texts |
| `Html.EscapeIdentity` | src/TwigRenderer.php:89 | A text is unchanged by the escape iff it contains none of the five special characters |
| `Html.EscapeAppend` | src/TwigRenderer.php:89 | The escape works character by character: it distributes over concatenation |
| `Html.EscapeQueryExample` | src/TwigRenderer.php:89 | `a?x=1&y=2` escapes to `a?x=1&amp;y=2` |

## Left out

- src/TwigErrorPage.php and src/TwigErrorPageModule.php: dependency-injection bindings and a passive resource holder, with no decision logic.
- The constructor (src/TwigRenderer.php:37-41) and its default `TemplateFinder`: the finder is a parameter of the renderer configuration, and the concrete path convention is not part of this model. It is deterministic by construction, because it is a function.
- Twig's template parsing, compilation and rendering: `load` and `render` are uninterpreted functions of the environment.
- Exceptions other than `LoaderError` (syntax or runtime errors from `load`, errors thrown while rendering): in the source they propagate unchanged. The model has no such failures.
- Renderer.Render: on failure the model returns only `TemplateNotFound`. In the source the resource's `content-type` header has already been defaulted when the exception is thrown.
- Renderer.BuildBody: body arrays and the render context are unordered maps, so the key order of a PHP array is lost, and so is `_ro`'s position after the body's entries. Two bodies that differ only in key order give the same context, and therefore the same output, in the model, although a template that iterates over them can render them differently.
- Renderer.BuildBody: `_ro` is bound to a copy of the resource as it is when the context is built (content type defaulted, view not yet set). The source binds a reference to the live object.
- PHP arrays with integer keys: body keys are strings.
- Header values of `null`: `isset` treats such a key as absent. Headers here are a map of strings, with no nulls.
- `htmlspecialchars` on invalid UTF-8 returns `''`. The model escapes a sequence of characters and assumes valid input.
- Views that are neither a string nor null: `view` is an optional string, and only `Some("")` counts as the empty view.
- The filesystem loader's root paths: the renderer only asks whether the loader is a filesystem loader and never reads its paths.
