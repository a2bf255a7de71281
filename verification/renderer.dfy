/** The Twig renderer: it defaults the content type of a resource, sorts the
    resource into no-content, redirect or normal, and produces its view. */
module Renderer {
  import opened Wrappers
  import opened Resources
  import opened Twig
  import opened Html
  import opened PhpArray

  /** Suffix of a template identifier built from a class name. */
  const EXT: string := ".html.twig"

  const CONTENT_TYPE: string := "content-type"
  const DEFAULT_CONTENT_TYPE: string := "text/html; charset=utf-8"
  const LOCATION: string := "Location"

  /** Context key under which templates see the resource itself. */
  const RO_KEY: string := "_ro"

  /** Raised when a resource with status 200 has no template. */
  datatype TemplateNotFound = TemplateNotFound(message: string, code: int)

  /** The renderer's configuration: the template engine and the finder that
      maps a class file to a template file for filesystem loaders. */
  datatype TwigRenderer = TwigRenderer(
    twig: Environment,
    templateFinder: string -> string
  )

  datatype Category = NoContent | Redirect | Normal

  /** The header map gains `content-type` when it lacks one; no other key is
      added or changed, and the rest of the resource is untouched. */
  function SetContentType(ro: Resource): (r: Resource)
    ensures CONTENT_TYPE in r.headers
    ensures CONTENT_TYPE !in ro.headers ==> r.headers[CONTENT_TYPE] == DEFAULT_CONTENT_TYPE
    ensures forall k :: k in ro.headers ==> k in r.headers && r.headers[k] == ro.headers[k]
    ensures r.headers.Keys == ro.headers.Keys + {CONTENT_TYPE}
    ensures r.(headers := ro.headers) == ro
  {
    if CONTENT_TYPE in ro.headers then ro
    else ro.(headers := ro.headers[CONTENT_TYPE := DEFAULT_CONTENT_TYPE])
  }

  predicate IsNoContent(ro: Resource) {
    ro.code == NO_CONTENT || ro.view == Some("")
  }

  const REDIRECT_CODES: seq<int> :=
    [MOVED_PERMANENTLY, FOUND, SEE_OTHER, TEMPORARY_REDIRECT, PERMANENT_REDIRECT]

  predicate IsRedirect(ro: Resource) {
    ro.code in REDIRECT_CODES && LOCATION in ro.headers
  }

  /** The three categories are tried in order: no-content first, then
      redirect, and everything else is rendered normally. */
  function Classify(ro: Resource): (c: Category)
    ensures c == NoContent <==> ro.code == 204 || ro.view == Some("")
    ensures c == Redirect <==>
      && ro.code != 204 && ro.view != Some("")
      && ro.code in {301, 302, 303, 307, 308}
      && "Location" in ro.headers
  {
    if IsNoContent(ro) then NoContent
    else if IsRedirect(ro) then Redirect
    else Normal
  }

  /** The fixed redirect document, split around the places the escaped URL
      is written: the refresh target, the title, the link target and the
      link text. */
  const PageHead: string :=
    "<!DOCTYPE html>\n<html>\n    <head>\n        <meta charset=\"UTF-8\" />\n        <meta http-equiv=\"refresh\" "
  const RefreshOpen: string := "content=\"0;url="
  const TitleOpen: string := " />\n        <title>Redirecting to "
  const BodyOpen: string := "</title>\n    </head>\n    <body>\n        Redirecting to "
  const LinkOpen: string := "<a href=\""
  const PageTail: string := "</a>.\n    </body>\n</html>"

  function RefreshAttr(e: string): string {
    RefreshOpen + e + "\""
  }

  function LinkAttr(e: string): string {
    LinkOpen + e + "\">"
  }

  function RedirectPage(e: string): string {
    PageHead + RefreshAttr(e) + (TitleOpen + e + BodyOpen) + LinkAttr(e) + (e + PageTail)
  }

  /** The redirect page refreshes to, and links to, the escaped location;
      the escaped text can neither close the attribute nor open a tag. */
  function RenderRedirectView(ro: Resource): (page: string)
    requires LOCATION in ro.headers
    ensures Contains(page, "content=\"0;url=" + Escape(ro.headers[LOCATION]) + "\"")
    ensures Contains(page, "<a href=\"" + Escape(ro.headers[LOCATION]) + "\">")
    ensures forall i :: 0 <= i < |Escape(ro.headers[LOCATION])| ==>
      !IsMarkup(Escape(ro.headers[LOCATION])[i])
  {
    var e := Escape(ro.headers[LOCATION]);
    RedirectPageContains(e);
    RedirectPage(e)
  }

  lemma RedirectPageContains(e: string)
    ensures Contains(RedirectPage(e), RefreshAttr(e))
    ensures Contains(RedirectPage(e), LinkAttr(e))
  {
    var rest := (TitleOpen + e + BodyOpen) + LinkAttr(e) + (e + PageTail);
    assert RedirectPage(e) == PageHead + RefreshAttr(e) + rest;
    ContainsMiddle(PageHead, RefreshAttr(e), rest);
    ContainsMiddle(PageHead + RefreshAttr(e) + (TitleOpen + e + BodyOpen), LinkAttr(e), e + PageTail);
  }

  lemma RefreshSlot(e: string)
    ensures RedirectPage(e)[|PageHead| + |RefreshOpen|..|PageHead| + |RefreshOpen| + |e|] == e
  {
    var page := RedirectPage(e);
    var rest := "\"" + (TitleOpen + e + BodyOpen) + LinkAttr(e) + (e + PageTail);
    assert page == (PageHead + RefreshOpen) + e + rest;
  }

  lemma RedirectPageLength(e: string)
    ensures |RedirectPage(e)| == |RedirectPage([])| + 4 * |e|
  {
  }

  lemma RedirectPageInjective(ea: string, eb: string)
    requires RedirectPage(ea) == RedirectPage(eb)
    ensures ea == eb
  {
    RedirectPageLength(ea);
    RedirectPageLength(eb);
    RefreshSlot(ea);
    RefreshSlot(eb);
  }

  /** Two resources get the same redirect page only when their locations
      are equal: the page determines the location. */
  lemma RedirectViewInjective(a: Resource, b: Resource)
    requires LOCATION in a.headers && LOCATION in b.headers
    requires RenderRedirectView(a) == RenderRedirectView(b)
    ensures a.headers[LOCATION] == b.headers[LOCATION]
  {
    RedirectPageInjective(Escape(a.headers[LOCATION]), Escape(b.headers[LOCATION]));
    EscapeInjective(a.headers[LOCATION], b.headers[LOCATION]);
  }

  /** Reflection on a weaved resource reports the class the user wrote. */
  function GetReflection(c: ResourceClass): ClassInfo {
    match c
    case Plain(cls) => cls
    case Weaved(_, parent) => parent
  }

  /** A weaved instance and a plain instance of the class the user wrote
      reflect to the same class, and that class is the user's, whatever
      subclass the weaver generated. */
  lemma GetReflectionUnwrapsWeaving(generated: ClassInfo, parent: ClassInfo)
    ensures GetReflection(Weaved(generated, parent)) == GetReflection(Plain(parent)) == parent
  {
  }

  /** The identifier a resource's template is loaded under. */
  function TemplateId(r: TwigRenderer, ro: Resource): (id: string)
    ensures r.twig.loader.FilesystemLoader? ==>
      id == r.templateFinder(GetReflection(ro.runtimeClass).file)
    ensures r.twig.loader.OtherLoader? ==>
      && |id| == |GetReflection(ro.runtimeClass).name| + 10
      && id[..|id| - 10] == GetReflection(ro.runtimeClass).name
      && id[|id| - 10..] == ".html.twig"
  {
    var cls := GetReflection(ro.runtimeClass);
    if r.twig.loader.FilesystemLoader? then r.templateFinder(cls.file)
    else cls.name + EXT
  }

  /** The template identifier depends on the user's class only: weaving does
      not change it. */
  lemma TemplateIdIgnoresWeaving(r: TwigRenderer, ro: Resource, generated: ClassInfo, parent: ClassInfo)
    requires ro.runtimeClass == Weaved(generated, parent)
    ensures TemplateId(r, ro) == TemplateId(r, ro.(runtimeClass := Plain(parent)))
  {
  }

  /** The loader is asked for the finder's path of the user's class file
      when it is a filesystem loader, and for the user's class name with
      the `.html.twig` suffix otherwise. */
  function LoadTemplate(r: TwigRenderer, ro: Resource): (res: Result<Template, LoaderError>)
    ensures ro.runtimeClass.Plain? && r.twig.loader.FilesystemLoader? ==>
      res == r.twig.load(r.templateFinder(ro.runtimeClass.cls.file))
    ensures ro.runtimeClass.Plain? && r.twig.loader.OtherLoader? ==>
      res == r.twig.load(ro.runtimeClass.cls.name + ".html.twig")
    ensures ro.runtimeClass.Weaved? && r.twig.loader.FilesystemLoader? ==>
      res == r.twig.load(r.templateFinder(ro.runtimeClass.parent.file))
    ensures ro.runtimeClass.Weaved? && r.twig.loader.OtherLoader? ==>
      res == r.twig.load(ro.runtimeClass.parent.name + ".html.twig")
  {
    r.twig.load(TemplateId(r, ro))
  }

  /** A loader error becomes `TemplateNotFound` (code 500) for status 200
      and an absent template for every other status. */
  function Load(r: TwigRenderer, ro: Resource): (res: Result<Option<Template>, TemplateNotFound>)
    ensures res.Failure? <==> LoadTemplate(r, ro).Failure? && ro.code == 200
    ensures res.Failure? ==>
      res.error == TemplateNotFound(LoadTemplate(r, ro).error.message, 500)
    ensures res.Success? && res.value.Some? <==> LoadTemplate(r, ro).Success?
    ensures res.Success? && res.value.Some? ==> res.value.value == LoadTemplate(r, ro).value
  {
    match LoadTemplate(r, ro)
    case Success(t) => Success(Some(t))
    case Failure(e) =>
      if ro.code == OK then Failure(TemplateNotFound(e.message, 500))
      else Success(None)
  }

  /** The body entries of an array body; any other body contributes none. */
  function BodyEntries(ro: Resource): map<string, Value> {
    if ro.body.Arr? then ro.body.entries else map[]
  }

  /** The render context holds every body entry unchanged and `_ro`; `_ro`
      is the resource itself unless the body already defines it. */
  function BuildBody(ro: Resource): (ctx: Context)
    ensures ctx.Keys == BodyEntries(ro).Keys + {RO_KEY}
    ensures forall k :: k in BodyEntries(ro) ==> ctx[k] == Data(BodyEntries(ro)[k])
    ensures RO_KEY !in BodyEntries(ro) ==> ctx[RO_KEY] == Ro(ro)
    ensures !ro.body.Arr? ==> ctx == map[RO_KEY := Ro(ro)]
  {
    var body := map k | k in BodyEntries(ro) :: Data(BodyEntries(ro)[k]);
    PlusAssign(body, map[RO_KEY := Ro(ro)])
  }

  /** A body that defines `_ro` keeps its own value in the context. */
  lemma ExistingRoWins(ro: Resource, v: Value)
    requires ro.body == Arr(map[RO_KEY := v])
    ensures BuildBody(ro) == map[RO_KEY := Data(v)]
  {
    PlusAssignCovered(map[RO_KEY := Data(v)], map[RO_KEY := Ro(ro)]);
  }

  function RenderView(r: TwigRenderer, ro: Resource): (res: Result<string, TemplateNotFound>)
    ensures LoadTemplate(r, ro).Success? ==>
      res == Success(r.twig.render(LoadTemplate(r, ro).value, BuildBody(ro)))
    ensures LoadTemplate(r, ro).Failure? && ro.code != 200 ==> res == Success("")
    ensures LoadTemplate(r, ro).Failure? && ro.code == 200 ==>
      res == Failure(TemplateNotFound(LoadTemplate(r, ro).error.message, 500))
  {
    var template :- Load(r, ro);
    if template.Some? then Success(r.twig.render(template.value, BuildBody(ro))) else Success("")
  }

  /** Render a resource: the result is the resource with its content type
      defaulted and its view set, together with that view. */
  function Render(r: TwigRenderer, ro: Resource): (res: Result<(Resource, string), TemplateNotFound>)
    ensures res.Success? ==> res.value.0.view == Some(res.value.1)
    ensures res.Success? ==> res.value.0 == SetContentType(ro).(view := Some(res.value.1))
    ensures res.Failure? <==>
      Classify(ro) == Normal && ro.code == 200 && LoadTemplate(r, ro).Failure?
  {
    var ro1 := SetContentType(ro);
    var out :- match Classify(ro1)
      case NoContent => Success("")
      case Redirect => Success(RenderRedirectView(ro1))
      case Normal => RenderView(r, ro1);
    Success((ro1.(view := Some(out)), out))
  }

  /** After a successful render `content-type` is present: the default when
      it was missing, the caller's value otherwise, and every other header
      is as it was. */
  lemma RenderContentType(r: TwigRenderer, ro: Resource)
    requires Render(r, ro).Success?
    ensures var h := Render(r, ro).value.0.headers;
      && CONTENT_TYPE in h
      && (CONTENT_TYPE !in ro.headers ==> h[CONTENT_TYPE] == DEFAULT_CONTENT_TYPE)
      && h.Keys == ro.headers.Keys + {CONTENT_TYPE}
      && (forall k :: k in ro.headers ==> h[k] == ro.headers[k])
  {
  }

  /** A no-content resource renders to the empty view, whatever the
      template engine and finder are: the loader is never consulted. */
  lemma RenderNoContent(r: TwigRenderer, other: TwigRenderer, ro: Resource)
    requires ro.code == 204 || ro.view == Some("")
    ensures Render(r, ro) == Success((SetContentType(ro).(view := Some("")), ""))
    ensures Render(r, ro) == Render(other, ro)
  {
  }

  /** A redirect resource renders to the redirect page for its escaped
      location, whatever the template engine and finder are. */
  lemma RenderRedirect(r: TwigRenderer, other: TwigRenderer, ro: Resource)
    requires Classify(ro) == Redirect
    ensures LOCATION in ro.headers
    ensures var page := RedirectPage(Escape(ro.headers[LOCATION]));
      Render(r, ro) == Success((SetContentType(ro).(view := Some(page)), page))
    ensures Render(r, ro) == Render(other, ro)
  {
  }

  /** A normal resource whose template loads renders through it with the
      context built from its body. */
  lemma RenderNormal(r: TwigRenderer, ro: Resource, t: Template)
    requires Classify(ro) == Normal
    requires LoadTemplate(r, ro) == Success(t)
    ensures var out := r.twig.render(t, BuildBody(SetContentType(ro)));
      Render(r, ro) == Success((SetContentType(ro).(view := Some(out)), out))
  {
  }

  /** A normal resource without a template fails with `TemplateNotFound`
      when its status is 200 and renders to the empty view otherwise. */
  lemma RenderMissingTemplate(r: TwigRenderer, ro: Resource, e: LoaderError)
    requires Classify(ro) == Normal
    requires LoadTemplate(r, ro) == Failure(e)
    ensures ro.code == 200 ==> Render(r, ro) == Failure(TemplateNotFound(e.message, 500))
    ensures ro.code != 200 ==>
      Render(r, ro) == Success((SetContentType(ro).(view := Some("")), ""))
  {
  }
}
