/**
 * The themes service's web side: which handler a request path reaches, which
 * template file a page is rendered from, and the response each handler leaves
 * on the Fastify reply, including every early exit and error.
 *
 * Paths are sequences of segments, joined without normalisation. The file
 * system, the renderer's variables, the EJS compiler and the mime table are
 * inputs: a map from path to file text, a result, a function and a function.
 */
module Themes {
  import opened Wrappers

  /** A file-system path as its segments. */
  type Path = seq<string>

  // ---------------------------------------------------------------------------
  // Routes and layouts
  // ---------------------------------------------------------------------------

  /** The page layouts (`ThemeEnum`). */
  datatype Layout = Index | Archives | Category | Tag | Post | Page | Friends | Custom

  /** The layout's name, which is also its template's base name. */
  function LayoutName(l: Layout): string
  {
    match l
    case Index => "index"
    case Archives => "archives"
    case Category => "category"
    case Tag => "tag"
    case Post => "post"
    case Page => "page"
    case Friends => "friends"
    case Custom => "custom"
  }

  /** The handler a request reaches: a page rendered with a layout, a raw
      theme file named by the rest of the path, or the bare raw root. */
  datatype Handler = Rendered(layout: Layout) | RawAsset(file: string) | RawRoot

  /** A path under `/raw/`. */
  predicate IsRawPath(url: string)
  {
    "/raw/" <= url
  }

  /** The route declared for a fixed layout. */
  function RoutePath(l: Layout): (url: string)
    requires l != Custom
  {
    match l
    case Index => "/"
    case Archives => "/archives"
    case Category => "/category"
    case Tag => "/tag"
    case Post => "/post"
    case Page => "/page"
    case Friends => "/friends"
  }

  /** The router: `/raw`, the paths under `/raw/`, the fixed page routes, and
      every other path renders the custom layout. The three groups are disjoint,
      so the order in which they are tried does not matter. */
  function RouteOf(url: string): (h: Handler)
    requires |url| >= 1 && url[0] == '/'
    ensures h.RawAsset? <==> IsRawPath(url)
    ensures h.RawAsset? ==> url == "/raw/" + h.file
    ensures h == RawRoot <==> url == "/raw"
    ensures h.Rendered? && h.layout != Custom ==> url == RoutePath(h.layout)
    ensures h == Rendered(Custom) <==>
      url != "/raw" && !IsRawPath(url) && forall l :: l != Custom ==> url != RoutePath(l)
  {
    if url == "/raw" then RawRoot
    else if IsRawPath(url) then
      assert url == url[..5] + url[5..];
      RawAsset(url[5..])
    else if url == "/" then Rendered(Index)
    else if url == "/archives" then Rendered(Archives)
    else if url == "/category" then Rendered(Category)
    else if url == "/tag" then Rendered(Tag)
    else if url == "/post" then Rendered(Post)
    else if url == "/page" then Rendered(Page)
    else if url == "/friends" then Rendered(Friends)
    else Rendered(Custom)
  }

  /** Each fixed layout's route reaches that layout, and no other path does. */
  lemma RouteRoundTrip(l: Layout, url: string)
    requires l != Custom && |url| >= 1 && url[0] == '/'
    ensures RouteOf(RoutePath(l)) == Rendered(l)
    ensures RouteOf(url) == Rendered(l) ==> url == RoutePath(l)
  {
    var u := RoutePath(l);
    assert !IsRawPath(u) by {
      if |u| >= 5 {
        assert u[1] != "/raw/"[1];
      }
    }
  }

  // ---------------------------------------------------------------------------
  // Theme setting and template choice
  // ---------------------------------------------------------------------------

  /** The service's inner environment: text that does not parse as JSON, or an
      object with an optional `theme` field. */
  datatype InnerEnv = Unparsable(error: string) | Parsed(theme: Option<string>)

  /** The configured theme: `theme || undefined`, so an empty name is no theme. */
  function ConfiguredTheme(env: InnerEnv): (t: Option<string>)
    requires env.Parsed?
    ensures t.Some? <==> env.theme.Some? && env.theme.value != ""
    ensures t.Some? ==> t == env.theme
  {
    if env.theme.Some? && env.theme.value != "" then env.theme else None
  }

  /** `path.replace(/^\//, '')`: drops one leading slash, and only one. */
  function StripLeadingSlash(p: string): (q: string)
    ensures p == "/" + q <==> |p| >= 1 && p[0] == '/'
    ensures !(|p| >= 1 && p[0] == '/') ==> q == p
  {
    if |p| >= 1 && p[0] == '/' then
      assert p == "/" + p[1..];
      p[1..]
    else p
  }

  /** The custom page's candidate template: `<theme>/custom/page-<path>.ejs`. */
  function CustomTemplate(themeDir: Path, theme: string, requestPath: string): Path
  {
    themeDir + [theme, "custom", "page-" + StripLeadingSlash(requestPath) + ".ejs"]
  }

  /** A fixed layout's template: `<theme>/<layout>.ejs`. */
  function LayoutTemplate(themeDir: Path, theme: string, l: Layout): Path
  {
    themeDir + [theme, LayoutName(l) + ".ejs"]
  }

  /** The template path `_render` settles on, None when it stays unset: a
      custom page has one only when its file exists, a fixed layout always has
      the file named after it directly inside the theme. */
  function TemplatePath(themeDir: Path, theme: string, layout: Layout, requestPath: string,
                        files: map<Path, string>): (t: Option<Path>)
    ensures t.Some? ==> |t.value| >= |themeDir| + 2
    ensures layout == Custom ==> (t.Some? <==> CustomTemplate(themeDir, theme, requestPath) in files)
    ensures layout == Custom && t.Some? ==>
      && t.value[..|themeDir|] == themeDir
      && t.value[|themeDir|..] == [theme, "custom", "page-" + StripLeadingSlash(requestPath) + ".ejs"]
    ensures layout != Custom ==>
      && t.Some?
      && t.value[..|themeDir|] == themeDir
      && t.value[|themeDir|..] == [theme, LayoutName(layout) + ".ejs"]
    ensures t.Some? ==> (t.value[|themeDir| + 1] == "custom" <==> layout == Custom)
  {
    if layout == Custom then
      var custom := CustomTemplate(themeDir, theme, requestPath);
      if custom in files then Some(custom) else None
    else
      assert (LayoutName(layout) + ".ejs")[|LayoutName(layout)|] == '.';
      Some(LayoutTemplate(themeDir, theme, layout))
  }

  // ---------------------------------------------------------------------------
  // Responses and the reply object
  // ---------------------------------------------------------------------------

  /** Where an error message was produced: the three message prefixes. */
  datatype Stage = FetchingVariables | Rendering | ReadingFile

  /** What an error message reports after its prefix. */
  datatype Cause =
    | Message(text: string)  // the text of a thrown error or rejected promise
    | UnsetTemplate          // compiling the template that was never read
    | Unreadable(path: Path) // reading a file that is not there

  datatype Body =
    | Text(text: string)
    | ErrorJson(statusCode: int, stage: Stage, cause: Cause)

  /** What the client receives: status, the headers set explicitly, body. */
  datatype Response = Response(status: int, headers: map<string, string>, body: Body)

  /** Fastify's reply: the status and headers staged so far, and the response
      fixed by the first `send`; later sends and changes do not reach the client. */
  class Reply {
    var status: int
    var headers: map<string, string>
    var sent: Option<Response>

    constructor ()
      ensures status == 200 && headers == map[] && sent == None
    {
      status := 200;
      headers := map[];
      sent := None;
    }

    /** `reply.code(c)`. */
    method Code(c: int)
      modifies this
      ensures status == c && headers == old(headers) && sent == old(sent)
    {
      status := c;
    }

    /** `reply.header(name, value)`. */
    method Header(name: string, value: string)
      modifies this
      ensures headers == old(headers)[name := value] && status == old(status) && sent == old(sent)
    {
      headers := headers[name := value];
    }

    /** `reply.send(body)`: the first send fixes the response; any later one is dropped. */
    method Send(body: Body)
      modifies this
      ensures sent == if old(sent).None? then Some(Response(old(status), old(headers), body)) else old(sent)
      ensures status == old(status) && headers == old(headers)
    {
      if sent.None? {
        sent := Some(Response(status, headers, body));
      }
    }
  }

  const ThemeNotFound := "Theme not found."
  const ContentTypeHeader := "Content-Type"
  const HtmlType := "text/html; charset=utf-8"
  const RootForbidden := "Please don't access the root directory directly. Please use /raw/filename to access files."

  /** A JSON error response with status 500. */
  function Failed(stage: Stage, cause: Cause): Response
  {
    Response(500, map[], ErrorJson(500, stage, cause))
  }

  /** What the layout's variables provide: the request path, and the rest of
      the bindings handed to the template unchanged. */
  datatype Variables = Variables(path: string, bindings: map<string, string>)

  /** The EJS compiler applied to a template text, the theme root the template
      includes from, and the variables: the HTML or the error it throws. */
  type Renderer = (string, Path, Variables) -> Result<string, string>

  /** The template text the page is compiled from, or what goes wrong in getting it. */
  function TemplateText(themeDir: Path, theme: string, layout: Layout, requestPath: string,
                        files: map<Path, string>): Result<string, Cause>
  {
    match TemplatePath(themeDir, theme, layout, requestPath, files)
    case None => Err(UnsetTemplate)
    case Some(p) => if p in files then Ok(files[p]) else Err(Unreadable(p))
  }

  /** The response of `_render`. Without a theme it is a 500 "Theme not found."
      whatever the variables and files; every failure is a 500 without the HTML
      content type; a 200 carries exactly the renderer's output for the chosen
      template, and happens only when every step succeeded. */
  function RenderResponse(themeDir: Path, env: InnerEnv, layout: Layout,
                          vars: Result<Variables, string>, files: map<Path, string>,
                          renderer: Renderer): (r: Response)
    ensures r.status == 200 || r.status == 500
    ensures r.status == 500 ==> r.headers == map[]
    ensures env.Unparsable? ==> r == Failed(Rendering, Message(env.error))
    ensures env.Parsed? && ConfiguredTheme(env).None? ==> r == Response(500, map[], Text(ThemeNotFound))
    ensures env.Parsed? && ConfiguredTheme(env).Some? && vars.Err? ==>
      r == Failed(FetchingVariables, Message(vars.error))
    ensures r.status == 200 <==>
      && env.Parsed? && ConfiguredTheme(env).Some? && vars.Ok?
      && TemplateText(themeDir, ConfiguredTheme(env).value, layout, vars.value.path, files).Ok?
      && renderer(TemplateText(themeDir, ConfiguredTheme(env).value, layout, vars.value.path, files).value,
                  themeDir + [ConfiguredTheme(env).value], vars.value).Ok?
    ensures r.status == 200 ==>
      && r.headers == map[ContentTypeHeader := HtmlType]
      && r.body == Text(renderer(TemplateText(themeDir, ConfiguredTheme(env).value, layout, vars.value.path, files).value,
                                 themeDir + [ConfiguredTheme(env).value], vars.value).value)
  {
    match env
    case Unparsable(e) => Failed(Rendering, Message(e))
    case Parsed(_) =>
      match ConfiguredTheme(env)
      case None => Response(500, map[], Text(ThemeNotFound))
      case Some(theme) =>
        match vars
        case Err(e) => Failed(FetchingVariables, Message(e))
        case Ok(v) =>
          match TemplateText(themeDir, theme, layout, v.path, files)
          case Err(c) => Failed(Rendering, c)
          case Ok(text) =>
            match renderer(text, themeDir + [theme], v)
            case Err(e) => Failed(Rendering, Message(e))
            case Ok(html) => Response(200, map[ContentTypeHeader := HtmlType], Text(html))
  }

  /** `_render`: the steps of the handler on a fresh reply. Every exception in
      the try block lands in `failure`, which the catch sends as a 500; the
      variables error sends its own 500 first, so the catch's send is dropped. */
  method Render(reply: Reply, themeDir: Path, env: InnerEnv, layout: Layout,
                vars: Result<Variables, string>, files: map<Path, string>, renderer: Renderer)
    requires reply.sent == None && reply.status == 200 && reply.headers == map[]
    modifies reply
    ensures reply.sent == Some(RenderResponse(themeDir, env, layout, vars, files, renderer))
  {
    var failure: Option<Cause> := None;
    if env.Unparsable? {
      failure := Some(Message(env.error));
    } else {
      var theme := ConfiguredTheme(env);
      if theme.None? {
        reply.Code(500);
        reply.Send(Text(ThemeNotFound));
        return;
      }
      if vars.Err? {
        reply.Code(500);
        reply.Send(ErrorJson(500, FetchingVariables, Message(vars.error)));
        failure := Some(Message("Internal Server Error"));
      } else {
        var themeFile: Option<string> := None;
        if layout == Custom {
          var customPath := CustomTemplate(themeDir, theme.value, vars.value.path);
          if customPath in files {
            themeFile := Some(files[customPath]);
          }
        } else {
          var themePath := LayoutTemplate(themeDir, theme.value, layout);
          if themePath in files {
            themeFile := Some(files[themePath]);
          } else {
            failure := Some(Unreadable(themePath));
          }
        }
        if failure.None? {
          if themeFile.None? {
            failure := Some(UnsetTemplate);
          } else {
            var html := renderer(themeFile.value, themeDir + [theme.value], vars.value);
            if html.Err? {
              failure := Some(Message(html.error));
            } else {
              reply.Header(ContentTypeHeader, HtmlType);
              reply.Send(Text(html.value));
            }
          }
        }
      }
    }
    if failure.Some? {
      reply.Code(500);
      reply.Send(ErrorJson(500, Rendering, failure.value));
    }
  }

  // ---------------------------------------------------------------------------
  // Raw theme files
  // ---------------------------------------------------------------------------

  /** An exception that leaves a handler for the framework to answer. */
  datatype Exception = Forbidden(message: string) | InternalServerError

  /** A handler either answers on the reply or raises. */
  datatype Outcome = Replied(response: Response) | Raised(exception: Exception)

  /** The content type of a raw file: its mime type, or plain text when none is
      known, always in UTF-8. */
  function ContentType(mimeType: Option<string>): (ct: string)
    ensures exists t :: ct == t + "; charset=utf-8" && t != ""
    ensures mimeType.Some? && mimeType.value != "" ==> ct == mimeType.value + "; charset=utf-8"
    ensures mimeType.None? || mimeType == Some("") ==> ct == "text/plain; charset=utf-8"
  {
    var t := if mimeType.Some? && mimeType.value != "" then mimeType.value else "text/plain";
    t + "; charset=utf-8"
  }

  /** The outcome of `assets`. An empty file name is refused before the theme
      is looked up; a malformed environment escapes the handler; without a
      theme it is a 500 "Theme not found."; a missing file is a 500 read error;
      otherwise the file's text with its content type. */
  function AssetsOutcome(themeDir: Path, file: string, env: InnerEnv, files: map<Path, string>,
                         mimeOf: Path -> Option<string>): (o: Outcome)
    ensures file == "" ==> o == Raised(Forbidden(RootForbidden))
    ensures file != "" && env.Unparsable? ==> o == Raised(InternalServerError)
    ensures file != "" && env.Parsed? && ConfiguredTheme(env).None? ==>
      o == Replied(Response(500, map[], Text(ThemeNotFound)))
    ensures file != "" && env.Parsed? && ConfiguredTheme(env).Some? ==>
      var p := themeDir + [ConfiguredTheme(env).value, file];
      && (p !in files ==> o == Replied(Failed(ReadingFile, Unreadable(p))))
      && (p in files ==>
            o == Replied(Response(200, map[ContentTypeHeader := ContentType(mimeOf(p))], Text(files[p]))))
    ensures o.Replied? ==> o.response.status == 200 || o.response.status == 500
  {
    if file == "" then Raised(Forbidden(RootForbidden))
    else match env
      case Unparsable(_) => Raised(InternalServerError)
      case Parsed(_) =>
        match ConfiguredTheme(env)
        case None => Replied(Response(500, map[], Text(ThemeNotFound)))
        case Some(theme) =>
          var p := themeDir + [theme, file];
          if p in files then Replied(Response(200, map[ContentTypeHeader := ContentType(mimeOf(p))], Text(files[p])))
          else Replied(Failed(ReadingFile, Unreadable(p)))
  }

  /** `assets`: the steps of the handler on a fresh reply. A failed read sends
      its 500 first; the header and the empty send that follow are dropped. */
  method Assets(reply: Reply, themeDir: Path, file: string, env: InnerEnv, files: map<Path, string>,
                mimeOf: Path -> Option<string>) returns (raised: Option<Exception>)
    requires reply.sent == None && reply.status == 200 && reply.headers == map[]
    modifies reply
    ensures AssetsOutcome(themeDir, file, env, files, mimeOf).Raised? ==>
      raised == Some(AssetsOutcome(themeDir, file, env, files, mimeOf).exception) && reply.sent == None
    ensures AssetsOutcome(themeDir, file, env, files, mimeOf).Replied? ==>
      raised == None && reply.sent == Some(AssetsOutcome(themeDir, file, env, files, mimeOf).response)
  {
    if file == "" {
      return Some(Forbidden(RootForbidden));
    }
    if env.Unparsable? {
      return Some(InternalServerError);
    }
    var theme := ConfiguredTheme(env);
    if theme.None? {
      reply.Code(500);
      reply.Send(Text(ThemeNotFound));
      return None;
    }
    var themePath := themeDir + [theme.value, file];
    var themeFile: string;
    if themePath in files {
      themeFile := files[themePath];
    } else {
      reply.Code(500);
      reply.Send(ErrorJson(500, ReadingFile, Unreadable(themePath)));
      themeFile := "";
    }
    reply.Header(ContentTypeHeader, ContentType(mimeOf(themePath)));
    reply.Send(Text(themeFile));
    raised := None;
  }

  // ---------------------------------------------------------------------------
  // A request from router to response
  // ---------------------------------------------------------------------------

  /** The outcome of a request for `url`, given the variables its layout would
      fetch. `/raw` and `/raw/` are refused whatever the configuration, before
      any theme lookup; with a parsable environment and no theme every other
      path answers 500 "Theme not found."; a successful answer outside `/raw/`
      is an HTML page. */
  function Respond(themeDir: Path, url: string, env: InnerEnv, vars: Result<Variables, string>,
                   files: map<Path, string>, renderer: Renderer,
                   mimeOf: Path -> Option<string>): (o: Outcome)
    requires |url| >= 1 && url[0] == '/'
    ensures url == "/raw" || url == "/raw/" ==> o == Raised(Forbidden(RootForbidden))
    ensures env.Parsed? && ConfiguredTheme(env).None? && url != "/raw" && url != "/raw/" ==>
      o == Replied(Response(500, map[], Text(ThemeNotFound)))
    ensures o.Replied? && o.response.status == 200 && !IsRawPath(url) ==>
      o.response.headers == map[ContentTypeHeader := HtmlType]
  {
    match RouteOf(url)
    case RawRoot => Raised(Forbidden(RootForbidden))
    case RawAsset(file) => AssetsOutcome(themeDir, file, env, files, mimeOf)
    case Rendered(layout) =>
      Replied(RenderResponse(themeDir, env, layout, vars, files, renderer))
  }
}
