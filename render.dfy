/** pkg/web/render/render.go and pkg/web/render/html.go: the HTML renderer. It holds the
    templates parsed from a file system (reloaded on every page in debug mode), checks the
    status code against a fixed list, renders into a buffer first and sends either the page
    with the requested status or an error page with 500.
    The walk of the file system, the template parser and the template engine are inputs: the
    walk is the sequence of entries fs.WalkDir visits, and parsing and execution are functions
    that give an error text or the rendered page. */
module Render {
  import opened Base
  import opened Text
  import opened Http

  const HdrHtml: string := "text/html"
  const NoSniff: string := "nosniff"
  const NoStore: string := "no-store"
  const NoCache: string := "no-cache"

  /** The texts of the renderer's errors and of its 500 page. */
  const TemplateSuffix: string := ".gohtml"
  const ParseFailed: string := "failed to parse "
  const Cause: string := ", cause: "
  const LoadFailed: string := "load templates failed, cause: "
  const NoTemplates: string := "no html templates are defined"
  const NotRegistered: string := " is not a registered response statusCode"
  const InternalServerError: string := "Internal Server Error"
  const ErrorTemplate: string := "500.gohtml"
  const TitleKey: string := "title"
  const ErrorKey: string := "error"

  // ---------------------------------------------------------------------------------------
  // Status codes and headers

  /** allowedResponseCodes: 200, 400, 401, 404, 405, 409, 412, 413, 429 and 500. */
  const AllowedCodes: set<int> := {200, 400, 401, 404, 405, 409, 412, 413, 429, 500}

  predicate AllowedResponseCode(code: int) {
    code in AllowedCodes
  }

  /** The list holds the status of every page HtmlStatus can fall back to, and not 204. */
  lemma AllowedCodesFacts()
    ensures AllowedResponseCode(200) && AllowedResponseCode(500)
    ensures !AllowedResponseCode(204) && !AllowedResponseCode(503)
    ensures |AllowedCodes| == 10
  {
  }

  /** The header after writeResponseContentType. */
  function ContentTyped(h: Head, value: string): Head {
    h.(fields := h.fields[HdrContentType := value][HdrContentTypeOptions := NoSniff])
  }

  /** The header after writeNoCacheResponseContentType. */
  function NoCacheTyped(h: Head, value: string): Head {
    var t := ContentTyped(h, value);
    t.(fields := t.fields[HdrCacheControl := NoStore][HdrPragma := NoCache])
  }

  /** The two setters touch the named fields and nothing else of the header. */
  lemma SettersTouchOnly(h: Head, value: string)
    ensures ContentTyped(h, value).cookies == h.cookies && NoCacheTyped(h, value).cookies == h.cookies
    ensures ContentTyped(h, value).fields.Keys == h.fields.Keys + {HdrContentType, HdrContentTypeOptions}
    ensures NoCacheTyped(h, value).fields.Keys
      == h.fields.Keys + {HdrContentType, HdrContentTypeOptions, HdrCacheControl, HdrPragma}
    ensures forall k :: k in h.fields && k !in {HdrContentType, HdrContentTypeOptions, HdrCacheControl, HdrPragma} ==>
                NoCacheTyped(h, value).fields[k] == h.fields[k]
  {
  }

  /** writeResponseContentType. */
  method WriteResponseContentType(w: Response, value: string)
    modifies w
    ensures w.header == ContentTyped(old(w.header), value)
    ensures w.sent == old(w.sent) && w.status == old(w.status) && w.body == old(w.body)
    ensures w.flushes == old(w.flushes) && w.writes == old(w.writes)
  {
    w.SetHeader(HdrContentType, value);
    w.SetHeader(HdrContentTypeOptions, NoSniff);
  }

  /** writeNoCacheResponseContentType. */
  method WriteNoCacheResponseContentType(w: Response, value: string)
    modifies w
    ensures w.header == NoCacheTyped(old(w.header), value)
    ensures w.sent == old(w.sent) && w.status == old(w.status) && w.body == old(w.body)
    ensures w.flushes == old(w.flushes) && w.writes == old(w.writes)
  {
    WriteResponseContentType(w, value);
    w.SetHeader(HdrCacheControl, NoStore);
    w.SetHeader(HdrPragma, NoCache);
  }

  // ---------------------------------------------------------------------------------------
  // Loading templates

  /** One visit of fs.WalkDir: the path, the entry's name, whether it is a directory, and the
      error the walk hands to the callback for it, if any. */
  datatype Entry = Entry(path: string, name: string, isDir: bool, err: Option<string>)

  /** The template parser and engine: parse gives the error of ParseFS for a path, if any;
      execute runs the named template of a set of parsed files on the data. */
  datatype Engine = Engine(
    parse: string -> Option<string>,
    execute: (seq<string>, string, map<string, string>) -> Result<string, string>)

  /** A file the callback parses: not a directory, and its name ends in ".gohtml". */
  predicate IsTemplateFile(e: Entry) {
    !e.isDir && HasSuffix(e.name, TemplateSuffix)
  }

  /** A visit that stops the walk: an error from the walk, or a template file that fails to
      parse. */
  predicate Stops(e: Entry, g: Engine) {
    e.err.Some? || (IsTemplateFile(e) && g.parse(e.path).Some?)
  }

  /** The paths of the template files among the entries, in walk order. */
  function TemplateFiles(entries: seq<Entry>): seq<string> {
    if entries == [] then []
    else (if IsTemplateFile(entries[0]) then [entries[0].path] else []) + TemplateFiles(entries[1..])
  }

  /** The error text the callback returns for a visit that stops the walk. */
  function StopError(e: Entry, g: Engine, quote: string -> string): string
    requires Stops(e, g)
  {
    if e.err.Some? then e.err.value
    else ParseFailed + quote(e.path) + Cause + g.parse(e.path).value
  }

  /** Visit i is the first that stops the walk. */
  predicate FirstStop(entries: seq<Entry>, g: Engine, i: int) {
    0 <= i < |entries| && Stops(entries[i], g) && forall j :: 0 <= j < i ==> !Stops(entries[j], g)
  }

  /** loadTemplates: the walk succeeds exactly when no visit stops it, and then every template
      file has been parsed, in walk order, and nothing else; otherwise it fails with the
      error of the first visit that stops it. */
  function LoadFiles(entries: seq<Entry>, g: Engine, quote: string -> string): (r: Result<seq<string>, string>)
    ensures r.Success? <==> forall i :: 0 <= i < |entries| ==> !Stops(entries[i], g)
    ensures r.Success? ==> r.value == TemplateFiles(entries)
    ensures r.Failure? ==> exists i :: FirstStop(entries, g, i) && r.error == StopError(entries[i], g, quote)
  {
    if entries == [] then Success([])
    else
      var e := entries[0];
      var rest := LoadFiles(entries[1..], g, quote);
      if Stops(e, g) then Failure(StopError(e, g, quote))
      else
        assert forall i :: 1 <= i < |entries| ==> entries[i] == entries[1..][i - 1];
        if rest.Failure? then
          var i :| FirstStop(entries[1..], g, i) && rest.error == StopError(entries[1..][i], g, quote);
          assert FirstStop(entries, g, i + 1);
          rest
        else Success((if IsTemplateFile(e) then [e.path] else []) + rest.value)
  }

  /** What LoadTemplates leaves: its error, and the templates afterwards. */
  datatype Reloaded = Reloaded(err: Option<string>, templates: Option<seq<string>>)

  /** LoadTemplates, given the file system (None for nil) and the current templates. */
  function Reload(fileSystem: Option<seq<Entry>>, current: Option<seq<string>>, g: Engine,
                  quote: string -> string): (r: Reloaded)
    ensures fileSystem.None? ==> r == Reloaded(None, current)
    ensures r.err.Some? ==> r.templates == current
    ensures fileSystem.Some? && r.err.None? ==> r.templates == Some(TemplateFiles(fileSystem.value))
  {
    if fileSystem.None? then Reloaded(None, current)
    else
      var loaded := LoadFiles(fileSystem.value, g, quote);
      if loaded.Failure? then Reloaded(Some(LoadFailed + loaded.error), current)
      else Reloaded(None, Some(loaded.value))
  }

  /** executeHTMLTemplate: fails without templates, else runs the engine. */
  function Execute(templates: Option<seq<string>>, name: string, data: map<string, string>, g: Engine)
    : (r: Result<string, string>)
    ensures templates.None? ==> r == Failure(NoTemplates)
    ensures templates.Some? ==> r == g.execute(templates.value, name, data)
  {
    if templates.None? then Failure(NoTemplates)
    else g.execute(templates.value, name, data)
  }

  // ---------------------------------------------------------------------------------------
  // Pages

  /** html.EscapeString: &, ', <, > and " replaced by their character references. */
  function EscapeChar(c: char): string {
    if c == '&' then "&amp;"
    else if c == '\'' then "&#39;"
    else if c == '<' then "&lt;"
    else if c == '>' then "&gt;"
    else if c == '"' then "&#34;"
    else [c]
  }

  predicate Unsafe(c: char) {
    c == '&' || c == '\'' || c == '<' || c == '>' || c == '"'
  }

  function HtmlEscape(s: string): string {
    if s == [] then [] else EscapeChar(s[0]) + HtmlEscape(s[1..])
  }

  /** The escaped text holds none of the characters that open or close markup or quote an
      attribute value. */
  lemma {:induction false} EscapedSafe(s: string)
    ensures var r := HtmlEscape(s);
      '<' !in r && '>' !in r && '"' !in r && '\'' !in r
  {
    if s != [] {
      EscapedSafe(s[1..]);
      EscapeCharSafe(s[0]);
      var e, t := EscapeChar(s[0]), HtmlEscape(s[1..]);
      assert HtmlEscape(s) == e + t;
      assert forall x :: x in e + t ==> x in e || x in t;
    }
  }

  /** One escaped character holds none of the four either. */
  lemma EscapeCharSafe(c: char)
    ensures var e := EscapeChar(c);
      '<' !in e && '>' !in e && '"' !in e && '\'' !in e
  {
  }

  /** A text without any of the five characters is its own escape. */
  lemma {:induction false} EscapeIdentity(s: string)
    requires forall i :: 0 <= i < |s| ==> !Unsafe(s[i])
    ensures HtmlEscape(s) == s
  {
    if s != [] {
      assert !Unsafe(s[0]);
      assert forall i :: 0 <= i < |s[1..]| ==> !Unsafe(s[1..][i]) by {
        forall i | 0 <= i < |s[1..]| ensures !Unsafe(s[1..][i]) {
          assert s[1..][i] == s[i + 1];
        }
      }
      EscapeIdentity(s[1..]);
      assert s == [s[0]] + s[1..];
    }
  }

  /** htmlErrTmpl around its one %s. */
  const ErrorHead: string :=
    "\n<html>\n  <head>\n    <title>Internal server error</title>\n  </head>\n  <body>\n"
    + "    <h1>Internal server error</h1>\n    <p style=\"font-family:monospace\">"
  const ErrorTail: string := "</p>\n  </body>\n</html>\n"

  function ErrorPage(msg: string): string {
    ErrorHead + msg + ErrorTail
  }

  const GenericError: string := "An internal error occurred."

  datatype Page = Page(status: int, body: string)

  /** The page HtmlStatus sends for a status code, given the debug flag, the error of the
      reload done in debug mode, and the result of rendering the template. */
  function Outcome(code: int, debug: bool, reloadErr: Option<string>, rendered: Result<string, string>): Page {
    if !AllowedResponseCode(code) then
      Page(500, ErrorPage(Itoa(code) + NotRegistered))
    else if debug && reloadErr.Some? then Page(500, ErrorPage(HtmlEscape(reloadErr.value)))
    else if rendered.Failure? then
      Page(500, ErrorPage(HtmlEscape(if debug then rendered.error else GenericError)))
    else Page(code, rendered.value)
  }

  /** The generic message has nothing to escape. */
  lemma GenericErrorSafe()
    ensures HtmlEscape(GenericError) == GenericError
  {
    assert forall i :: 0 <= i < |GenericError| ==> !Unsafe(GenericError[i]);
    EscapeIdentity(GenericError);
  }

  /** Whatever happens, the status sent is on the list: the code asked for, or 500. */
  lemma OutcomeAllowed(code: int, debug: bool, reloadErr: Option<string>, rendered: Result<string, string>)
    ensures var p := Outcome(code, debug, reloadErr, rendered);
      AllowedResponseCode(p.status) && (p.status == code || p.status == 500)
  {
  }

  /** An unregistered code gives 500 with a message naming it, whatever the reload and the
      template would give. */
  lemma UnregisteredIgnoresTemplate(code: int, debug: bool, reloadErr: Option<string>,
                                    rendered: Result<string, string>, rendered': Result<string, string>)
    requires !AllowedResponseCode(code)
    ensures Outcome(code, debug, reloadErr, rendered) == Outcome(code, debug, None, rendered')
      == Page(500, ErrorPage(Itoa(code) + NotRegistered))
  {
  }

  /** The page asked for is sent exactly when the code is registered, no debug reload failed
      and rendering worked; outside debug mode a failed rendering shows only the generic
      message. */
  lemma RenderedIff(code: int, debug: bool, reloadErr: Option<string>, rendered: Result<string, string>)
    requires code != 500
    ensures Outcome(code, debug, reloadErr, rendered).status == code <==>
      AllowedResponseCode(code) && !(debug && reloadErr.Some?) && rendered.Success?
    ensures AllowedResponseCode(code) && !(debug && reloadErr.Some?) && rendered.Success? ==>
      Outcome(code, debug, reloadErr, rendered) == Page(code, rendered.value)
    ensures AllowedResponseCode(code) && !debug && rendered.Failure? ==>
      Outcome(code, debug, reloadErr, rendered) == Page(500, ErrorPage(GenericError))
  {
    GenericErrorSafe();
  }

  /** An error text shown in an error page cannot open or close markup. */
  lemma ErrorTextEscaped(code: int, reloadErr: Option<string>, rendered: Result<string, string>)
    requires AllowedResponseCode(code)
    ensures var p := Outcome(code, true, reloadErr, rendered);
      reloadErr.Some? ==> p == Page(500, ErrorPage(HtmlEscape(reloadErr.value)))
    ensures var p := Outcome(code, true, reloadErr, rendered);
      reloadErr.None? && rendered.Failure? ==> p == Page(500, ErrorPage(HtmlEscape(rendered.error)))
    ensures forall s :: '<' !in HtmlEscape(s) && '>' !in HtmlEscape(s)
  {
    forall s ensures '<' !in HtmlEscape(s) && '>' !in HtmlEscape(s) {
      EscapedSafe(s);
    }
  }

  // ---------------------------------------------------------------------------------------
  // The renderer state

  class Renderer {
    var templates: Option<seq<string>>
    var fileSystem: Option<seq<Entry>>
    var isDebug: bool
    const engine: Engine
    const quote: string -> string

    constructor (engine: Engine, quote: string -> string)
      ensures templates.None? && fileSystem.None? && !isDebug
      ensures this.engine == engine && this.quote == quote
    {
      templates := None;
      fileSystem := None;
      isDebug := false;
      this.engine := engine;
      this.quote := quote;
    }

    /** SetDebug. */
    method SetDebug(v: bool)
      modifies this
      ensures isDebug == v && templates == old(templates) && fileSystem == old(fileSystem)
    {
      isDebug := v;
    }

    /** SetFileSystem. */
    method SetFileSystem(fsys: Option<seq<Entry>>)
      modifies this
      ensures fileSystem == fsys && templates == old(templates) && isDebug == old(isDebug)
    {
      fileSystem := fsys;
    }

    /** LoadTemplates: nothing without a file system; a failed walk is reported, wrapped, and
        keeps the templates; a successful one replaces them. */
    method LoadTemplates() returns (err: Option<string>)
      modifies this
      ensures var r := Reload(old(fileSystem), old(templates), engine, quote);
        err == r.err && templates == r.templates
      ensures fileSystem == old(fileSystem) && isDebug == old(isDebug)
    {
      if fileSystem.None? {
        return None;
      }
      var loaded := LoadFiles(fileSystem.value, engine, quote);
      if loaded.Failure? {
        return Some(LoadFailed + loaded.error);
      }
      templates := Some(loaded.value);
      return None;
    }

    /** The templates after HtmlStatus for a code: reloaded in debug mode when the code is on
        the list, else as they are. */
    function TemplatesFor(statusCode: int): Option<seq<string>>
      reads this
    {
      if AllowedResponseCode(statusCode) && isDebug then Reload(fileSystem, templates, engine, quote).templates
      else templates
    }

    /** The page HtmlStatus sends for a code, a template and data in the current state. */
    function PageFor(statusCode: int, tmpl: string, data: map<string, string>): Page
      reads this
    {
      var reloadErr :=
        if AllowedResponseCode(statusCode) && isDebug then Reload(fileSystem, templates, engine, quote).err
        else None;
      Outcome(statusCode, isDebug, reloadErr, Execute(TemplatesFor(statusCode), tmpl, data, engine))
    }

    /** The checks, the debug reload and the rendering into the buffer, before anything is
        sent. */
    method Prepare(statusCode: int, tmpl: string, data: map<string, string>) returns (page: Page)
      modifies this
      ensures page == old(PageFor(statusCode, tmpl, data))
      ensures templates == old(TemplatesFor(statusCode))
      ensures fileSystem == old(fileSystem) && isDebug == old(isDebug)
    {
      if !AllowedResponseCode(statusCode) {
        return Page(500, ErrorPage(Itoa(statusCode) + NotRegistered));
      }
      if isDebug {
        var err := LoadTemplates();
        if err.Some? {
          return Page(500, ErrorPage(HtmlEscape(err.value)));
        }
      }
      var rendered := Execute(templates, tmpl, data, engine);
      if rendered.Failure? {
        var msg := GenericError;
        if isDebug {
          msg := rendered.error;
        }
        return Page(500, ErrorPage(HtmlEscape(msg)));
      }
      return Page(statusCode, rendered.value);
    }

    /** Sending a page: the status, then the body in one write (an empty buffer is not
        written). */
    static method Send(w: Response, page: Page)
      requires w.Valid()
      modifies w
      ensures w.Valid()
      ensures w.status == (if old(w.status).None? then Some(page.status) else old(w.status))
      ensures w.sent == (if old(w.status).None? then Some(old(w.header)) else old(w.sent))
      ensures w.body == old(w.body) + (if old(w.Accepts()) then page.body else [])
      ensures w.writes == old(w.writes) + (if page.body == [] then 0 else 1)
      ensures w.header == old(w.header) && w.flushes == old(w.flushes)
    {
      w.WriteHeader(page.status);
      if page.body != [] {
        var _, _ := w.Write(page.body);
      }
    }

    /** HtmlStatus: sets text/html and nosniff, then sends the page of PageFor: its status
        once (a status already sent stays), then its body. */
    method HtmlStatus(w: Response, statusCode: int, tmpl: string, data: map<string, string>)
      requires w.Valid()
      modifies w, this
      ensures w.Valid()
      ensures var page := old(PageFor(statusCode, tmpl, data));
        && w.status == (if old(w.status).None? then Some(page.status) else old(w.status))
        && w.body == old(w.body) + (if old(w.Accepts()) then page.body else [])
        && w.writes == old(w.writes) + (if page.body == [] then 0 else 1)
      ensures templates == old(TemplatesFor(statusCode))
      ensures w.header == ContentTyped(old(w.header), HdrHtml)
      ensures w.sent == (if old(w.status).None? then Some(ContentTyped(old(w.header), HdrHtml)) else old(w.sent))
      ensures w.flushes == old(w.flushes)
      ensures fileSystem == old(fileSystem) && isDebug == old(isDebug)
    {
      WriteResponseContentType(w, HdrHtml);
      var page := Prepare(statusCode, tmpl, data);
      Send(w, page);
    }

    /** Html: HtmlStatus with 200. */
    method Html(w: Response, tmpl: string, data: map<string, string>)
      requires w.Valid()
      modifies w, this
      ensures w.Valid()
      ensures var page := old(PageFor(200, tmpl, data));
        && w.status == (if old(w.status).None? then Some(page.status) else old(w.status))
        && w.body == old(w.body) + (if old(w.Accepts()) then page.body else [])
      ensures templates == old(TemplatesFor(200))
      ensures w.header == ContentTyped(old(w.header), HdrHtml) && w.flushes == old(w.flushes)
      ensures fileSystem == old(fileSystem) && isDebug == old(isDebug)
    {
      HtmlStatus(w, 200, tmpl, data);
    }

    /** Html500: the 500 template with the status text as title and, in debug mode only, the
        error itself; whatever happens the status sent is 500. */
    method Html500(w: Response, err: string)
      requires w.Valid()
      modifies w, this
      ensures w.Valid()
      ensures old(w.status).None? ==> w.status == Some(500)
      ensures templates == old(TemplatesFor(500))
      ensures w.header == ContentTyped(old(w.header), HdrHtml) && w.flushes == old(w.flushes)
      ensures var errStr := if old(isDebug) then err else InternalServerError;
        var page := old(PageFor(500, ErrorTemplate, map[TitleKey := InternalServerError, ErrorKey := errStr]));
        w.body == old(w.body) + (if old(w.Accepts()) then page.body else [])
    {
      var errStr := InternalServerError;
      if isDebug {
        errStr := err;
      }
      OutcomeAllowed(500, isDebug, if isDebug then Reload(fileSystem, templates, engine, quote).err else None,
        Execute(TemplatesFor(500), ErrorTemplate, map[TitleKey := InternalServerError, ErrorKey := errStr], engine));
      HtmlStatus(w, 500, ErrorTemplate, map[TitleKey := InternalServerError, ErrorKey := errStr]);
    }

    /** HtmlNoContent: the no-cache headers, then status 200 (not the 204 its comment names),
        and no body. */
    method HtmlNoContent(w: Response)
      requires w.Valid()
      modifies w
      ensures w.Valid()
      ensures w.header == NoCacheTyped(old(w.header), HdrHtml)
      ensures w.status == (if old(w.status).None? then Some(200) else old(w.status))
      ensures w.sent == (if old(w.status).None? then Some(NoCacheTyped(old(w.header), HdrHtml)) else old(w.sent))
      ensures w.body == old(w.body) && w.writes == old(w.writes) && w.flushes == old(w.flushes)
    {
      WriteNoCacheResponseContentType(w, HdrHtml);
      w.WriteHeader(200);
    }
  }
}
