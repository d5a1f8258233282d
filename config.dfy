/** internal/config/config.go: the configuration objects, their defaults, the selection of the
    log level and format, the validation of the OpenAI settings, and Setup, which configures
    logging and then installs the configuration as the process-wide default when it is valid. */
module Config {
  import opened Base
  import opened Text
  import opened OpenAI

  class AppConfig {
    var path: string
    var dir: string

    constructor (path: string, dir: string)
      ensures this.path == path && this.dir == dir
    {
      this.path := path;
      this.dir := dir;
    }
  }

  class LogConfig {
    var caller: bool
    var level: string
    var format: string

    constructor (caller: bool, level: string, format: string)
      ensures this.caller == caller && this.level == level && this.format == format
    {
      this.caller := caller;
      this.level := level;
      this.format := format;
    }
  }

  class HttpServerConfig {
    var port: Uint

    constructor ()
      ensures port == 0
    {
      port := 0;
    }
  }

  class OpenAIConfig {
    var apiType: string
    var apiKey: string
    var apiBaseUrl: string
    var proxy: string
    var model: string
    var system: string
    var stream: bool
    var maxTokens: Uint
    var history: Uint

    /** new(OpenAIConfig): every field at its zero value. */
    constructor ()
      ensures apiType == "" && apiKey == "" && apiBaseUrl == "" && proxy == ""
      ensures model == "" && system == "" && !stream && maxTokens == 0 && history == 0
    {
      apiType := "";
      apiKey := "";
      apiBaseUrl := "";
      proxy := "";
      model := "";
      system := "";
      stream := false;
      maxTokens := 0;
      history := 0;
    }
  }

  class Config {
    var app: AppConfig
    var log: LogConfig
    var httpServer: HttpServerConfig
    var openAI: OpenAIConfig

    constructor (app: AppConfig, log: LogConfig, httpServer: HttpServerConfig, openAI: OpenAIConfig)
      ensures this.app == app && this.log == log && this.httpServer == httpServer && this.openAI == openAI
    {
      this.app := app;
      this.log := log;
      this.httpServer := httpServer;
      this.openAI := openAI;
    }
  }

  /** New: the executable's path (project.ExecAppPath, an input here), the application
      directory given or else the directory of that path (filepath.Dir, also an input), logging
      without caller at level "info" in the "text" format, and zeroed server and OpenAI
      settings. */
  method New(appDirIn: string, execPath: string, dirOf: string -> string) returns (v: Config)
    ensures fresh(v) && fresh(v.app) && fresh(v.log) && fresh(v.httpServer) && fresh(v.openAI)
    ensures v.app.path == execPath
    ensures v.app.dir == (if appDirIn == "" then dirOf(execPath) else appDirIn)
    ensures !v.log.caller && v.log.level == "info" && v.log.format == "text"
    ensures v.httpServer.port == 0
    ensures v.openAI.apiType == "" && v.openAI.apiKey == "" && v.openAI.apiBaseUrl == ""
    ensures v.openAI.proxy == "" && v.openAI.model == "" && v.openAI.system == ""
    ensures !v.openAI.stream && v.openAI.maxTokens == 0 && v.openAI.history == 0
  {
    var app := new AppConfig(execPath, "");
    var log := new LogConfig(false, "info", "text");
    var server := new HttpServerConfig();
    var openAI := new OpenAIConfig();
    v := new Config(app, log, server, openAI);
    if appDirIn == "" {
      v.app.dir := dirOf(v.app.path);
    } else {
      v.app.dir := appDirIn;
    }
  }

  // ---------------------------------------------------------------------------------------
  // Logging

  datatype Level = Debug | Info | Warn | Error
  /** The handler behind the logger: slog's text or JSON handler, or the default handler slog
      starts with, which writes through the standard log package. */
  datatype Format = TextFormat | JsonFormat | DefaultOutput

  /** The installed slog logger: its level, its handler and whether it adds the source. */
  datatype Logger = Logger(level: Level, format: Format, addSource: bool)

  /** slog.Level.String() of the four levels. */
  function LevelName(l: Level): string {
    match l
    case Debug => "DEBUG"
    case Info => "INFO"
    case Warn => "WARN"
    case Error => "ERROR"
  }

  /** The named level the upper-cased setting spells, if any. */
  function ParseLevel(s: string): (r: Option<Level>)
    ensures r.Some? <==> ToUpper(s) in {"DEBUG", "INFO", "WARN", "ERROR"}
    ensures r.Some? ==> LevelName(r.value) == ToUpper(s)
  {
    var u := ToUpper(s);
    if u == "DEBUG" then Some(Debug)
    else if u == "INFO" then Some(Info)
    else if u == "WARN" then Some(Warn)
    else if u == "ERROR" then Some(Error)
    else None
  }

  /** The level setupLog installs: the named level, or INFO for anything else. */
  function LevelOf(s: string): Level {
    ParseLevel(s).GetOr(Info)
  }

  /** The handler setupLog installs: JSON only for (any case of) "json". */
  function FormatOf(s: string): (f: Format)
    ensures f == JsonFormat <==> ToUpper(s) == "JSON"
    ensures f != DefaultOutput
  {
    if ToUpper(s) == "JSON" then JsonFormat else TextFormat
  }

  /** Level names match in any mix of cases: each level is selected exactly by the spellings
      whose characters fold to its name. */
  lemma LevelCaseInsensitive(s: string, l: Level)
    ensures LevelOf(s) == l && ParseLevel(s).Some? <==>
      |s| == |LevelName(l)| && forall i :: 0 <= i < |s| ==> FoldsTo(s[i], LevelName(l)[i])
    ensures ParseLevel(s).None? ==> LevelOf(s) == Info
  {
    UpperMatches(s, LevelName(l));
    if ParseLevel(s).Some? {
      assert LevelName(ParseLevel(s).value) == ToUpper(s);
    }
  }

  function LevelWarning(level: string, quote: string -> string): string {
    "invalid log_level: " + quote(level) + ", use the default level: " + quote("INFO")
  }

  function FormatWarning(format: string, quote: string -> string): string {
    "invalid log_format: " + quote(format) + ", use the default format: " + quote("TEXT")
  }

  predicate ValidFormat(s: string) {
    ToUpper(s) == "TEXT" || ToUpper(s) == "JSON"
  }

  /** The warnings setupLog collects as the source writes them: the format warning is joined
      only onto an existing level warning. */
  function WarningsAsWritten(level: string, format: string, quote: string -> string): (ws: seq<string>)
    ensures ParseLevel(level).Some? ==> ws == []
  {
    if ParseLevel(level).None? then
      [LevelWarning(level, quote)] + (if !ValidFormat(format) then [FormatWarning(format, quote)] else [])
    else []
  }

  /** The warnings setupLog evidently means to collect: one for an unknown level and one for an
      unknown format, each independently of the other. */
  function Warnings(level: string, format: string, quote: string -> string): (ws: seq<string>)
    ensures |ws| == (if ParseLevel(level).None? then 1 else 0) + (if ValidFormat(format) then 0 else 1)
    ensures !ValidFormat(format) ==> ws[|ws| - 1] == FormatWarning(format, quote)
    ensures ParseLevel(level).None? ==> ws[0] == LevelWarning(level, quote)
  {
    (if ParseLevel(level).None? then [LevelWarning(level, quote)] else [])
    + (if !ValidFormat(format) then [FormatWarning(format, quote)] else [])
  }

  /** A valid level with an invalid format: the source logs no warning at all, although the
      format falls back to TEXT. */
  lemma FormatWarningLost(quote: string -> string)
    ensures FormatOf("xml") == TextFormat && LevelOf("info") == Info
    ensures WarningsAsWritten("info", "xml", quote) == []
    ensures Warnings("info", "xml", quote) == [FormatWarning("xml", quote)]
  {
    assert ToUpper("xml") == "XML";
    assert ToUpper("info") == "INFO";
  }

  /** The two agree whenever the level is invalid or the format is valid. */
  lemma WarningsAgree(level: string, format: string, quote: string -> string)
    requires ParseLevel(level).None? || ValidFormat(format)
    ensures WarningsAsWritten(level, format, quote) == Warnings(level, format, quote)
  {
  }

  /** errors.Join(...).Error(): the texts separated by newlines. */
  function JoinErrors(ws: seq<string>): string {
    if ws == [] then [] else if |ws| == 1 then ws[0] else JoinErrors(ws[..|ws| - 1]) + "\n" + ws[|ws| - 1]
  }

  /** The process-wide state config.go touches: the default Config (an atomic.Value), the
      default slog logger and the warnings written to it. */
  class Globals {
    var defaultConfig: Config
    var logger: Logger
    var logged: seq<string>

    /** init(): the default Config is New(""); the logger is slog's own default (INFO, no
        caller, its default output). */
    constructor (execPath: string, dirOf: string -> string)
      ensures fresh(defaultConfig) && defaultConfig.app.dir == dirOf(execPath)
      ensures defaultConfig.openAI.apiKey == "" && defaultConfig.openAI.apiType == ""
      ensures logger == Logger(Info, DefaultOutput, false) && logged == []
    {
      var v := New("", execPath, dirOf);
      defaultConfig := v;
      logger := Logger(Info, DefaultOutput, false);
      logged := [];
    }

    /** setupLog: upper-cases the level and the format, falls back to INFO and TEXT, installs
        the logger, and writes one warning (the joined errors) through it when there are any.
        As written, a format error is collected only onto a level error. */
    method SetupLog(v: LogConfig, quote: string -> string)
      modifies this
      ensures logger == Logger(LevelOf(v.level), FormatOf(v.format), v.caller)
      ensures var ws := WarningsAsWritten(v.level, v.format, quote);
        logged == old(logged) + (if ws == [] then [] else [JoinErrors(ws)])
      ensures defaultConfig == old(defaultConfig)
    {
      var errs: seq<string> := [];
      var lv := ToUpper(v.level);
      var level: Level;
      if lv == "DEBUG" {
        level := Debug;
      } else if lv == "INFO" {
        level := Info;
      } else if lv == "WARN" {
        level := Warn;
      } else if lv == "ERROR" {
        level := Error;
      } else {
        level := Info;
        errs := [LevelWarning(v.level, quote)];
      }
      var format: Format;
      var ft := ToUpper(v.format);
      if ft == "TEXT" {
        format := TextFormat;
      } else if ft == "JSON" {
        format := JsonFormat;
      } else {
        format := TextFormat;
        if errs != [] {
          errs := errs + [FormatWarning(v.format, quote)];
        }
      }
      logger := Logger(level, format, v.caller);
      if errs != [] {
        logged := logged + [JoinErrors(errs)];
      }
    }

    /** Setup: logging first, then the OpenAI checks; the Config becomes the default only when
        they pass. */
    method Setup(v: Config, f: Foreign) returns (err: Option<ConfigError>)
      modifies this, v.openAI
      ensures logger == Logger(LevelOf(v.log.level), FormatOf(v.log.format), v.log.caller)
      ensures var ws := WarningsAsWritten(v.log.level, v.log.format, f.quote);
        logged == old(logged) + (if ws == [] then [] else [JoinErrors(ws)])
      ensures err == CheckError(old(v.openAI.apiType), v.openAI.apiBaseUrl, v.openAI.proxy, f)
      ensures defaultConfig == (if err.None? then v else old(defaultConfig))
      ensures v.openAI.apiType == CheckedApiType(old(v.openAI.apiType))
      ensures v.openAI.apiKey == old(v.openAI.apiKey) && v.openAI.apiBaseUrl == old(v.openAI.apiBaseUrl)
      ensures v.openAI.proxy == old(v.openAI.proxy) && v.openAI.model == old(v.openAI.model)
      ensures v.openAI.system == old(v.openAI.system) && v.openAI.stream == old(v.openAI.stream)
      ensures v.openAI.maxTokens == old(v.openAI.maxTokens) && v.openAI.history == old(v.openAI.history)
    {
      SetupLog(v.log, f.quote);
      err := CheckOpenAIConfig(v.openAI, f);
      if err.Some? {
        return;
      }
      defaultConfig := v;
    }
  }

  // ---------------------------------------------------------------------------------------
  // OpenAI settings

  datatype ConfigError =
    | InvalidApiType(apiType: string)
    | InvalidBaseUrl(url: string, cause: string)
    | InvalidProxy(proxy: string, cause: string)

  function ConfigErrorText(e: ConfigError, quote: string -> string): string {
    match e
    case InvalidApiType(t) => "invalid openai_api_type: " + quote(t)
    case InvalidBaseUrl(u, c) => "invalid openai_api_base_url: " + quote(u) + ", cause: " + c
    case InvalidProxy(p, c) => "invalid openai_proxy: " + quote(p) + ", cause: " + c
  }

  /** The api types checkOpenAIConfig accepts once upper-cased. */
  predicate KnownApiType(t: string) {
    ToUpper(t) == APITypeOpenAI || ToUpper(t) == APITypeAzure || ToUpper(t) == APITypeAzureAD
  }

  /** The api type after the check: an empty one becomes OPEN_AI; any other is kept as written. */
  function CheckedApiType(t: string): (r: string)
    ensures t != "" ==> r == t
    ensures r != ""
  {
    if t == "" then APITypeOpenAI else t
  }

  /** checkOpenAIConfig's verdict: the first failing check in the order api type, base URL,
      proxy, where the URLs are only checked when set. */
  function CheckError(apiType: string, baseUrl: string, proxy: string, f: Foreign): (r: Option<ConfigError>)
    ensures r.None? <==>
      (apiType == "" || KnownApiType(apiType))
      && (baseUrl == "" || f.urlParse(baseUrl).Parsed?)
      && (proxy == "" || f.urlParse(proxy).Parsed?)
    ensures apiType != "" && !KnownApiType(apiType) ==> r == Some(InvalidApiType(apiType))
    ensures r.Some? && r.value.InvalidBaseUrl? ==>
      (apiType == "" || KnownApiType(apiType))
      && r.value.url == baseUrl && f.urlParse(baseUrl) == ParseFailed(r.value.cause)
    ensures r.Some? && r.value.InvalidProxy? ==>
      (apiType == "" || KnownApiType(apiType)) && (baseUrl == "" || f.urlParse(baseUrl).Parsed?)
      && r.value.proxy == proxy && f.urlParse(proxy) == ParseFailed(r.value.cause)
  {
    if apiType != "" && !KnownApiType(apiType) then Some(InvalidApiType(apiType))
    else if baseUrl != "" && f.urlParse(baseUrl).ParseFailed? then
      Some(InvalidBaseUrl(baseUrl, f.urlParse(baseUrl).cause))
    else if proxy != "" && f.urlParse(proxy).ParseFailed? then
      Some(InvalidProxy(proxy, f.urlParse(proxy).cause))
    else None
  }

  /** checkOpenAIConfig: fills in the default api type, then checks the settings; only the api
      type field is ever written. */
  method CheckOpenAIConfig(v: OpenAIConfig, f: Foreign) returns (err: Option<ConfigError>)
    modifies v
    ensures err == CheckError(old(v.apiType), v.apiBaseUrl, v.proxy, f)
    ensures v.apiType == (if old(v.apiType) == "" then APITypeOpenAI else old(v.apiType))
    ensures v.apiKey == old(v.apiKey) && v.apiBaseUrl == old(v.apiBaseUrl) && v.proxy == old(v.proxy)
    ensures v.model == old(v.model) && v.system == old(v.system) && v.stream == old(v.stream)
    ensures v.maxTokens == old(v.maxTokens) && v.history == old(v.history)
  {
    if v.apiType == "" {
      v.apiType := APITypeOpenAI;
    } else {
      var t := ToUpper(v.apiType);
      if !(t == APITypeOpenAI || t == APITypeAzure || t == APITypeAzureAD) {
        return Some(InvalidApiType(v.apiType));
      }
    }
    if v.apiBaseUrl != "" && f.urlParse(v.apiBaseUrl).ParseFailed? {
      return Some(InvalidBaseUrl(v.apiBaseUrl, f.urlParse(v.apiBaseUrl).cause));
    }
    if v.proxy != "" && f.urlParse(v.proxy).ParseFailed? {
      return Some(InvalidProxy(v.proxy, f.urlParse(v.proxy).cause));
    }
    return None;
  }

  /** A checked api type passes the check again unchanged: the check is idempotent. */
  lemma CheckIdempotent(apiType: string, baseUrl: string, proxy: string, f: Foreign)
    requires CheckError(apiType, baseUrl, proxy, f).None?
    ensures CheckError(CheckedApiType(apiType), baseUrl, proxy, f).None?
    ensures CheckedApiType(CheckedApiType(apiType)) == CheckedApiType(apiType)
  {
    if apiType == "" {
      assert ToUpper(APITypeOpenAI) == APITypeOpenAI;
    }
  }
}
