/**
 * internal/httpserver/server.go: NewServer resolves the web directory, checks
 * that it exists, and builds the server's mux from the API routes with a
 * static file server for that directory behind them at "/".
 *
 * filepath.Abs and os.Stat ask the operating system; their answers are
 * parameters here. Start (ListenAndServe) is not part of this model.
 */
module HttpServer {
  import opened Wrappers
  import opened Http
  import opened Utils
  import opened Routes

  datatype Config = Config(webDir: string, port: int)

  class Server {
    var cfg: Config
    var mux: ServeMux<Api>

    constructor (cfg: Config, mux: ServeMux<Api>)
      ensures this.cfg == cfg && this.mux == mux
    {
      this.cfg := cfg;
      this.mux := mux;
    }
  }

  /** The message NewServer gives when the resolved web directory cannot be stat'ed. */
  function WebDirNotFound(dir: string): (e: Error)
    ensures "web dir not found: " <= e.text && e.text[|"web dir not found: "|..] == dir
  {
    Error("web dir not found: " + dir)
  }

  /**
   * NewServer(cfg). `abs` is what filepath.Abs(cfg.WebDir) returns and
   * `dirExists` whether os.Stat of the resolved path succeeds. A failing Abs
   * hands back its own error and a missing directory the "web dir not found"
   * error naming the resolved path, both with no server; otherwise the server
   * keeps the resolved path and a fresh mux holding the seven API routes,
   * then the file server for that path at "/".
   */
  method NewServer(cfg: Config, abs: Outcome<string>, dirExists: bool) returns (s: Server?, err: Option<Error>)
    ensures abs.err.Some? ==> s == null && err == abs.err
    ensures abs.err.None? && !dirExists ==> s == null && err == Some(WebDirNotFound(abs.value))
    ensures abs.err.None? && dirExists ==>
      && err.None? && s != null && fresh(s) && fresh(s.mux)
      && s.cfg == cfg.(webDir := abs.value)
      && s.mux.Valid()
      && s.mux.routes == ApiRoutes() + [Route("/", FileServer(abs.value))]
    ensures abs.err.None? && dirExists ==>
      && s != null
      && (forall k :: 0 <= k < |ApiRoutes()| ==> s.mux.Lookup(ApiRoutes()[k].pattern) == Some(ApiRoutes()[k].handler))
      && (forall path :: |path| > 0 && path[0] == '/' && !HasPattern(ApiRoutes(), path) ==>
            s.mux.Lookup(path) == Some(FileServer(abs.value)))
  {
    if abs.err.Some? {
      return null, abs.err;
    }
    var dir := abs.value;
    if !dirExists {
      return null, Some(WebDirNotFound(dir));
    }
    var mux := new ServeMux();
    s := new Server(cfg.(webDir := dir), mux);
    RegisterAll(mux);
    assert mux.routes == ApiRoutes();
    RootAfterApi(dir);
    mux.Handle("/", FileServer(dir));
    err := None;
    forall k | 0 <= k < |ApiRoutes()|
      ensures mux.Lookup(ApiRoutes()[k].pattern) == Some(ApiRoutes()[k].handler)
    {
      ApiRoutesUnderApi();
      assert "/api/" <= ApiRoutes()[k].pattern;
      ServerDispatch(dir, ApiRoutes()[k].pattern);
    }
    forall path | |path| > 0 && path[0] == '/' && !HasPattern(ApiRoutes(), path)
      ensures mux.Lookup(path) == Some(FileServer(dir))
    {
      ServerDispatch(dir, path);
    }
  }

  /** The root pattern is free behind the API routes, and the finished table is
      one ServeMux can hold. */
  lemma RootAfterApi(dir: string)
    ensures !HasPattern(ApiRoutes(), "/")
    ensures ValidTable(ApiRoutes() + [Route("/", FileServer(dir))])
  {
    ApiRoutesDistinct();
    ApiRoutesUnderApi();
    forall i | 0 <= i < |ApiRoutes()| ensures ApiRoutes()[i].pattern != "/" {
      assert "/api/" <= ApiRoutes()[i].pattern;
    }
    ValidTableAppend(ApiRoutes(), Route("/", FileServer(dir)));
  }

  /**
   * Requests to the server's mux: a path registered by RegisterAll reaches
   * its own handler, and every other path the static file server.
   */
  lemma ServerDispatch(dir: string, path: string)
    requires |path| > 0 && path[0] == '/'
    ensures forall k :: 0 <= k < |ApiRoutes()| && ApiRoutes()[k].pattern == path ==>
      Match(ApiRoutes() + [Route("/", FileServer(dir))], path) == Some(ApiRoutes()[k].handler)
    ensures (forall k :: 0 <= k < |ApiRoutes()| ==> ApiRoutes()[k].pattern != path) ==>
      Match(ApiRoutes() + [Route("/", FileServer(dir))], path) == Some(FileServer(dir))
  {
    var t := ApiRoutes();
    ApiRoutesDistinct();
    ApiRoutesUnderApi();
    forall k | 0 <= k < |t| && t[k].pattern == path
      ensures Match(t + [Route("/", FileServer(dir))], path) == Some(t[k].handler)
    {
      TableRoutesWin(t, FileServer(dir), k);
    }
    if forall k :: 0 <= k < |t| ==> t[k].pattern != path {
      FallsBackToRoot(t, FileServer(dir), path);
    }
  }
}
