/**
 * The slice of `net/http` the panel uses: requests as the handlers read
 * them, the responses they produce, a response writer that records what
 * goes on the wire, and the `ServeMux` route table with its lookup rule.
 */
module Http {
  import opened Wrappers
  import opened Json

  const MethodGet := "GET"
  const MethodPost := "POST"

  const StatusOK := 200
  const StatusBadRequest := 400
  const StatusMethodNotAllowed := 405
  const StatusInternalServerError := 500

  /** What a handler sees of a request: its method (`verb`, Go's r.Method), its parsed query and its body. */
  datatype Request = Request(verb: string, query: map<string, seq<string>>, body: string)
  {
    /** r.URL.Query().Get(key): the first value given for key, or "" when there is none. */
    function Query(key: string): string
    {
      if key in query && |query[key]| > 0 then query[key][0] else ""
    }
  }

  /** What a handler responds with. */
  datatype Response =
      /** a JSON value written with the given status */
    | Reply(status: int, body: Value)
      /** an error written with the given status through the routes' shared
          error helper, whose envelope lies outside this model */
    | Fault(status: int, message: string)

  // ---------------------------------------------------------------- writer

  /** What a response writer has sent: the status line with the header as it
      stood when the status was written, and encoded bodies. */
  datatype Wire = StatusLine(code: int, header: map<string, string>) | Body(value: Value)

  class ResponseWriter {
    var header: map<string, string>
    var wire: seq<Wire>

    constructor ()
      ensures header == map[] && wire == []
    {
      header := map[];
      wire := [];
    }

    /** w.Header().Set(key, value) */
    method Set(key: string, value: string)
      modifies this
      ensures header == old(header)[key := value] && wire == old(wire)
    {
      header := header[key := value];
    }

    /** w.WriteHeader(code): the header is frozen into the status line. */
    method WriteHeader(code: int)
      modifies this
      ensures header == old(header) && wire == old(wire) + [StatusLine(code, header)]
    {
      wire := wire + [StatusLine(code, header)];
    }

    /** json.NewEncoder(w).Encode(v) */
    method Encode(v: Value)
      modifies this
      ensures header == old(header) && wire == old(wire) + [Body(v)]
    {
      wire := wire + [Body(v)];
    }
  }

  // ---------------------------------------------------------------- mux

  /** What a pattern is bound to: one of the application's endpoints, or a
      file server rooted at a directory. */
  datatype Handler<E> = Endpoint(endpoint: E) | FileServer(root: string)

  datatype Route<E> = Route(pattern: string, handler: Handler<E>)

  predicate DistinctPatterns<E>(routes: seq<Route<E>>) {
    forall i, j :: 0 <= i < j < |routes| ==> routes[i].pattern != routes[j].pattern
  }

  /** A pattern ending in a slash names a whole subtree; any other names one path. */
  predicate Subtree(pattern: string) {
    |pattern| > 0 && pattern[|pattern| - 1] == '/'
  }

  /** The handler registered under exactly this path, if any. */
  function FindExact<E>(routes: seq<Route<E>>, path: string): (h: Option<Handler<E>>)
    ensures h.None? <==> forall i :: 0 <= i < |routes| ==> routes[i].pattern != path
    ensures h.Some? ==> exists i :: 0 <= i < |routes| && routes[i].pattern == path && routes[i].handler == h.value
  {
    if routes == [] then None
    else if routes[0].pattern == path then Some(routes[0].handler)
    else
      var h := FindExact(routes[1..], path);
      assert forall i :: 1 <= i < |routes| ==> routes[i] == routes[1..][i - 1];
      h
  }

  /** The route with the longest subtree pattern that is a prefix of the path, if any. */
  function LongestSubtree<E>(routes: seq<Route<E>>, path: string): (best: Option<Route<E>>)
    ensures best.None? <==>
      forall i :: 0 <= i < |routes| ==> !(Subtree(routes[i].pattern) && routes[i].pattern <= path)
    ensures best.Some? ==>
      && Subtree(best.value.pattern) && best.value.pattern <= path
      && (exists i :: 0 <= i < |routes| && routes[i].pattern == best.value.pattern && routes[i].handler == best.value.handler)
      && (forall i :: 0 <= i < |routes| && Subtree(routes[i].pattern) && routes[i].pattern <= path ==>
            |routes[i].pattern| <= |best.value.pattern|)
  {
    if routes == [] then None
    else
      var rest := LongestSubtree(routes[1..], path);
      var r := routes[0];
      assert forall i :: 1 <= i < |routes| ==> routes[i] == routes[1..][i - 1];
      if Subtree(r.pattern) && r.pattern <= path && (rest.None? || |rest.value.pattern| < |r.pattern|)
      then Some(r)
      else rest
  }

  /** ServeMux's choice of handler for a path: an exact pattern first, otherwise
      the longest subtree pattern that the path lies under. */
  function Match<E>(routes: seq<Route<E>>, path: string): Option<Handler<E>>
  {
    match FindExact(routes, path)
    case Some(h) => Some(h)
    case None =>
      match LongestSubtree(routes, path)
      case Some(r) => Some(r.handler)
      case None => None
  }

  /** Behind a table of single-path patterns and a root handler at "/", every path
      that is not in the table goes to the root handler. */
  lemma FallsBackToRoot<E>(table: seq<Route<E>>, root: Handler<E>, path: string)
    requires forall i :: 0 <= i < |table| ==> !Subtree(table[i].pattern)
    requires forall i :: 0 <= i < |table| ==> table[i].pattern != path
    requires |path| > 0 && path[0] == '/'
    ensures Match(table + [Route("/", root)], path) == Some(root)
  {
    var routes := table + [Route("/", root)];
    assert routes[|table|].pattern <= path;
    assert forall i :: 0 <= i < |table| ==> routes[i] == table[i];
  }

  /** Behind a table of distinct single-path patterns and a root handler at "/",
      every path of the table reaches its own handler. */
  lemma TableRoutesWin<E>(table: seq<Route<E>>, root: Handler<E>, k: nat)
    requires DistinctPatterns(table)
    requires forall i :: 0 <= i < |table| ==> !Subtree(table[i].pattern)
    requires k < |table|
    ensures Match(table + [Route("/", root)], table[k].pattern) == Some(table[k].handler)
  {
    var routes := table + [Route("/", root)];
    assert routes[k] == table[k];
    assert forall i :: 0 <= i < |table| ==> routes[i] == table[i];
    assert Subtree(routes[|table|].pattern);
  }

  /** Some route of the table has exactly this pattern. */
  predicate HasPattern<E>(routes: seq<Route<E>>, pattern: string) {
    exists i :: 0 <= i < |routes| && routes[i].pattern == pattern
  }

  lemma HasPatternAppend<E>(a: seq<Route<E>>, b: seq<Route<E>>, pattern: string)
    ensures HasPattern(a + b, pattern) <==> HasPattern(a, pattern) || HasPattern(b, pattern)
  {
    if HasPattern(a + b, pattern) {
      var i :| 0 <= i < |a + b| && (a + b)[i].pattern == pattern;
      if i >= |a| { assert b[i - |a|].pattern == pattern; }
    }
    if HasPattern(a, pattern) {
      var i :| 0 <= i < |a| && a[i].pattern == pattern;
      assert (a + b)[i].pattern == pattern;
    }
    if HasPattern(b, pattern) {
      var i :| 0 <= i < |b| && b[i].pattern == pattern;
      assert (a + b)[|a| + i].pattern == pattern;
    }
  }

  /** None of the patterns of s is in the table. */
  predicate Unclaimed<E>(routes: seq<Route<E>>, s: seq<Route<E>>) {
    forall i :: 0 <= i < |s| ==> !HasPattern(routes, s[i].pattern)
  }

  /** Behind a table r0 that holds none of the patterns of t, registering the
      routes of t in order, slice after slice, never meets a pattern twice
      when the patterns of t are distinct: each slice finds its patterns free. */
  lemma SliceUnclaimed<E>(r0: seq<Route<E>>, t: seq<Route<E>>, lo: nat, hi: nat)
    requires DistinctPatterns(t) && lo <= hi <= |t| && Unclaimed(r0, t)
    ensures Unclaimed(r0 + t[..lo], t[lo..hi])
    ensures (r0 + t[..lo]) + t[lo..hi] == r0 + t[..hi]
  {
    assert t[..lo] + t[lo..hi] == t[..hi];
    forall i | 0 <= i < hi - lo ensures !HasPattern(r0 + t[..lo], t[lo..hi][i].pattern) {
      var k := lo + i;
      assert t[lo..hi][i] == t[k];
      HasPatternAppend(r0, t[..lo], t[k].pattern);
      forall j | 0 <= j < lo ensures t[..lo][j].pattern != t[k].pattern {
        assert t[..lo][j] == t[j];
      }
    }
  }

  /** A route table ServeMux can hold: no empty pattern, no pattern twice. */
  predicate ValidTable<E>(routes: seq<Route<E>>) {
    && DistinctPatterns(routes)
    && forall i :: 0 <= i < |routes| ==> routes[i].pattern != ""
  }

  /** Registering a non-empty pattern the table does not hold yet keeps the table valid. */
  lemma ValidTableAppend<E>(routes: seq<Route<E>>, r: Route<E>)
    requires ValidTable(routes) && r.pattern != "" && !HasPattern(routes, r.pattern)
    ensures ValidTable(routes + [r])
  {
    assert forall i :: 0 <= i < |routes| ==> (routes + [r])[i] == routes[i];
  }

  /**
   * http.ServeMux. Registering an empty pattern or one already registered
   * makes Go panic; here they are preconditions of Handle.
   */
  class ServeMux<E> {
    var routes: seq<Route<E>>

    /** The table never holds an empty or a repeated pattern. */
    predicate Valid()
      reads this
    {
      ValidTable(routes)
    }

    predicate Registered(pattern: string)
      reads this
    {
      HasPattern(routes, pattern)
    }

    constructor ()
      ensures Valid() && routes == []
    {
      routes := [];
    }

    /** mux.Handle(pattern, handler) and mux.HandleFunc(pattern, handler) */
    method Handle(pattern: string, handler: Handler<E>)
      requires pattern != "" && !Registered(pattern)
      modifies this
      ensures routes == old(routes) + [Route(pattern, handler)]
    {
      routes := routes + [Route(pattern, handler)];
    }

    /** The handler a request for this path is dispatched to. */
    function Lookup(path: string): Option<Handler<E>>
      reads this
    {
      Match(routes, path)
    }
  }
}
