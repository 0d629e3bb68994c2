/**
 * The development server (server.py): the request handler that serves
 * `index.html` for `/`, and the file-change handler that debounces
 * modification events per path and re-renders the page for HTML and JSON
 * changes. The clock is a parameter: each event carries the time at which
 * the handler reads it.
 */
module Server {
  import opened Strings

  // ---------------------------------------------------------------------------
  // EmailTemplateHandler.do_GET
  // ---------------------------------------------------------------------------

  /** The path that is served for a requested path: `/` is served as `/index.html`. */
  function ServedPath(path: string): (r: string)
    ensures r != "/"
    ensures path != "/" ==> r == path
  {
    if path == "/" then "/index.html" else path
  }

  /** Rewriting twice is rewriting once. */
  lemma ServedPathIdempotent(path: string)
    ensures ServedPath(ServedPath(path)) == ServedPath(path)
  {
  }

  /** The request handler: `do_GET` rewrites its own `path` before serving the file. */
  class EmailTemplateHandler {
    var path: string

    constructor (path: string)
      ensures this.path == path
    {
      this.path := path;
    }

    /** `do_GET`; serving the file itself is the standard library's and is not modelled. */
    method DoGet()
      modifies this
      ensures path == ServedPath(old(path))
    {
      if path == "/" {
        path := "/index.html";
      }
    }
  }

  // ---------------------------------------------------------------------------
  // ChangeHandler.on_modified
  // ---------------------------------------------------------------------------

  /** A file-system modification event, with the time at which the handler reads the clock. */
  datatype Event = Event(isDirectory: bool, srcPath: string, time: real)

  /** What the handler does with an event. */
  datatype Reaction =
    | Ignored        // a directory, an unwatched extension, or within a second of the last change
    | Logged         // a `.css` change: recorded and logged
    | Rendered       // a `.html` or `.json` change: recorded, logged and the page re-rendered

  /** The extensions the handler watches. */
  predicate Watched(path: string) {
    EndsWith(path, ".html") || EndsWith(path, ".css") || EndsWith(path, ".json")
  }

  /** The extensions whose change re-renders the page. */
  predicate Renders(path: string) {
    EndsWith(path, ".html") || EndsWith(path, ".json")
  }

  /** The path was never recorded, or its last change is more than one second old. */
  predicate Debounced(lastModified: map<string, real>, path: string, now: real) {
    path !in lastModified || now - lastModified[path] > 1.0
  }

  /** The handler's reaction to `e` given the recorded change times. */
  function ReactionTo(lastModified: map<string, real>, e: Event): (r: Reaction)
    ensures r != Ignored <==> !e.isDirectory && Watched(e.srcPath) && Debounced(lastModified, e.srcPath, e.time)
    ensures r == Rendered ==> Renders(e.srcPath)
    ensures r == Logged ==> EndsWith(e.srcPath, ".css") && !Renders(e.srcPath)
  {
    if e.isDirectory then Ignored
    else if !Watched(e.srcPath) then Ignored
    else if !Debounced(lastModified, e.srcPath, e.time) then Ignored
    else if Renders(e.srcPath) then Rendered
    else Logged
  }

  /** The recorded change times after the handler has seen `e`. */
  function After(lastModified: map<string, real>, e: Event): (r: map<string, real>)
    ensures forall p :: p != e.srcPath ==> (p in r <==> p in lastModified)
    ensures forall p :: p != e.srcPath && p in r ==> r[p] == lastModified[p]
    ensures ReactionTo(lastModified, e) != Ignored ==> e.srcPath in r && r[e.srcPath] == e.time
    ensures ReactionTo(lastModified, e) == Ignored ==> r == lastModified
  {
    if ReactionTo(lastModified, e) == Ignored then lastModified
    else lastModified[e.srcPath := e.time]
  }

  /** The file-change handler; `lastModified` maps each path to the time of its last accepted change. */
  class ChangeHandler {
    var lastModified: map<string, real>

    constructor ()
      ensures lastModified == map[]
    {
      lastModified := map[];
    }

    /** `on_modified`: whether the event is ignored, logged, or triggers `render_template`. */
    method OnModified(isDirectory: bool, srcPath: string, currentTime: real) returns (reaction: Reaction)
      modifies this
      ensures reaction == ReactionTo(old(lastModified), Event(isDirectory, srcPath, currentTime))
      ensures lastModified == After(old(lastModified), Event(isDirectory, srcPath, currentTime))
    {
      reaction := Ignored;
      if isDirectory {
        return;
      }
      if EndsWith(srcPath, ".html") || EndsWith(srcPath, ".css") || EndsWith(srcPath, ".json") {
        if srcPath !in lastModified || currentTime - lastModified[srcPath] > 1.0 {
          lastModified := lastModified[srcPath := currentTime];
          reaction := Logged;
          if EndsWith(srcPath, ".html") || EndsWith(srcPath, ".json") {
            reaction := Rendered;
          }
        }
      }
    }
  }

  /** The recorded change times after a fresh handler has seen `events` in order. */
  function Replay(events: seq<Event>): map<string, real> {
    if events == [] then map[] else After(Replay(events[..|events| - 1]), events[|events| - 1])
  }

  /** The `i`-th event is acted upon (logged or rendered). */
  predicate Accepted(events: seq<Event>, i: nat)
    requires i < |events|
  {
    ReactionTo(Replay(events[..i]), events[i]) != Ignored
  }

  /** The clock never goes backwards across the events. */
  predicate Monotone(events: seq<Event>) {
    forall i, j :: 0 <= i < j < |events| ==> events[i].time <= events[j].time
  }

  /** After an accepted change to a path, the recorded time for that path is at least that change's time. */
  lemma {:induction false} RecordedAfterAccepted(events: seq<Event>, i: nat, k: nat)
    requires Monotone(events) && i < k <= |events| && Accepted(events, i)
    ensures events[i].srcPath in Replay(events[..k])
    ensures Replay(events[..k])[events[i].srcPath] >= events[i].time
    decreases k
  {
    var path := events[i].srcPath;
    ReplayStep(events, k);
    if k > i + 1 {
      RecordedAfterAccepted(events, i, k - 1);
      var before := Replay(events[..k - 1]);
      var e := events[k - 1];
      if e.srcPath == path && ReactionTo(before, e) != Ignored {
        assert events[i].time <= e.time;
      }
    }
  }

  /** Replaying one more event applies `After` for it. */
  lemma ReplayStep(events: seq<Event>, k: nat)
    requires 0 < k <= |events|
    ensures Replay(events[..k]) == After(Replay(events[..k - 1]), events[k - 1])
  {
    assert events[..k][..k - 1] == events[..k - 1];
  }

  /**
   * Debouncing: two accepted changes to the same path are more than one second
   * apart, so a burst of saves re-renders the page at most once per second.
   */
  lemma AcceptedChangesAreSpaced(events: seq<Event>, i: nat, j: nat)
    requires Monotone(events) && i < j < |events|
    requires Accepted(events, i) && Accepted(events, j)
    requires events[i].srcPath == events[j].srcPath
    ensures events[j].time - events[i].time > 1.0
  {
    RecordedAfterAccepted(events, i, j);
  }

  /** The first watched change to a file is always acted upon. */
  lemma {:induction false} FirstChangeAccepted(events: seq<Event>, j: nat)
    requires j < |events| && !events[j].isDirectory && Watched(events[j].srcPath)
    requires forall i :: 0 <= i < j ==> events[i].srcPath != events[j].srcPath
    ensures Accepted(events, j)
  {
    NeverRecorded(events[..j], events[j].srcPath);
  }

  /** A path no event mentions is never recorded. */
  lemma {:induction false} NeverRecorded(events: seq<Event>, path: string)
    requires forall i :: 0 <= i < |events| ==> events[i].srcPath != path
    ensures path !in Replay(events)
  {
    if events != [] {
      NeverRecorded(events[..|events| - 1], path);
    }
  }
}
