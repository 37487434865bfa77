/**
 * The log-monitoring server (monitoring/log-monitor/server.js): it tails a
 * fixed list of log files, classifies every new line, broadcasts it to all
 * viewers with an extra alert for critical lines, sends a backlog of recent
 * lines to each new viewer, and answers two query endpoints.
 *
 * Files are a map from absolute path to content; the socket broadcast is the
 * sequence of emissions the server has made.
 */
module LogMonitor {
  import opened Wrappers
  import opened Text
  import opened Seqs
  import Http

  /** The files the server watches, in configuration order. */
  const LOG_FILES: seq<string> := ["/tmp/localtunnel.log", "/tmp/production.log", "/tmp/auth.log", "/tmp/nextjs.log"]

  const INITIAL_BACKLOG: nat := 50
  const QUERY_BACKLOG: nat := 100

  datatype Level = Error | Warning | Auth | Info {
    function Name(): string {
      match this
      case Error => "error"
      case Warning => "warning"
      case Auth => "auth"
      case Info => "info"
    }
  }

  // ---------------------------------------------------------------- classification

  /** `detectLogLevel`: the first rule that matches the lowered line wins. */
  function DetectLogLevel(message: string): Level {
    var msg := Lower(message);
    if Contains(msg, "error") || Contains(msg, "err") || Contains(msg, "fail") then Error
    else if Contains(msg, "warn") then Warning
    else if Contains(msg, "auth") || Contains(msg, "login") then Auth
    else Info
  }

  lemma ErrContainsItself()
    ensures Contains("error", "err")
  {
    assert "err" <= "error";
  }

  /**
   * The rules in priority order, with the redundant "error" rule dropped:
   * every line that contains "error" also contains "err".
   */
  lemma DetectLogLevelPriority(message: string)
    ensures var msg := Lower(message);
      && (DetectLogLevel(message) == Error <==> Contains(msg, "err") || Contains(msg, "fail"))
      && (DetectLogLevel(message) == Warning <==>
            !Contains(msg, "err") && !Contains(msg, "fail") && Contains(msg, "warn"))
      && (DetectLogLevel(message) == Auth <==>
            !Contains(msg, "err") && !Contains(msg, "fail") && !Contains(msg, "warn")
            && (Contains(msg, "auth") || Contains(msg, "login")))
      && (DetectLogLevel(message) == Info <==>
            !Contains(msg, "err") && !Contains(msg, "fail") && !Contains(msg, "warn")
            && !Contains(msg, "auth") && !Contains(msg, "login"))
  {
    var msg := Lower(message);
    if Contains(msg, "error") {
      ErrContainsItself();
      ContainsTransitive(msg, "error", "err");
    }
  }

  /** JavaScript's `.` does not match these. */
  predicate IsLineTerminator(c: char) {
    c == '\n' || c == '\r' || c == '\U{2028}' || c == '\U{2029}'
  }

  /** `auth`, in any case, starts at `s[0]`. */
  predicate AuthAtStart(s: string) {
    |s| >= 4 && Lower(s[..4]) == "auth"
  }

  /** `/.*auth/i` anchored at the start of `s`: an "auth" before any line terminator. */
  predicate AuthLater(s: string)
    decreases |s|
  {
    AuthAtStart(s) || (|s| > 0 && !IsLineTerminator(s[0]) && AuthLater(s[1..]))
  }

  /** `/404.*auth/i`. */
  predicate Matches404Auth(s: string)
    decreases |s|
  {
    ("404" <= s && AuthLater(s[3..])) || (|s| > 0 && Matches404Auth(s[1..]))
  }

  /** "404" at `i`, then "auth" (any case) at `j`, with no line terminator between. */
  predicate Rule404At(s: string, i: int, j: int) {
    && OccursAt(s, "404", i)
    && i + 3 <= j && j + 4 <= |s|
    && AuthAtStart(s[j..])
    && forall k :: i + 3 <= k < j ==> !IsLineTerminator(s[k])
  }

  lemma {:induction false} AuthLaterWitness(s: string) returns (j: nat)
    requires AuthLater(s)
    ensures j + 4 <= |s| && AuthAtStart(s[j..])
    ensures forall k :: 0 <= k < j ==> !IsLineTerminator(s[k])
    decreases |s|
  {
    if AuthAtStart(s) {
      j := 0;
    } else {
      var j' := AuthLaterWitness(s[1..]);
      assert s[1..][j'..] == s[j' + 1..];
      j := j' + 1;
    }
  }

  lemma {:induction false} AuthLaterFrom(s: string, j: nat)
    requires j + 4 <= |s| && AuthAtStart(s[j..])
    requires forall k :: 0 <= k < j ==> !IsLineTerminator(s[k])
    ensures AuthLater(s)
    decreases j
  {
    if j > 0 {
      assert s[1..][j - 1..] == s[j..];
      AuthLaterFrom(s[1..], j - 1);
    }
  }

  lemma {:induction false} Matches404AuthWitness(s: string) returns (i: nat, j: nat)
    requires Matches404Auth(s)
    ensures Rule404At(s, i, j)
    decreases |s|
  {
    if "404" <= s && AuthLater(s[3..]) {
      var j' := AuthLaterWitness(s[3..]);
      assert s[3..][j'..] == s[3 + j'..];
      assert s[0..3] == "404";
      i, j := 0, 3 + j';
    } else {
      var i', j' := Matches404AuthWitness(s[1..]);
      assert s[1..][i'..i' + 3] == s[i' + 1..i' + 4];
      assert s[1..][j'..] == s[j' + 1..];
      i, j := i' + 1, j' + 1;
    }
  }

  lemma {:induction false} Matches404AuthFrom(s: string, i: nat, j: nat)
    requires Rule404At(s, i, j)
    ensures Matches404Auth(s)
    decreases i
  {
    if i == 0 {
      assert "404" <= s;
      assert s[3..][j - 3..] == s[j..];
      AuthLaterFrom(s[3..], j - 3);
    } else {
      assert s[1..][i - 1..i + 2] == s[i..i + 3];
      assert s[1..][j - 1..] == s[j..];
      Matches404AuthFrom(s[1..], i - 1, j - 1);
    }
  }

  /**
   * The 404 rule fires exactly when a "404" is followed, later on the same
   * line, by an "auth" in any case; an "auth" that only precedes a "404"
   * does not count.
   */
  lemma Matches404AuthIff(s: string)
    ensures Matches404Auth(s) <==> exists i, j :: Rule404At(s, i, j)
  {
    if Matches404Auth(s) {
      var i, j := Matches404AuthWitness(s);
    }
    if i, j :| Rule404At(s, i, j) {
      Matches404AuthFrom(s, i, j);
    }
  }

  /** `isCriticalEvent`: some pattern matches; only "500" and "404" are digits, the rest ignore case. */
  predicate IsCriticalEvent(message: string) {
    var msg := Lower(message);
    || Contains(msg, "authentication failed")
    || Contains(msg, "login error")
    || Contains(msg, "session error")
    || Contains(msg, "database error")
    || Contains(msg, "server error")
    || Contains(message, "500")
    || Matches404Auth(message)
  }

  // ---------------------------------------------------------------- live lines

  /** The path without its trailing "/" characters, which `path.basename` ignores. */
  function StripTrailingSlashes(path: string): string {
    if path != [] && path[|path| - 1] == '/' then StripTrailingSlashes(path[..|path| - 1]) else path
  }

  /** The text after the last "/", or all of it. */
  function LastSegment(path: string): (name: string)
    ensures '/' !in name
  {
    if path == [] || path[|path| - 1] == '/' then "" else LastSegment(path[..|path| - 1]) + [path[|path| - 1]]
  }

  /** `path.basename`: the last segment once trailing slashes are dropped. */
  function Basename(path: string): (name: string)
    ensures '/' !in name
  {
    LastSegment(StripTrailingSlashes(path))
  }

  lemma {:induction false} StripTrailingSlashesSpec(path: string)
    ensures var q := StripTrailingSlashes(path);
      && q <= path && (q == "" || q[|q| - 1] != '/')
      && forall i :: |q| <= i < |path| ==> path[i] == '/'
  {
    if path != [] && path[|path| - 1] == '/' {
      StripTrailingSlashesSpec(path[..|path| - 1]);
    }
  }

  lemma {:induction false} LastSegmentSpec(path: string)
    ensures var name := LastSegment(path);
      |name| <= |path| && path[|path| - |name|..] == name && (|name| == |path| || path[|path| - |name| - 1] == '/')
  {
    if path != [] && path[|path| - 1] != '/' {
      var init := path[..|path| - 1];
      LastSegmentSpec(init);
      assert path == init + [path[|path| - 1]];
    }
  }

  /**
   * The base name holds no "/", ends the path up to its trailing slashes,
   * and starts the path or follows a "/": it is the last segment.
   */
  lemma BasenameIsLastSegment(path: string)
    ensures var q, name := StripTrailingSlashes(path), Basename(path);
      && q <= path && (forall i :: |q| <= i < |path| ==> path[i] == '/')
      && |name| <= |q| && q[|q| - |name|..] == name && (|name| == |q| || q[|q| - |name| - 1] == '/')
  {
    StripTrailingSlashesSpec(path);
    LastSegmentSpec(StripTrailingSlashes(path));
  }

  /** The configured log files are tagged by their file names. */
  lemma BasenameOfLogFile()
    ensures Basename("/tmp/auth.log") == "auth.log"
  {
    var p := "/tmp/auth.log";
    BasenameIsLastSegment(p);
    assert StripTrailingSlashes(p) == p;
    assert Basename(p) == p[|p| - 8..];
  }

  /** Trailing slashes are ignored, and the root has an empty base name. */
  lemma BasenameTrailingSlash()
    ensures Basename("/a/b/") == "b"
    ensures Basename("/") == ""
  {
    assert "/a/b/"[..4] == "/a/b" && "/a/b"[..3] == "/a/";
    assert StripTrailingSlashes("/a/b/") == StripTrailingSlashes("/a/b") == "/a/b";
    assert LastSegment("/a/b") == LastSegment("/a/") + "b" == "b";
    assert StripTrailingSlashes("/") == StripTrailingSlashes("") == "";
  }

  datatype LogEntry = LogEntry(file: string, timestamp: string, message: string, level: Level)

  datatype Emission =
    | LogEvent(entry: LogEntry)
    | AlertEvent(kind: string, message: string, file: string, timestamp: string)

  /**
   * The `line` handler of one tail: a `log` event for every line, then an
   * `alert` for a critical one. Each emission reads the clock anew.
   */
  function OnLine(logFile: string, data: string, logTime: string, alertTime: string): seq<Emission> {
    var name := Basename(logFile);
    [LogEvent(LogEntry(name, logTime, data, DetectLogLevel(data)))]
    + if IsCriticalEvent(data) then [AlertEvent("critical", data, name, alertTime)] else []
  }

  /** A line as the tailer delivers it, with the two clock readings its handler takes. */
  datatype TailedLine = TailedLine(data: string, logTime: string, alertTime: string)

  function Broadcast(logFile: string, lines: seq<TailedLine>): seq<Emission> {
    if lines == [] then []
    else OnLine(logFile, lines[0].data, lines[0].logTime, lines[0].alertTime) + Broadcast(logFile, lines[1..])
  }

  function LogMessages(out: seq<Emission>): seq<string> {
    if out == [] then []
    else (if out[0].LogEvent? then [out[0].entry.message] else []) + LogMessages(out[1..])
  }

  function AlertMessages(out: seq<Emission>): seq<string> {
    if out == [] then []
    else (if out[0].AlertEvent? then [out[0].message] else []) + AlertMessages(out[1..])
  }

  function Data(lines: seq<TailedLine>): seq<string> {
    if lines == [] then [] else [lines[0].data] + Data(lines[1..])
  }

  lemma {:induction false} LogMessagesAppend(a: seq<Emission>, b: seq<Emission>)
    ensures LogMessages(a + b) == LogMessages(a) + LogMessages(b)
    ensures AlertMessages(a + b) == AlertMessages(a) + AlertMessages(b)
  {
    if a == [] {
      assert a + b == b;
    } else {
      assert (a + b)[0] == a[0];
      assert (a + b)[1..] == a[1..] + b;
      LogMessagesAppend(a[1..], b);
    }
  }

  /**
   * Over a run of tailed lines: exactly one `log` event per line, in append
   * order, and an `alert` for exactly the critical lines, in the same order.
   */
  lemma {:induction false} BroadcastFaithful(logFile: string, lines: seq<TailedLine>)
    ensures LogMessages(Broadcast(logFile, lines)) == Data(lines)
    ensures AlertMessages(Broadcast(logFile, lines)) == Filter(IsCriticalEvent, Data(lines))
  {
    if lines != [] {
      var l := lines[0];
      var head := OnLine(logFile, l.data, l.logTime, l.alertTime);
      BroadcastFaithful(logFile, lines[1..]);
      LogMessagesAppend(head, Broadcast(logFile, lines[1..]));
      assert LogMessages(head) == [l.data];
      assert AlertMessages(head) == if IsCriticalEvent(l.data) then [l.data] else [];
    }
  }

  /** Every `log` event carries its line's level and the file's base name. */
  lemma {:induction false} BroadcastLevels(logFile: string, lines: seq<TailedLine>, k: nat)
    requires k < |Broadcast(logFile, lines)| && Broadcast(logFile, lines)[k].LogEvent?
    ensures var e := Broadcast(logFile, lines)[k].entry;
      e.level == DetectLogLevel(e.message) && e.file == Basename(logFile)
  {
    var l := lines[0];
    var head := OnLine(logFile, l.data, l.logTime, l.alertTime);
    if k >= |head| {
      BroadcastLevels(logFile, lines[1..], k - |head|);
    }
  }

  // ---------------------------------------------------------------- backlog

  /** `line.trim()` is truthy. */
  predicate NonBlank(line: string) {
    Trim(line) != ""
  }

  /** `content.split('\n').slice(-n).filter(line => line.trim())`. */
  function RecentLines(content: string, n: nat): seq<string>
    requires n > 0
  {
    Filter(NonBlank, LastN(Split(content, '\n'), n))
  }

  /**
   * The backlog holds at most `n` lines, drawn in file order from the last
   * `n` newline-separated segments; it keeps exactly the ones that are not
   * white space only.
   */
  lemma RecentLinesSpec(content: string, n: nat)
    requires n > 0
    ensures var r := RecentLines(content, n);
      && |r| <= n
      && IsSubsequence(r, LastN(Split(content, '\n'), n))
      && (forall line :: line in r ==> !IsBlank(line) && '\n' !in line)
      && (forall line :: line in LastN(Split(content, '\n'), n) && !IsBlank(line) ==> line in r)
      && (forall line: string :: multiset(r)[line] ==
            if IsBlank(line) then 0 else multiset(LastN(Split(content, '\n'), n))[line])
  {
    var tail := LastN(Split(content, '\n'), n);
    FilterIsSubsequence(NonBlank, tail);
    forall line | line in RecentLines(content, n) ensures !IsBlank(line) && '\n' !in line {
      TrimEmptyIffBlank(line);
    }
    forall line | line in tail && !IsBlank(line) ensures line in RecentLines(content, n) {
      TrimEmptyIffBlank(line);
      FilterKeeps(NonBlank, tail, line);
    }
    forall line: string
      ensures multiset(RecentLines(content, n))[line] == if IsBlank(line) then 0 else multiset(tail)[line]
    {
      TrimEmptyIffBlank(line);
      FilterMultiset(NonBlank, tail, line);
    }
  }

  /** The `initial-logs` payload for one file: the last 50 segments, classified. */
  function InitialLogs(logFile: string, content: string, timestamp: string): (entries: seq<LogEntry>)
    ensures |entries| == |RecentLines(content, INITIAL_BACKLOG)| <= INITIAL_BACKLOG
    ensures forall k :: 0 <= k < |entries| ==>
      entries[k].message == RecentLines(content, INITIAL_BACKLOG)[k]
      && entries[k].level == DetectLogLevel(entries[k].message)
  {
    var lines := RecentLines(content, INITIAL_BACKLOG);
    seq(|lines|, k requires 0 <= k < |lines| =>
      LogEntry(Basename(logFile), timestamp, lines[k], DetectLogLevel(lines[k])))
  }

  /** `fs.existsSync` over the file contents at hand. */
  function Exists(files: map<string, string>): string -> bool {
    (f: string) => f in files
  }

  /** On connection: one `initial-logs` message per configured file that exists, in configuration order. */
  function OnConnection(files: map<string, string>, timestamp: string): (payloads: seq<seq<LogEntry>>)
    ensures |payloads| == |Filter(Exists(files), LOG_FILES)|
    ensures forall k :: 0 <= k < |payloads| ==>
      var file := Filter(Exists(files), LOG_FILES)[k];
      file in files && file in LOG_FILES && payloads[k] == InitialLogs(file, files[file], timestamp)
  {
    var present := Filter(Exists(files), LOG_FILES);
    assert forall k :: 0 <= k < |present| ==> present[k] in present && Exists(files)(present[k]);
    seq(|present|, k requires 0 <= k < |present| => InitialLogs(present[k], files[present[k]], timestamp))
  }

  // ---------------------------------------------------------------- query endpoints

  datatype LogsReply = Lines(lines: seq<string>) | NotFound(body: Http.ErrorBody)

  /** `GET /api/logs/:file`: the file name is appended to "/tmp/" as it is. */
  function GetLogs(files: map<string, string>, filename: string): (reply: LogsReply)
    ensures reply.NotFound? <==> "/tmp/" + filename !in files
    ensures reply.Lines? ==>
      |reply.lines| <= QUERY_BACKLOG && reply.lines == RecentLines(files["/tmp/" + filename], QUERY_BACKLOG)
  {
    var path := "/tmp/" + filename;
    if path in files then
      var r := RecentLines(files[path], QUERY_BACKLOG);
      Lines(r)
    else NotFound(Http.RouteError("Log file not found"))
  }

  /**
   * The segments the file system opens for a path: empty and "." segments
   * vanish and ".." drops the segment before it, left to right.
   */
  function ResolveSegments(done: seq<string>, rest: seq<string>): seq<string>
    decreases |rest|
  {
    if rest == [] then done
    else if rest[0] == "" || rest[0] == "." then ResolveSegments(done, rest[1..])
    else if rest[0] == ".." then ResolveSegments(if done == [] then [] else done[..|done| - 1], rest[1..])
    else ResolveSegments(done + [rest[0]], rest[1..])
  }

  function Resolve(path: string): seq<string> {
    ResolveSegments([], Split(path, '/'))
  }

  lemma ResolveSkip(done: seq<string>, segment: string, rest: seq<string>)
    requires segment == "" || segment == "."
    ensures ResolveSegments(done, [segment] + rest) == ResolveSegments(done, rest)
  {
    assert ([segment] + rest)[1..] == rest;
  }

  lemma ResolveUp(done: seq<string>, rest: seq<string>)
    requires done != []
    ensures ResolveSegments(done, [".."] + rest) == ResolveSegments(done[..|done| - 1], rest)
  {
    assert ([".."] + rest)[1..] == rest;
  }

  lemma ResolvePlain(done: seq<string>, segment: string, rest: seq<string>)
    requires segment != "" && segment != "." && segment != ".."
    ensures ResolveSegments(done, [segment] + rest) == ResolveSegments(done + [segment], rest)
  {
    assert ([segment] + rest)[1..] == rest;
  }

  /** "/tmp/" followed by a name splits into an empty root, "tmp" and the name's own segments. */
  lemma SplitUnderTmp(filename: string)
    ensures Split("/tmp/" + filename, '/') == ["", "tmp"] + Split(filename, '/')
  {
    assert "/tmp/" + filename == "" + ['/'] + ("tmp" + ['/'] + filename);
    SplitAtFirst("", "tmp" + ['/'] + filename, '/');
    SplitAtFirst("tmp", filename, '/');
  }

  lemma TraversalSegments(name: string)
    requires name == "../etc/passwd"
    ensures Split("/tmp/" + name, '/') == [""] + (["tmp"] + ([".."] + (["etc"] + (["passwd"] + []))))
  {
    assert name == ".." + ['/'] + ("etc" + ['/'] + "passwd");
    SplitAtFirst("..", "etc" + ['/'] + "passwd", '/');
    SplitAtFirst("etc", "passwd", '/');
    SplitWithout("passwd", '/');
    SplitUnderTmp(name);
  }

  /**
   * The route hands "/tmp/" + the (URL-decoded) name to the file system as
   * it is, so "../etc/passwd" opens /etc/passwd, outside /tmp.
   */
  lemma TraversalLeavesTmp()
    ensures Resolve("/tmp/" + "../etc/passwd") == ["etc", "passwd"]
  {
    TraversalSegments("../etc/passwd");
    ResolveSkip([], "", ["tmp"] + ([".."] + (["etc"] + (["passwd"] + []))));
    ResolvePlain([], "tmp", [".."] + (["etc"] + (["passwd"] + [])));
    ResolveUp(["tmp"], ["etc"] + (["passwd"] + []));
    ResolvePlain([], "etc", ["passwd"] + []);
    ResolvePlain(["etc"], "passwd", []);
  }

  /** A name the route can serve without leaving /tmp: one plain path segment. */
  predicate PlainFileName(filename: string) {
    filename != "" && filename != "." && filename != ".." && '/' !in filename
  }

  /** `GET /api/logs/:file` confined to /tmp: any other name is answered 404 without touching the file system. */
  function GetLogsConfined(files: map<string, string>, filename: string): (reply: LogsReply)
    ensures !PlainFileName(filename) ==> reply.NotFound?
    ensures PlainFileName(filename) ==> reply == GetLogs(files, filename)
  {
    if PlainFileName(filename) then GetLogs(files, filename) else NotFound(Http.RouteError("Log file not found"))
  }

  lemma PlainSegments(filename: string)
    requires PlainFileName(filename)
    ensures Split("/tmp/" + filename, '/') == [""] + (["tmp"] + ([filename] + []))
  {
    SplitUnderTmp(filename);
    SplitWithout(filename, '/');
  }

  /** Whatever the confined route serves is a file directly inside /tmp, named as requested. */
  lemma ConfinedStaysInTmp(files: map<string, string>, filename: string)
    requires GetLogsConfined(files, filename).Lines?
    ensures Resolve("/tmp/" + filename) == ["tmp", filename]
  {
    PlainSegments(filename);
    ResolveSkip([], "", ["tmp"] + ([filename] + []));
    ResolvePlain([], "tmp", [filename] + []);
    ResolvePlain(["tmp"], filename, []);
  }

  datatype StatusReply = StatusReply(status: string, monitoredFiles: seq<string>, activeTails: nat)

  /** The server's module-level `tails` dictionary and everything it has broadcast. */
  class LogMonitorServer {
    var tails: map<string, string>
    var emitted: seq<Emission>

    constructor ()
      ensures tails == map[] && emitted == []
    {
      tails := map[];
      emitted := [];
    }

    /** `initializeLogMonitoring`: one tail, tagged with the base name, per configured file that exists. */
    method InitializeLogMonitoring(existing: set<string>)
      modifies this
      ensures tails == old(tails) + TailMap(LOG_FILES, existing)
      ensures emitted == old(emitted)
    {
      var files := LOG_FILES;
      var i := 0;
      while i < |files|
        invariant 0 <= i <= |files|
        invariant tails == old(tails) + TailMap(files[..i], existing)
        invariant emitted == old(emitted)
      {
        var logFile := files[i];
        TailMapStep(files, i, existing);
        if logFile in existing {
          UnionUpdate(old(tails), TailMap(files[..i], existing), logFile, Basename(logFile));
          tails := tails[logFile := Basename(logFile)];
        }
        i := i + 1;
      }
      assert files[..i] == files;
    }

    /** The `line` handler of the tail for `logFile`. */
    method HandleLine(logFile: string, data: string, logTime: string, alertTime: string)
      requires logFile in tails
      modifies this
      ensures tails == old(tails)
      ensures emitted == old(emitted) + OnLine(logFile, data, logTime, alertTime)
    {
      var entry := LogEntry(Basename(logFile), logTime, data, DetectLogLevel(data));
      emitted := emitted + [LogEvent(entry)];
      if IsCriticalEvent(data) {
        emitted := emitted + [AlertEvent("critical", data, Basename(logFile), alertTime)];
      }
    }

    /** `GET /api/status`: the files that exist now, and the number of tails started at boot. */
    method Status(existing: set<string>) returns (reply: StatusReply)
      ensures reply.status == "running"
      ensures IsSubsequence(reply.monitoredFiles, LOG_FILES)
      ensures forall f :: f in reply.monitoredFiles <==> f in LOG_FILES && f in existing
      ensures reply.activeTails == |tails|
    {
      var present := Filter(f => f in existing, LOG_FILES);
      FilterIsSubsequence(f => f in existing, LOG_FILES);
      forall f | f in LOG_FILES && f in existing ensures f in present {
        FilterKeeps(f => f in existing, LOG_FILES, f);
      }
      reply := StatusReply("running", present, |tails|);
    }
  }

  /** The tails started over `files`, in order: the ones that exist, each tagged with its base name. */
  function TailMap(files: seq<string>, existing: set<string>): map<string, string> {
    if files == [] then map[]
    else
      var last := files[|files| - 1];
      var m := TailMap(files[..|files| - 1], existing);
      if last in existing then m[last := Basename(last)] else m
  }

  lemma UnionUpdate<K, V>(a: map<K, V>, b: map<K, V>, k: K, v: V)
    ensures (a + b)[k := v] == a + b[k := v]
  {
  }

  lemma TailMapStep(files: seq<string>, i: nat, existing: set<string>)
    requires i < |files|
    ensures TailMap(files[..i + 1], existing)
      == if files[i] in existing then TailMap(files[..i], existing)[files[i] := Basename(files[i])]
         else TailMap(files[..i], existing)
  {
    assert files[..i + 1][..i] == files[..i];
  }

  /**
   * Exactly the configured files that exist get a tail, each tagged with its
   * base name, and there are never more tails than configured files.
   */
  lemma {:induction false} TailMapSpec(files: seq<string>, existing: set<string>)
    ensures forall f :: f in TailMap(files, existing) <==> f in files && f in existing
    ensures forall f :: f in TailMap(files, existing) ==> TailMap(files, existing)[f] == Basename(f)
    ensures |TailMap(files, existing)| <= |files|
  {
    if files != [] {
      var init, last := files[..|files| - 1], files[|files| - 1];
      TailMapSpec(init, existing);
      assert files == init + [last];
      if last in existing {
        var m := TailMap(init, existing);
        assert TailMap(files, existing).Keys == m.Keys + {last};
      }
    }
  }

  // ---------------------------------------------------------------- examples

  /** "auth failed for user" is an error: "fail" is checked before "auth". */
  lemma AuthFailureIsError()
    ensures DetectLogLevel("auth failed for user") == Error
  {
    var msg := Lower("auth failed for user");
    assert msg == "auth failed for user";
    assert msg[5..9] == "fail";
    ContainsAt(msg, "fail", 5);
  }

  /** The word patterns ignore case: a shouted "SERVER ERROR" is critical. */
  lemma ShoutedServerErrorIsCritical()
    ensures IsCriticalEvent("Internal SERVER ERROR")
  {
    var msg := Lower("Internal SERVER ERROR");
    assert msg == "internal server error";
    assert msg[9..21] == "server error";
    ContainsAt(msg, "server error", 9);
  }

  /** The 404 rule wants "404" first: "auth" that only comes before it does not match. */
  lemma AuthBefore404NotMatched()
    ensures !Matches404Auth("auth 404")
  {
    var s := "auth 404";
    Matches404AuthIff(s);
    forall i | 0 <= i <= 5 && OccursAt(s, "404", i) ensures i == 5 {
      assert s[i] == "404"[0];
    }
  }
}
