/**
 * The authentication monitor (monitoring/auth-monitor.js): it reads chunks of
 * the production log as `tail -f` delivers them and appends one tagged record
 * per matching category to the auth log, which the log-monitoring server in
 * turn tails and classifies.
 */
module AuthMonitor {
  import opened Wrappers
  import opened Text
  import LogMonitor

  /** The `authPatterns`, all case-insensitive, lowered. */
  const AUTH_PATTERNS: seq<string> := ["auth", "login", "signin", "session", "credential", "nextauth", "jwt", "token"]

  /** The case-insensitive `errorPatterns`, lowered; "500" and "404" are matched as written. */
  const ERROR_PATTERNS: seq<string> := ["error", "err", "fail", "exception", "unauthorized", "forbidden"]

  /** The `apiPatterns`, all case-sensitive. */
  const API_PATTERNS: seq<string> := ["GET /api", "POST /api", "PUT /api", "DELETE /api", "api/auth", "callback", "providers", "csrf"]

  /** Some pattern of the list occurs in `s`. */
  predicate AnyContains(s: string, patterns: seq<string>) {
    exists p :: p in patterns && Contains(s, p)
  }

  predicate IsAuthEvent(line: string) {
    AnyContains(Lower(line), AUTH_PATTERNS)
  }

  predicate IsErrorEvent(line: string) {
    AnyContains(Lower(line), ERROR_PATTERNS) || Contains(line, "500") || Contains(line, "404")
  }

  predicate IsApiEvent(line: string) {
    AnyContains(line, API_PATTERNS)
  }

  lemma OccursInItself(s: string, sub: string, i: nat)
    requires OccursAt(s, sub, i)
    ensures Contains(s, sub)
  {
    ContainsAt(s, sub, i);
  }

  /**
   * "nextauth" adds nothing to the authentication patterns: every line that
   * contains it contains "auth".
   */
  lemma {:induction false} AuthEventWithoutNextauth(line: string)
    ensures IsAuthEvent(line) <==>
      AnyContains(Lower(line), ["auth", "login", "signin", "session", "credential", "jwt", "token"])
  {
    var msg := Lower(line);
    if Contains(msg, "nextauth") {
      OccursInItself("nextauth", "auth", 4);
      ContainsTransitive(msg, "nextauth", "auth");
      assert "auth" in ["auth", "login", "signin", "session", "credential", "jwt", "token"];
    }
    if AnyContains(msg, ["auth", "login", "signin", "session", "credential", "jwt", "token"]) {
      var p :| p in ["auth", "login", "signin", "session", "credential", "jwt", "token"] && Contains(msg, p);
      assert p in AUTH_PATTERNS;
    }
  }

  /** "error" adds nothing to the error patterns: every line that contains it contains "err". */
  lemma {:induction false} ErrorEventWithoutError(line: string)
    ensures IsErrorEvent(line) <==>
      AnyContains(Lower(line), ["err", "fail", "exception", "unauthorized", "forbidden"])
      || Contains(line, "500") || Contains(line, "404")
  {
    var msg := Lower(line);
    if Contains(msg, "error") {
      OccursInItself("error", "err", 0);
      ContainsTransitive(msg, "error", "err");
      assert "err" in ["err", "fail", "exception", "unauthorized", "forbidden"];
    }
    if AnyContains(msg, ["err", "fail", "exception", "unauthorized", "forbidden"]) {
      var p :| p in ["err", "fail", "exception", "unauthorized", "forbidden"] && Contains(msg, p);
      assert p in ERROR_PATTERNS;
    }
  }

  /** A call to the authentication API is always an authentication event too. */
  lemma ApiAuthIsAuthEvent(line: string)
    requires Contains(line, "api/auth")
    ensures IsAuthEvent(line) && IsApiEvent(line)
  {
    assert "api/auth" in API_PATTERNS;
    var i := ContainsWitness(line, "api/auth");
    LowerSlice(line, i + 4, i + 8);
    assert line[i + 4..i + 8] == line[i..i + 8][4..];
    assert Lower(line)[i + 4..i + 8] == "auth";
    ContainsAt(Lower(line), "auth", i + 4);
    assert "auth" in AUTH_PATTERNS;
  }

  predicate IsUpper(c: char) {
    'A' <= c <= 'Z'
  }

  /** A pattern with an upper-case letter never occurs in text without one. */
  lemma NoUpperNoMatch(s: string, p: string, k: nat)
    requires forall j :: 0 <= j < |s| ==> !IsUpper(s[j])
    requires k < |p| && IsUpper(p[k])
    ensures !Contains(s, p)
  {
    if Contains(s, p) {
      var i := ContainsWitness(s, p);
      assert false;
    }
  }

  /**
   * The API patterns are case-sensitive: in a line without capitals the
   * request patterns ("GET /api" and so on) never match, and only the
   * lower-case ones can.
   */
  lemma LowerCaseApiEvent(line: string)
    requires forall j :: 0 <= j < |line| ==> !IsUpper(line[j])
    ensures IsApiEvent(line) <==> AnyContains(line, ["api/auth", "callback", "providers", "csrf"])
  {
    NoUpperNoMatch(line, "GET /api", 0);
    NoUpperNoMatch(line, "POST /api", 0);
    NoUpperNoMatch(line, "PUT /api", 0);
    NoUpperNoMatch(line, "DELETE /api", 0);
    if IsApiEvent(line) {
      var p :| p in API_PATTERNS && Contains(line, p);
      assert p in ["api/auth", "callback", "providers", "csrf"];
    }
    if AnyContains(line, ["api/auth", "callback", "providers", "csrf"]) {
      var p :| p in ["api/auth", "callback", "providers", "csrf"] && Contains(line, p);
      assert p in API_PATTERNS;
    }
  }

  // ---------------------------------------------------------------- records

  datatype Tag = AuthEvent | Error | Api {
    function Name(): (name: string)
      ensures ':' !in name && name != ""
    {
      match this
      case AuthEvent => "AUTH_EVENT"
      case Error => "ERROR"
      case Api => "API"
    }
  }

  function ParseTag(name: string): (tag: Option<Tag>)
    ensures tag.Some? ==> tag.value.Name() == name
  {
    if name == "AUTH_EVENT" then Some(AuthEvent)
    else if name == "ERROR" then Some(Error)
    else if name == "API" then Some(Api)
    else None
  }

  /** The record text without its final newline. */
  function FormatLine(timestamp: string, tag: Tag, message: string): string {
    "[" + timestamp + "] " + tag.Name() + ": " + message
  }

  /** The text appended to the auth log for one matching category. */
  function FormatRecord(timestamp: string, tag: Tag, line: string): string {
    FormatLine(timestamp, tag, Trim(line)) + "\n"
  }

  /** The categories a chunk falls into, in the order the handler tests them. */
  function ChunkTags(line: string): (tags: seq<Tag>)
    ensures |tags| <= 3
    ensures AuthEvent in tags <==> IsAuthEvent(line)
    ensures Error in tags <==> IsErrorEvent(line)
    ensures Api in tags <==> IsApiEvent(line)
    ensures forall i, j :: 0 <= i < j < |tags| ==> Rank(tags[i]) < Rank(tags[j])
  {
    (if IsAuthEvent(line) then [AuthEvent] else [])
    + (if IsErrorEvent(line) then [Error] else [])
    + (if IsApiEvent(line) then [Api] else [])
  }

  function Rank(tag: Tag): nat {
    match tag
    case AuthEvent => 0
    case Error => 1
    case Api => 2
  }

  /** The records the stdout handler appends for one chunk, all with the same clock reading. */
  function ChunkRecords(data: string, timestamp: string): (records: seq<string>)
    ensures |records| == |ChunkTags(data)| <= 3
    ensures records == [] <==> !IsAuthEvent(data) && !IsErrorEvent(data) && !IsApiEvent(data)
    ensures forall k :: 0 <= k < |records| ==> records[k] == FormatRecord(timestamp, ChunkTags(data)[k], data)
  {
    var tags := ChunkTags(data);
    seq(|tags|, k requires 0 <= k < |tags| => FormatRecord(timestamp, tags[k], data))
  }

  /** What the auth log holds after the handler has seen one chunk. */
  function AppendChunk(log: string, data: string, timestamp: string): string {
    log + Concat(ChunkRecords(data, timestamp))
  }

  function Concat(parts: seq<string>): string {
    if parts == [] then "" else parts[0] + Concat(parts[1..])
  }

  /** Nothing is written for a chunk that falls into no category. */
  lemma QuietChunk(log: string, data: string, timestamp: string)
    requires !IsAuthEvent(data) && !IsErrorEvent(data) && !IsApiEvent(data)
    ensures AppendChunk(log, data, timestamp) == log
  {
    assert log + "" == log;
  }

  // ---------------------------------------------------------------- reading records back

  /** The text before the first `c`, and the text after it. */
  function SplitOnce(s: string, c: char): (r: Option<(string, string)>)
    ensures r.Some? ==> c !in r.value.0 && s == r.value.0 + [c] + r.value.1
    ensures r.None? <==> c !in s
  {
    if s == [] then None
    else if s[0] == c then Some(([], s[1..]))
    else match SplitOnce(s[1..], c)
      case None => None
      case Some(pair) => Some(([s[0]] + pair.0, pair.1))
  }

  lemma {:induction false} SplitOnceOf(a: string, c: char, b: string)
    requires c !in a
    ensures SplitOnce(a + [c] + b, c) == Some((a, b))
  {
    if a == [] {
      assert (a + [c] + b)[1..] == b;
    } else {
      assert (a + [c] + b)[1..] == a[1..] + [c] + b;
      SplitOnceOf(a[1..], c, b);
      assert [a[0]] + a[1..] == a;
    }
  }

  datatype Record = Record(timestamp: string, tag: Tag, message: string)

  /** Reads one record of the auth log back into its parts. */
  function ParseRecord(text: string): Option<Record> {
    if |text| < 2 || text[0] != '[' || text[|text| - 1] != '\n' then None
    else ParseBracketed(text[1..|text| - 1])
  }

  /** `timestamp] TAG: message`. */
  function ParseBracketed(inner: string): Option<Record> {
    match SplitOnce(inner, ']')
    case None => None
    case Some(pair) =>
      var rest := pair.1;
      if rest == [] || rest[0] != ' ' then None
      else ParseTagged(pair.0, rest[1..])
  }

  /** `TAG: message`. */
  function ParseTagged(timestamp: string, tagged: string): Option<Record> {
    match SplitOnce(tagged, ':')
    case None => None
    case Some(pair) =>
      var body := pair.1;
      if body == [] || body[0] != ' ' then None
      else match ParseTag(pair.0)
        case None => None
        case Some(tag) => Some(Record(timestamp, tag, body[1..]))
  }

  /**
   * Every record reads back as its clock reading, its category and the
   * trimmed chunk, as long as the clock reading holds no `]` (an ISO 8601
   * timestamp never does).
   */
  lemma ParseFormatRecord(timestamp: string, tag: Tag, line: string)
    requires ']' !in timestamp
    ensures ParseRecord(FormatRecord(timestamp, tag, line)) == Some(Record(timestamp, tag, Trim(line)))
  {
    ParseFormatLine(timestamp, tag, Trim(line));
  }

  lemma ParseFormatLine(timestamp: string, tag: Tag, msg: string)
    requires ']' !in timestamp
    ensures ParseRecord(FormatLine(timestamp, tag, msg) + "\n") == Some(Record(timestamp, tag, msg))
  {
    var name := tag.Name();
    var rest := " " + name + ": " + msg;
    var text := FormatLine(timestamp, tag, msg) + "\n";
    assert text == "[" + (timestamp + [']'] + rest) + "\n";
    assert text[1..|text| - 1] == timestamp + [']'] + rest;
    ParseBracketedOf(timestamp, rest, name + ": " + msg);
    ParseTaggedOf(timestamp, tag, msg);
  }

  lemma ParseBracketedOf(timestamp: string, rest: string, tagged: string)
    requires ']' !in timestamp && rest == " " + tagged
    ensures ParseBracketed(timestamp + [']'] + rest) == ParseTagged(timestamp, tagged)
  {
    SplitOnceOf(timestamp, ']', rest);
    assert rest[1..] == tagged;
  }

  lemma ParseTaggedOf(timestamp: string, tag: Tag, msg: string)
    ensures ParseTagged(timestamp, tag.Name() + ": " + msg) == Some(Record(timestamp, tag, msg))
  {
    var name := tag.Name();
    assert name + ": " + msg == name + [':'] + (" " + msg);
    SplitOnceOf(name, ':', " " + msg);
    assert (" " + msg)[1..] == msg;
    assert ParseTag(name) == Some(tag);
  }

  /**
   * Each record the handler appends for a chunk reads back as the clock
   * reading, one of the chunk's categories in the handler's order, and the
   * trimmed chunk.
   */
  lemma ChunkRecordsReadBack(data: string, timestamp: string)
    requires ']' !in timestamp
    ensures var records := ChunkRecords(data, timestamp);
      forall k :: 0 <= k < |records| ==>
        ParseRecord(records[k]) == Some(Record(timestamp, ChunkTags(data)[k], Trim(data)))
  {
    var records := ChunkRecords(data, timestamp);
    forall k | 0 <= k < |records|
      ensures ParseRecord(records[k]) == Some(Record(timestamp, ChunkTags(data)[k], Trim(data)))
    {
      ParseFormatRecord(timestamp, ChunkTags(data)[k], data);
    }
  }

  // ---------------------------------------------------------------- as the log server sees them

  /** The upper-case word `word` appears in `line` at `i`. */
  lemma LoweredWord(line: string, word: string, i: nat, lowered: string)
    requires OccursAt(line, word, i) && Lower(word) == lowered
    ensures Contains(Lower(line), lowered)
  {
    LowerSlice(line, i, i + |word|);
    ContainsAt(Lower(line), lowered, i);
  }

  /** The first line of an ERROR record classifies as an error on the log server. */
  lemma ErrorRecordIsError(timestamp: string, message: string)
    ensures LogMonitor.DetectLogLevel(FormatLine(timestamp, Error, message)) == LogMonitor.Error
  {
    var line := FormatLine(timestamp, Error, message);
    var i := |timestamp| + 3;
    assert line[i..i + 5] == "ERROR";
    assert Lower("ERROR") == "error";
    LoweredWord(line, "ERROR", i, "error");
  }

  /** The first line of an AUTH_EVENT record is never plain information on the log server. */
  lemma AuthRecordIsNotInfo(timestamp: string, message: string)
    ensures LogMonitor.DetectLogLevel(FormatLine(timestamp, AuthEvent, message)) != LogMonitor.Info
  {
    var line := FormatLine(timestamp, AuthEvent, message);
    var i := |timestamp| + 3;
    assert line[i..i + 4] == "AUTH";
    assert Lower("AUTH") == "auth";
    LoweredWord(line, "AUTH", i, "auth");
  }

  /** What the log server's line reader sees first of a record: the tag line up to the chunk's first newline. */
  lemma RecordFirstLine(timestamp: string, tag: Tag, line: string)
    requires '\n' !in timestamp
    ensures Split(FormatRecord(timestamp, tag, line), '\n')[0]
      == FormatLine(timestamp, tag, Split(Trim(line) + "\n", '\n')[0])
  {
    var name := tag.Name();
    assert '\n' !in name by {
      match tag
      case AuthEvent =>
      case Error =>
      case Api =>
    }
    var head := "[" + timestamp + "] " + name + ": ";
    var tail := Trim(line) + "\n";
    assert FormatRecord(timestamp, tag, line) == head + tail;
    assert '\n' !in head;
    SplitFirstPiece(head, tail, '\n');
  }
}
