/**
 * The system-configuration table behind `GET` and `PUT /api/system-config`
 * (app/app/api/system-config/route.ts): values are stored as text, one row
 * per key, and the route turns the JSON values of a request into that text.
 *
 * `JSON.stringify` is a function the caller supplies; numbers are integers.
 */
module SystemConfig {
  import opened Wrappers
  import opened Text
  import opened Seqs
  import Http

  /** A JSON value as a request body carries it. */
  datatype Json =
    | JBool(b: bool)
    | JNum(n: int)
    | JString(s: string)
    | JNull
    | JArray(items: seq<Json>)
    | JObject(fields: seq<(string, Json)>)

  // ---------------------------------------------------------------- numbers as text

  function DigitChar(d: nat): char
    requires d < 10
  {
    ('0' as int + d) as char
  }

  predicate IsDigit(c: char) {
    '0' <= c <= '9'
  }

  /** The decimal digits of `n`, without leading zeros. */
  function NatToString(n: nat): (s: string)
    ensures |s| >= 1 && forall k :: 0 <= k < |s| ==> IsDigit(s[k])
    decreases n
  {
    if n < 10 then [DigitChar(n)] else NatToString(n / 10) + [DigitChar(n % 10)]
  }

  /** `String(n)` for an integer. */
  function IntToString(n: int): string {
    if n < 0 then "-" + NatToString(-n) else NatToString(n)
  }

  /** The value of a string of decimal digits. */
  function DigitsValue(s: string): nat
    requires forall k :: 0 <= k < |s| ==> IsDigit(s[k])
  {
    if s == [] then 0
    else
      assert IsDigit(s[|s| - 1]);
      10 * DigitsValue(s[..|s| - 1]) + (s[|s| - 1] as int - '0' as int)
  }

  lemma {:induction false} DigitsValueOfNat(n: nat)
    ensures DigitsValue(NatToString(n)) == n
    decreases n
  {
    if n >= 10 {
      var s := NatToString(n);
      assert s[..|s| - 1] == NatToString(n / 10);
      DigitsValueOfNat(n / 10);
    }
  }

  // ---------------------------------------------------------------- the route's encoding

  /**
   * The text stored for a request value: booleans as "true"/"false", objects
   * (arrays and `null` included, since `typeof null` is "object") as JSON,
   * numbers and strings through `String`.
   */
  function EncodeValue(v: Json, stringify: Json -> string): (text: string)
    ensures v.JBool? ==> (text == "true" <==> v.b) && (text == "false" <==> !v.b)
    ensures v.JString? ==> text == v.s
    ensures (v.JArray? || v.JObject? || v.JNull?) ==> text == stringify(v)
  {
    match v
    case JBool(b) => if b then "true" else "false"
    case JNum(n) => IntToString(n)
    case JString(s) => s
    case _ => stringify(v)
  }

  datatype ConfigRow = ConfigRow(
    key: string,
    value: string,
    description: Option<string>,
    dataType: string,
    category: Option<string>,
    updatedAt: int)

  /** The request body as `Object.entries` lists it; a later entry for the same key wins. */
  function BodyMap(entries: seq<(string, Json)>): map<string, Json> {
    if entries == [] then map[]
    else
      var last := entries[|entries| - 1];
      BodyMap(entries[..|entries| - 1])[last.0 := last.1]
  }

  /** `Object.keys` of the body. */
  function BodyKeys(entries: seq<(string, Json)>): (keys: seq<string>)
    ensures |keys| == |entries| && forall i :: 0 <= i < |entries| ==> keys[i] == entries[i].0
  {
    seq(|entries|, i requires 0 <= i < |entries| => entries[i].0)
  }

  lemma {:induction false} BodyMapKeys(entries: seq<(string, Json)>)
    ensures forall k :: k in BodyMap(entries) <==> k in BodyKeys(entries)
  {
    if entries != [] {
      var init := entries[..|entries| - 1];
      BodyMapKeys(init);
      assert BodyKeys(entries) == BodyKeys(init) + [entries[|entries| - 1].0];
    }
  }

  /** A row after the update its key receives, if the body names it. */
  function Updated(row: ConfigRow, body: map<string, Json>, stringify: Json -> string, now: int): ConfigRow {
    if row.key in body then row.(value := EncodeValue(body[row.key], stringify), updatedAt := now) else row
  }

  predicate UniqueRowKeys(rows: seq<ConfigRow>) {
    forall i, j :: 0 <= i < j < |rows| ==> rows[i].key != rows[j].key
  }

  /** The row `update({ where: { key } })` addresses. */
  function FindKey(rows: seq<ConfigRow>, key: string): (i: Option<nat>)
    ensures i.Some? ==> i.value < |rows| && rows[i.value].key == key
    ensures i.None? ==> forall j :: 0 <= j < |rows| ==> rows[j].key != key
  {
    if rows == [] then None
    else if rows[0].key == key then Some(0)
    else match FindKey(rows[1..], key)
      case None => None
      case Some(j) => Some(j + 1)
  }

  /** Every entry of the body names a row the table holds. */
  predicate KnownKeys(rows: seq<ConfigRow>, entries: seq<(string, Json)>) {
    forall k :: 0 <= k < |entries| ==> FindKey(rows, entries[k].0).Some?
  }

  /** The table after one `update`: the row with that key, if any, gets the encoded value. */
  function ApplyEntry(rows: seq<ConfigRow>, key: string, value: Json, stringify: Json -> string, now: int): (r: seq<ConfigRow>)
    ensures |r| == |rows|
  {
    match FindKey(rows, key)
    case None => rows
    case Some(i) => rows[i := rows[i].(value := EncodeValue(value, stringify), updatedAt := now)]
  }

  /** One more entry of the body carries the table from one prefix's updates to the next. */
  lemma ApplyEntryStep(orig: seq<ConfigRow>, rows: seq<ConfigRow>, body: map<string, Json>,
                       key: string, value: Json, stringify: Json -> string, now: int)
    requires |rows| == |orig| && UniqueRowKeys(rows)
    requires forall i :: 0 <= i < |rows| ==> rows[i] == Updated(orig[i], body, stringify, now)
    ensures var r := ApplyEntry(rows, key, value, stringify, now);
      && UniqueRowKeys(r)
      && forall i :: 0 <= i < |r| ==> r[i] == Updated(orig[i], body[key := value], stringify, now)
  {
    var r := ApplyEntry(rows, key, value, stringify, now);
    forall i | 0 <= i < |r| ensures r[i] == Updated(orig[i], body[key := value], stringify, now) {
      assert rows[i].key == orig[i].key;
    }
    assert forall i :: 0 <= i < |r| ==> r[i].key == rows[i].key;
  }

  // ---------------------------------------------------------------- ordering

  /** Code-unit order on strings. */
  predicate StrLe(a: string, b: string) {
    a == [] || (b != [] && (a[0] < b[0] || (a[0] == b[0] && StrLe(a[1..], b[1..]))))
  }

  lemma {:induction false} StrLeTotal(a: string, b: string)
    ensures StrLe(a, b) || StrLe(b, a)
  {
    if a != [] && b != [] && a[0] == b[0] {
      StrLeTotal(a[1..], b[1..]);
    }
  }

  /** Ascending by category, an absent category last, then ascending by key. */
  function CategoryThenKey(a: ConfigRow, b: ConfigRow): bool {
    if a.category == b.category then StrLe(a.key, b.key)
    else if a.category.None? then false
    else if b.category.None? then true
    else StrLe(a.category.value, b.category.value)
  }

  lemma CategoryThenKeyTotal()
    ensures Total(CategoryThenKey)
  {
    forall a: ConfigRow, b: ConfigRow ensures CategoryThenKey(a, b) || CategoryThenKey(b, a) {
      StrLeTotal(a.key, b.key);
      if a.category.Some? && b.category.Some? {
        StrLeTotal(a.category.value, b.category.value);
      }
    }
  }

  /** The `GET` listing: every row once, ordered by category and then key. */
  lemma ListingOrdered(rows: seq<ConfigRow>)
    ensures Ordered(CategoryThenKey, SortBy(CategoryThenKey, rows))
    ensures multiset(SortBy(CategoryThenKey, rows)) == multiset(rows)
  {
    CategoryThenKeyTotal();
    SortByOrdered(CategoryThenKey, rows);
  }

  // ---------------------------------------------------------------- the store

  datatype AuditEntry = AuditEntry(userId: string, action: string, updatedKeys: seq<string>)

  datatype ListResponse = Configs(rows: seq<ConfigRow>) | ListFail(code: int, body: Http.ErrorBody)

  datatype PutResponse = Saved(message: string) | PutFail(code: int, body: Http.ErrorBody)

  class ConfigStore {
    var rows: seq<ConfigRow>
    var audit: seq<AuditEntry>

    ghost predicate Valid()
      reads this
    {
      UniqueRowKeys(rows)
    }

    constructor (initial: seq<ConfigRow>)
      requires UniqueRowKeys(initial)
      ensures Valid() && rows == initial && audit == []
    {
      rows := initial;
      audit := [];
    }

    /** `GET /api/system-config`. */
    method Get(userId: Option<string>) returns (resp: ListResponse)
      ensures !Http.SignedIn(userId) ==> resp == ListFail(Http.UNAUTHORIZED, Http.RouteError("Unauthorized"))
      ensures Http.SignedIn(userId) ==> resp == Configs(SortBy(CategoryThenKey, rows))
    {
      if !Http.SignedIn(userId) {
        return ListFail(Http.UNAUTHORIZED, Http.RouteError("Unauthorized"));
      }
      resp := Configs(SortBy(CategoryThenKey, rows));
    }

    /**
     * `PUT /api/system-config`. The updates run one after another here; every
     * key the table holds is updated either way, and a key it does not hold
     * makes the request fail with 500 and no audit entry, as the rejected
     * `Promise.all` does.
     */
    method Put(userId: Option<string>, entries: seq<(string, Json)>, stringify: Json -> string, now: int)
      returns (resp: PutResponse)
      requires Valid()
      modifies this
      ensures Valid()
      ensures !Http.SignedIn(userId) ==>
        resp == PutFail(Http.UNAUTHORIZED, Http.RouteError("Unauthorized")) && rows == old(rows) && audit == old(audit)
      ensures Http.SignedIn(userId) ==>
        && |rows| == |old(rows)|
        && (forall i :: 0 <= i < |rows| ==> rows[i] == Updated(old(rows)[i], BodyMap(entries), stringify, now))
      ensures Http.SignedIn(userId) && KnownKeys(old(rows), entries) ==>
        resp == Saved("Configuration updated successfully")
        && audit == old(audit) + [AuditEntry(userId.value, "system_config_updated", BodyKeys(entries))]
      ensures Http.SignedIn(userId) && !KnownKeys(old(rows), entries) ==>
        resp == PutFail(Http.SERVER_ERROR, Http.RouteError("Internal server error")) && audit == old(audit)
    {
      if !Http.SignedIn(userId) {
        return PutFail(Http.UNAUTHORIZED, Http.RouteError("Unauthorized"));
      }
      var failed := false;
      var j := 0;
      while j < |entries|
        invariant 0 <= j <= |entries|
        invariant |rows| == |old(rows)| && UniqueRowKeys(rows)
        invariant forall i :: 0 <= i < |rows| ==> rows[i] == Updated(old(rows)[i], BodyMap(entries[..j]), stringify, now)
        invariant !failed <==> KnownKeys(old(rows), entries[..j])
        invariant audit == old(audit)
      {
        var (key, value) := entries[j];
        PrefixStep(old(rows), rows, entries, j, stringify, now);
        if FindKey(rows, key).None? {
          failed := true;
        }
        rows := ApplyEntry(rows, key, value, stringify, now);
        j := j + 1;
      }
      assert entries[..j] == entries;
      if failed {
        return PutFail(Http.SERVER_ERROR, Http.RouteError("Internal server error"));
      }
      audit := audit + [AuditEntry(userId.value, "system_config_updated", BodyKeys(entries))];
      resp := Saved("Configuration updated successfully");
    }
  }

  /** The loop step of `Put`, entry `j` of the body. */
  lemma PrefixStep(orig: seq<ConfigRow>, rows: seq<ConfigRow>, entries: seq<(string, Json)>, j: nat,
                   stringify: Json -> string, now: int)
    requires j < |entries| && |rows| == |orig| && UniqueRowKeys(rows)
    requires forall i :: 0 <= i < |rows| ==> rows[i] == Updated(orig[i], BodyMap(entries[..j]), stringify, now)
    ensures var r := ApplyEntry(rows, entries[j].0, entries[j].1, stringify, now);
      && UniqueRowKeys(r)
      && (forall i :: 0 <= i < |r| ==> r[i] == Updated(orig[i], BodyMap(entries[..j + 1]), stringify, now))
      && (KnownKeys(orig, entries[..j + 1]) <==> KnownKeys(orig, entries[..j]) && FindKey(rows, entries[j].0).Some?)
  {
    var (key, value) := entries[j];
    assert entries[..j + 1][..j] == entries[..j];
    assert BodyMap(entries[..j + 1]) == BodyMap(entries[..j])[key := value];
    SameKeys(orig, rows, BodyMap(entries[..j]), stringify, now, key);
    ApplyEntryStep(orig, rows, BodyMap(entries[..j]), key, value, stringify, now);
    KnownKeysStep(orig, entries, j);
  }

  /** One more entry of the body is known iff the entries so far are and its own key is. */
  lemma KnownKeysStep(rows: seq<ConfigRow>, entries: seq<(string, Json)>, j: nat)
    requires j < |entries|
    ensures KnownKeys(rows, entries[..j + 1]) <==> KnownKeys(rows, entries[..j]) && FindKey(rows, entries[j].0).Some?
  {
    assert forall k :: 0 <= k <= j ==> entries[..j + 1][k] == entries[k];
    assert forall k :: 0 <= k < j ==> entries[..j][k] == entries[k];
  }

  /** Updating values never changes which keys the rows hold. */
  lemma SameKeys(before: seq<ConfigRow>, after: seq<ConfigRow>, body: map<string, Json>, stringify: Json -> string, now: int, key: string)
    requires |after| == |before|
    requires forall i :: 0 <= i < |after| ==> after[i] == Updated(before[i], body, stringify, now)
    ensures FindKey(after, key).None? <==> FindKey(before, key).None?
  {
    if FindKey(after, key).Some? {
      var i := FindKey(after, key).value;
      assert before[i].key == after[i].key;
    }
    if FindKey(before, key).Some? {
      var i := FindKey(before, key).value;
      assert before[i].key == after[i].key;
    }
  }
}
