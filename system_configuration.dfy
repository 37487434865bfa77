/**
 * The system-configuration page (app/components/system-configuration.tsx):
 * decoding the stored text back into values, the map of values being edited,
 * the notification-method switches, the grouping into sections, the labels
 * built from keys and the slider chosen for a number.
 *
 * `JSON.parse` is a function the caller supplies; `None` is a parse that
 * throws.
 */
module SystemConfiguration {
  import opened Wrappers
  import opened Text
  import opened Seqs
  import opened SystemConfig

  // ---------------------------------------------------------------- decoding

  /** The longest prefix of `s` made of decimal digits. */
  function DigitPrefix(s: string): (d: string)
    ensures d <= s
    ensures forall k :: 0 <= k < |d| ==> IsDigit(d[k])
    ensures |d| < |s| ==> !IsDigit(s[|d|])
  {
    if s != [] && IsDigit(s[0]) then [s[0]] + DigitPrefix(s[1..]) else []
  }

  lemma {:induction false} DigitPrefixOfDigits(s: string)
    requires forall k :: 0 <= k < |s| ==> IsDigit(s[k])
    ensures DigitPrefix(s) == s
  {
    if s != [] {
      DigitPrefixOfDigits(s[1..]);
    }
  }

  /**
   * `parseFloat(text) || 0` for integer text: leading white space and one
   * sign are skipped and the leading digits read; text with no leading digit
   * gives 0.
   */
  function ParseNumber(text: string): (n: int)
    ensures var t := TrimStart(text);
      (t == [] || (!IsDigit(t[0]) && t[0] != '-' && t[0] != '+')) ==> n == 0
  {
    var t := TrimStart(text);
    var negative := t != [] && t[0] == '-';
    var unsigned := if t != [] && (t[0] == '-' || t[0] == '+') then t[1..] else t;
    var value: int := DigitsValue(DigitPrefix(unsigned));
    if negative then -value else value
  }

  /** Text that starts with a digit or a minus sign has no white space to skip. */
  lemma TrimStartOfNumber(text: string)
    requires text != [] && (text[0] == '-' || IsDigit(text[0]))
    ensures TrimStart(text) == text
  {
    assert !IsWhitespace(text[0]);
  }

  /** The number a stored integer's text reads back as. */
  lemma NumberRoundTrip(n: int)
    ensures ParseNumber(IntToString(n)) == n
  {
    var m: nat := if n < 0 then -n else n;
    var digits := NatToString(m);
    DigitPrefixOfDigits(digits);
    DigitsValueOfNat(m);
    var text := IntToString(n);
    if n < 0 {
      assert text == "-" + digits;
      TrimStartOfNumber(text);
      assert text[1..] == digits;
    } else {
      assert text == digits;
      TrimStartOfNumber(text);
    }
  }

  /** The value `fetchConfigs` stores for one row, by the row's `dataType`. */
  function DecodeValue(row: ConfigRow, parse: string -> Option<Json>): (v: Json)
    ensures row.dataType == "boolean" ==> v.JBool? && (v.b <==> row.value == "true")
    ensures row.dataType == "number" ==> v.JNum?
    ensures row.dataType == "json" && parse(row.value).None? ==> v == JArray([])
    ensures row.dataType !in ["boolean", "number", "json"] ==> v == JString(row.value)
  {
    match row.dataType
    case "boolean" => JBool(row.value == "true")
    case "number" => JNum(ParseNumber(row.value))
    case "json" => (match parse(row.value) case Some(j) => j case None => JArray([]))
    case _ => JString(row.value)
  }

  /** The value kinds a `dataType` decodes to without loss. */
  predicate KindMatches(dataType: string, v: Json) {
    match dataType
    case "boolean" => v.JBool?
    case "number" => v.JNum?
    case "json" => v.JArray? || v.JObject? || v.JNull?
    case _ => v.JString?
  }

  /**
   * What the `PUT` route stores for a value, the page decodes back to that
   * value, as long as the row's `dataType` is of the value's kind and
   * `JSON.parse` undoes `JSON.stringify`.
   */
  lemma StoredValueDecodes(row: ConfigRow, body: map<string, Json>, stringify: Json -> string,
                           parse: string -> Option<Json>, now: int)
    requires row.key in body && KindMatches(row.dataType, body[row.key])
    requires parse(stringify(body[row.key])) == Some(body[row.key])
    ensures DecodeValue(Updated(row, body, stringify, now), parse) == body[row.key]
  {
    var v := body[row.key];
    if v.JNum? {
      NumberRoundTrip(v.n);
    }
  }

  /** One entry per row, the value given by `decode`, a later row winning. */
  function KeyedBy(rows: seq<ConfigRow>, decode: ConfigRow -> Json): map<string, Json> {
    if rows == [] then map[]
    else
      var last := rows[|rows| - 1];
      KeyedBy(rows[..|rows| - 1], decode)[last.key := decode(last)]
  }

  /** The map has an entry for exactly the keys the rows hold. */
  lemma {:induction false} KeyedByKeys(rows: seq<ConfigRow>, decode: ConfigRow -> Json)
    ensures forall k :: k in KeyedBy(rows, decode) <==> exists i :: 0 <= i < |rows| && rows[i].key == k
  {
    if rows != [] {
      var init, last := rows[..|rows| - 1], rows[|rows| - 1];
      KeyedByKeys(init, decode);
      forall k | k in KeyedBy(rows, decode) ensures exists i :: 0 <= i < |rows| && rows[i].key == k {
        if k != last.key {
          assert k in KeyedBy(init, decode);
          var i :| 0 <= i < |init| && init[i].key == k;
          assert rows[i] == init[i];
        }
      }
      forall k | (exists i :: 0 <= i < |rows| && rows[i].key == k) ensures k in KeyedBy(rows, decode) {
        var i :| 0 <= i < |rows| && rows[i].key == k;
        if i < |init| {
          assert init[i] == rows[i];
        }
      }
    }
  }

  /** With distinct keys, every row is found under its key with its own decoded value. */
  lemma {:induction false} KeyedByLookup(rows: seq<ConfigRow>, decode: ConfigRow -> Json)
    requires UniqueRowKeys(rows)
    ensures forall i :: 0 <= i < |rows| ==> rows[i].key in KeyedBy(rows, decode)
    ensures forall i :: 0 <= i < |rows| ==> KeyedBy(rows, decode)[rows[i].key] == decode(rows[i])
  {
    if rows != [] {
      var init, last := rows[..|rows| - 1], rows[|rows| - 1];
      assert UniqueRowKeys(init);
      KeyedByLookup(init, decode);
      forall i | 0 <= i < |init| ensures rows[i] == init[i] && rows[i].key != last.key {
      }
    }
  }

  function Decoder(parse: string -> Option<Json>): ConfigRow -> Json {
    (row: ConfigRow) => DecodeValue(row, parse)
  }

  /** The `values` record `fetchConfigs` builds: one entry per row, a later row winning. */
  function DecodeAll(rows: seq<ConfigRow>, parse: string -> Option<Json>): map<string, Json> {
    KeyedBy(rows, Decoder(parse))
  }

  /**
   * The value map has an entry for exactly the keys the rows hold; with
   * distinct keys each holds its own row's decoded value.
   */
  lemma DecodeAllLookup(rows: seq<ConfigRow>, parse: string -> Option<Json>)
    ensures forall k :: k in DecodeAll(rows, parse) <==> exists i :: 0 <= i < |rows| && rows[i].key == k
    ensures UniqueRowKeys(rows) ==>
      forall i :: 0 <= i < |rows| ==> DecodeAll(rows, parse)[rows[i].key] == DecodeValue(rows[i], parse)
  {
    KeyedByKeys(rows, Decoder(parse));
    if UniqueRowKeys(rows) {
      KeyedByLookup(rows, Decoder(parse));
    }
  }

  // ---------------------------------------------------------------- notification methods

  /** The switch of a method is on when the list holds it. */
  predicate MethodOn(methods: seq<Json>, name: string) {
    JString(name) in methods
  }

  /** The list after a method's switch is flipped to `checked`. */
  function ToggleMethod(methods: seq<Json>, name: string, checked: bool): (r: seq<Json>)
    ensures checked ==> r == methods + [JString(name)] && MethodOn(r, name)
    ensures !checked ==> !MethodOn(r, name) && IsSubsequence(r, methods)
    ensures !checked ==> forall m :: m != JString(name) ==> (m in r <==> m in methods)
  {
    if checked then methods + [JString(name)]
    else
      var keep := (m: Json) => m != JString(name);
      FilterIsSubsequence(keep, methods);
      assert forall m :: m != JString(name) && m in methods ==> m in Filter(keep, methods) by {
        forall m | m != JString(name) && m in methods ensures m in Filter(keep, methods) {
          FilterKeeps(keep, methods, m);
        }
      }
      Filter(keep, methods)
  }

  /** Switching a method on and off again restores a list that did not hold it. */
  lemma ToggleOnOff(methods: seq<Json>, name: string)
    requires !MethodOn(methods, name)
    ensures ToggleMethod(ToggleMethod(methods, name, true), name, false) == methods
  {
    var keep := (m: Json) => m != JString(name);
    FilterAppend(keep, methods, [JString(name)]);
    FilterAll(keep, methods);
  }

  // ---------------------------------------------------------------- sections

  datatype Section = Section(title: string, description: string, configs: seq<ConfigRow>)

  /** `!c.category`: no category, or the empty one. */
  predicate Falsy(category: Option<string>) {
    category.None? || category.value == ""
  }

  /** The index of the section a category belongs to, if any. */
  function SectionOf(category: Option<string>): (k: Option<nat>)
    ensures k.Some? ==> k.value < 4
  {
    if category == Some("processing") then Some(0)
    else if category == Some("notification") then Some(1)
    else if category == Some("classification") then Some(2)
    else if Falsy(category) then Some(3)
    else None
  }

  /** `configSections`. */
  function Sections(configs: seq<ConfigRow>): (r: seq<Section>)
    ensures |r| == 4
  {
    [ Section("Email Processing", "Configure email processing intervals and batch sizes",
              Filter((c: ConfigRow) => c.category == Some("processing"), configs)),
      Section("Notifications", "Manage notification preferences and delivery methods",
              Filter((c: ConfigRow) => c.category == Some("notification"), configs)),
      Section("Classification", "AI classification settings and confidence thresholds",
              Filter((c: ConfigRow) => c.category == Some("classification"), configs)),
      Section("Other Settings", "Additional system configuration options",
              Filter((c: ConfigRow) => Falsy(c.category), configs)) ]
  }

  /**
   * A config is listed in section `k` exactly when it is one of the configs
   * and its category belongs to `k`; so it is listed at most once, and not at
   * all when its category is another one.
   */
  lemma SectionsPartition(configs: seq<ConfigRow>, c: ConfigRow, k: nat)
    requires k < 4
    ensures c in Sections(configs)[k].configs <==> c in configs && SectionOf(c.category) == Some(k)
    ensures IsSubsequence(Sections(configs)[k].configs, configs)
  {
    var preds := [
      (c: ConfigRow) => c.category == Some("processing"),
      (c: ConfigRow) => c.category == Some("notification"),
      (c: ConfigRow) => c.category == Some("classification"),
      (c: ConfigRow) => Falsy(c.category)];
    assert Sections(configs)[k].configs == Filter(preds[k], configs);
    FilterIsSubsequence(preds[k], configs);
    if c in configs && SectionOf(c.category) == Some(k) {
      FilterKeeps(preds[k], configs, c);
    }
  }

  /** The sections rendered: those with at least one config, in their order. */
  function VisibleSections(configs: seq<ConfigRow>): (r: seq<Section>)
    ensures IsSubsequence(r, Sections(configs))
    ensures forall s :: s in r <==> s in Sections(configs) && s.configs != []
  {
    var nonEmpty := (s: Section) => s.configs != [];
    FilterIsSubsequence(nonEmpty, Sections(configs));
    assert forall s :: s in Sections(configs) && s.configs != [] ==> s in Filter(nonEmpty, Sections(configs)) by {
      forall s | s in Sections(configs) && s.configs != [] ensures s in Filter(nonEmpty, Sections(configs)) {
        FilterKeeps(nonEmpty, Sections(configs), s);
      }
    }
    Filter(nonEmpty, Sections(configs))
  }

  // ---------------------------------------------------------------- labels

  /** A word with its first character upper-cased. */
  function Capitalize(w: string): (r: string)
    ensures |r| == |w|
  {
    if w == [] then [] else [UpperChar(w[0])] + w[1..]
  }

  function CapitalizeAll(words: seq<string>): (r: seq<string>)
    ensures |r| == |words|
    ensures forall k :: 0 <= k < |words| ==> r[k] == Capitalize(words[k])
  {
    if words == [] then [] else [Capitalize(words[0])] + CapitalizeAll(words[1..])
  }

  /** The label shown for a key: split on "_", each word capitalised, joined with spaces. */
  function FormatLabel(key: string): string {
    Join(CapitalizeAll(Split(key, '_')), " ")
  }

  /**
   * Character `i` of the label of `key`: an underscore becomes a space, a
   * character that starts the key or follows an underscore is upper-cased,
   * every other character is kept.
   */
  function LabelChar(key: string, i: nat): char
    requires i < |key|
  {
    if key[i] == '_' then ' '
    else if i == 0 || key[i - 1] == '_' then UpperChar(key[i])
    else key[i]
  }

  lemma {:induction false} LabelOfWords(words: seq<string>)
    requires forall k :: 0 <= k < |words| ==> '_' !in words[k]
    ensures |Join(CapitalizeAll(words), " ")| == |Join(words, "_")|
    ensures forall i :: 0 <= i < |Join(words, "_")| ==>
      Join(CapitalizeAll(words), " ")[i] == LabelChar(Join(words, "_"), i)
  {
    if |words| == 1 {
      var w := words[0];
      assert forall i :: 0 <= i < |w| ==> w[i] != '_' by {
        forall i | 0 <= i < |w| ensures w[i] != '_' {
          assert w[i] in w;
        }
      }
    } else if |words| > 1 {
      var w, rest := words[0], words[1..];
      LabelOfWords(rest);
      assert CapitalizeAll(words)[1..] == CapitalizeAll(rest);
      var key, shown := Join(words, "_"), Join(CapitalizeAll(words), " ");
      var key', shown' := Join(rest, "_"), Join(CapitalizeAll(rest), " ");
      assert key == w + "_" + key';
      assert shown == Capitalize(w) + " " + shown';
      forall i | 0 <= i < |key| ensures shown[i] == LabelChar(key, i) {
        if i < |w| {
          assert w[i] in w;
          if i > 0 {
            assert w[i - 1] in w;
          }
        } else if i > |w| {
          var j := i - |w| - 1;
          assert key[i] == key'[j] && shown[i] == shown'[j];
          if j > 0 {
            assert key[i - 1] == key'[j - 1];
          }
        }
      }
    }
  }

  /** The label keeps the key's length and is fixed character by character. */
  lemma FormatLabelChars(key: string)
    ensures |FormatLabel(key)| == |key|
    ensures forall i :: 0 <= i < |key| ==> FormatLabel(key)[i] == LabelChar(key, i)
  {
    JoinSplit(key, '_');
    LabelOfWords(Split(key, '_'));
  }

  // ---------------------------------------------------------------- number inputs

  /** How a number is edited: a slider over `[min, max]`, or a plain field. */
  datatype NumberInput = Slider(min: int, max: int) | Field

  /** Slider ends are exact; the threshold slider's step of 0.01 is not modelled. */
  function NumberInputFor(key: string): (input: NumberInput)
    ensures input.Slider? <==> Contains(key, "interval") || Contains(key, "threshold")
    ensures Contains(key, "threshold") ==> input == Slider(0, 1)
    ensures !Contains(key, "threshold") && Contains(key, "interval") ==> input == Slider(0, 3600)
  {
    if Contains(key, "interval") || Contains(key, "threshold") then
      Slider(0, if Contains(key, "threshold") then 1 else 3600)
    else Field
  }

  // ---------------------------------------------------------------- the page state

  class ConfigPanel {
    var configs: seq<ConfigRow>
    var configValues: map<string, Json>
    var loading: bool

    constructor ()
      ensures configs == [] && configValues == map[] && loading
    {
      configs := [];
      configValues := map[];
      loading := true;
    }

    /**
     * `fetchConfigs`. `ok` is false when the request throws or answers with
     * an error; the listing is `data`.
     */
    method FetchConfigs(ok: bool, data: seq<ConfigRow>, parse: string -> Option<Json>)
      modifies this
      ensures ok ==> configs == data && configValues == DecodeAll(data, parse)
      ensures !ok ==> configs == old(configs) && configValues == old(configValues)
      ensures !loading
    {
      if ok {
        configs := data;
        var values: map<string, Json> := map[];
        var i := 0;
        while i < |data|
          invariant 0 <= i <= |data|
          invariant values == DecodeAll(data[..i], parse)
        {
          assert data[..i + 1][..i] == data[..i];
          assert Decoder(parse)(data[i]) == DecodeValue(data[i], parse);
          values := values[data[i].key := DecodeValue(data[i], parse)];
          i := i + 1;
        }
        assert data[..i] == data;
        configValues := values;
      }
      loading := false;
    }

    /** `updateConfigValue`: the one key takes the new value, every other entry stays. */
    method UpdateConfigValue(key: string, value: Json)
      modifies this
      ensures key in configValues && configValues[key] == value
      ensures forall k :: k != key ==> (k in configValues <==> k in old(configValues))
      ensures forall k :: k != key && k in old(configValues) ==> configValues[k] == old(configValues)[k]
      ensures configs == old(configs) && loading == old(loading)
    {
      configValues := configValues[key := value];
    }
  }
}
