/** The recursive sanitiser of pilot reports and the redaction of sensitive values below it. Texts
    are plain or URLs that are already split; surrounding whitespace of URLs is not modelled. */
module Sanitizer {
  import opened JsonValues
  import opened Texts

  /** A host and port. `Bracketed` is an IPv6 address; `Broken` is what no port can be read from, so
      that asking for it raises. */
  datatype Host = Named(name: string, port: string) | Bracketed(address: string, port: string) | Broken(text: string)

  datatype Url = Url(scheme: string, user: Option<string>, password: Option<string>, host: Host, rest: string)

  datatype Text = Plain(s: string) | Link(url: Url)

  datatype Value =
    | Nil
    | Flag(b: bool)
    | Number(n: real)
    | Textual(text: Text)
    | Items(items: seq<Value>)
    | Object(fields: seq<Entry>)

  datatype Entry = Entry(key: string, value: Value)

  // ---------- Keys ----------

  function LowerChar(c: char): char {
    if 'A' <= c <= 'Z' then ((c as int) + 32) as char else c
  }

  function Lower(s: string): string {
    seq(|s|, i requires 0 <= i < |s| => LowerChar(s[i]))
  }

  predicate ContainsAny(text: string, parts: seq<string>) {
    exists k | 0 <= k < |parts| :: Contains(text, parts[k])
  }

  const SENSITIVE_PATTERNS: seq<string> :=
    ["token", "api_key", "apikey", "secret", "password", "authorization", "cookie", "jwt", "database_url", "redis_url", "key"]

  const PROMPT_PATTERNS: seq<string> := ["prompt", "query", "user_query", "raw_prompt", "sql_prompt", "input", "messages"]

  const SAFE_KEYS: seq<string> :=
    ["prompt_tokens", "completion_tokens", "total_tokens", "prompt_tokens_total", "completion_tokens_total",
     "total_tokens_total", "api_key_present", "cache_hit", "budget_action", "latency_ms", "cost", "request_id", "provider",
     "model", "base_url_summary", "fallback_reason", "error_type", "outcome", "audit_event_id", "audit_event_type",
     "runtime_metric_keys", "log_request_id", "trace_id", "report_artifacts", "evidence_notes", "score", "passed",
     "confidence", "judge_provider"]

  const REPORT_PARTS: seq<string> := ["evidence_links", "observability", "detail"]

  predicate IsPromptLike(key: string) {
    Lower(key) !in SAFE_KEYS && ContainsAny(Lower(key), PROMPT_PATTERNS)
  }

  predicate IsSensitive(key: string) {
    Lower(key) !in SAFE_KEYS && ContainsAny(Lower(key), SENSITIVE_PATTERNS)
  }

  /** The rule below a sensitive key: no key is safe there. */
  predicate IsLogSensitive(key: string) {
    ContainsAny(Lower(key), SENSITIVE_PATTERNS)
  }

  // ---------- Texts ----------

  predicate IsDatabase(scheme: string) {
    scheme in ["postgresql", "postgresql+psycopg", "redis"]
  }

  /** The host of a rebuilt URL. Its name is lower-cased; the brackets of an IPv6 address are lost,
      and no port can be read from what is left. None stands for the exception. */
  function RebuiltHost(host: Host): Option<Host> {
    match host
    case Named(name, port) => Some(Named(Lower(name), port))
    case Bracketed(address, port) => Some(Broken(address + ":" + port))
    case Broken(_) => None
  }

  function WithoutPassword(url: Url): Option<Url> {
    var host := RebuiltHost(url.host);
    var user := if url.user.Some? && url.user.value != "" then url.user.value else "user";
    if host.None? then None else Some(Url(url.scheme, Some(user), Some("***"), host.value, url.rest))
  }

  /** `_redact_dsn_if_needed`. */
  function RedactDsn(text: Text): Option<Text> {
    if text.Link? && IsDatabase(text.url.scheme) && text.url.password.Some? then
      var url := WithoutPassword(text.url);
      if url.None? then None else Some(Link(url.value))
    else Some(text)
  }

  function Print(url: Url): string {
    var userinfo := (if url.user.Some? then url.user.value else "") + (if url.password.Some? then ":" + url.password.value else "");
    var at := if url.user.Some? || url.password.Some? then "@" else "";
    var host := match url.host
      case Named(name, port) => name + port
      case Bracketed(address, port) => "[" + address + "]" + port
      case Broken(text) => text;
    url.scheme + "://" + userinfo + at + host + url.rest
  }

  /** `_mask_plain_text`. */
  function MaskPlain(s: string): string {
    var cleaned := Strip(s);
    if |cleaned| <= 4 then "***" else cleaned[..2] + "***" + cleaned[|cleaned| - 2..]
  }

  /** A text under a sensitive key. */
  function RedactText(text: Text): Option<Text> {
    match text
    case Plain(s) => Some(Plain(MaskPlain(s)))
    case Link(url) =>
      if !IsDatabase(url.scheme) then Some(Plain(MaskPlain(Print(url))))
      else if url.user.None? && url.password.None? then Some(text)
      else
        var safe := WithoutPassword(url);
        if safe.None? then None else Some(Link(safe.value))
  }

  // ---------- Below a sensitive key ----------

  /** `redact_sensitive_value`. */
  function Redact(v: Value): Option<Value>
    decreases v
  {
    match v
    case Nil => Some(Nil)
    case Flag(_) => Some(Textual(Plain("***")))
    case Number(_) => Some(Textual(Plain("***")))
    case Textual(text) =>
      var r := RedactText(text);
      if r.None? then None else Some(Textual(r.value))
    case Items(items) =>
      var r := RedactItems(items);
      if r.None? then None else Some(Items(r.value))
    case Object(fields) =>
      var r := RedactFields(fields);
      if r.None? then None else Some(Object(r.value))
  }

  function RedactItems(items: seq<Value>): Option<seq<Value>>
    decreases items
  {
    if items == [] then Some([])
    else
      var first, rest := Redact(items[0]), RedactItems(items[1..]);
      if first.None? || rest.None? then None else Some([first.value] + rest.value)
  }

  /** `redact_mapping`. */
  function RedactFields(fields: seq<Entry>): Option<seq<Entry>>
    decreases fields
  {
    if fields == [] then Some([])
    else
      var first, rest := RedactField(fields[0]), RedactFields(fields[1..]);
      if first.None? || rest.None? then None else Some([Entry(fields[0].key, first.value)] + rest.value)
  }

  function RedactField(e: Entry): Option<Value>
    decreases e
  {
    if IsLogSensitive(e.key) then Redact(e.value) else RedactOrdinary(e.value)
  }

  /** A value under a key that is not sensitive. */
  function RedactOrdinary(v: Value): Option<Value>
    decreases v
  {
    match v
    case Object(fields) =>
      var r := RedactFields(fields);
      if r.None? then None else Some(Object(r.value))
    case Items(items) =>
      var r := RedactObjects(items);
      if r.None? then None else Some(Items(r.value))
    case _ => Some(v)
  }

  /** In a list below a key that is not sensitive only the dicts are looked into. */
  function RedactObjects(items: seq<Value>): Option<seq<Value>>
    decreases items
  {
    if items == [] then Some([])
    else
      var first, rest := RedactObject(items[0]), RedactObjects(items[1..]);
      if first.None? || rest.None? then None else Some([first.value] + rest.value)
  }

  function RedactObject(v: Value): Option<Value>
    decreases v
  {
    match v
    case Object(fields) =>
      var r := RedactFields(fields);
      if r.None? then None else Some(Object(r.value))
    case _ => Some(v)
  }

  // ---------- The sanitiser ----------

  const REDACTED_PROMPT := Textual(Plain("[REDACTED_PROMPT]"))

  /** `sanitize_pilot_report_payload`. */
  function Sanitize(v: Value): Option<Value>
    decreases v
  {
    match v
    case Object(fields) =>
      var r := SanitizeFields(fields);
      if r.None? then None else Some(Object(r.value))
    case Items(items) =>
      var r := SanitizeItems(items);
      if r.None? then None else Some(Items(r.value))
    case Textual(text) =>
      var r := RedactDsn(text);
      if r.None? then None else Some(Textual(r.value))
    case _ => Some(v)
  }

  function SanitizeItems(items: seq<Value>): Option<seq<Value>>
    decreases items
  {
    if items == [] then Some([])
    else
      var first, rest := Sanitize(items[0]), SanitizeItems(items[1..]);
      if first.None? || rest.None? then None else Some([first.value] + rest.value)
  }

  function SanitizeFields(fields: seq<Entry>): Option<seq<Entry>>
    decreases fields
  {
    if fields == [] then Some([])
    else
      var first, rest := SanitizeField(fields[0]), SanitizeFields(fields[1..]);
      if first.None? || rest.None? then None else Some([Entry(fields[0].key, first.value)] + rest.value)
  }

  function SanitizeField(e: Entry): Option<Value>
    decreases e
  {
    if IsPromptLike(e.key) then Some(REDACTED_PROMPT)
    else if IsSensitive(e.key) then Redact(e.value) else Sanitize(e.value)
  }

  // ---------- Which IPv6 addresses are reached ----------

  /** A text whose rebuilding loses the brackets of an IPv6 address. */
  predicate LosesBrackets(text: Text, sensitive: bool) {
    && text.Link? && IsDatabase(text.url.scheme) && text.url.host.Bracketed?
    && (text.url.password.Some? || (sensitive && text.url.user.Some?))
  }

  predicate RedactLoses(v: Value)
    decreases v
  {
    match v
    case Textual(text) => LosesBrackets(text, true)
    case Items(items) => RedactItemsLose(items)
    case Object(fields) => RedactFieldsLose(fields)
    case _ => false
  }

  predicate RedactItemsLose(items: seq<Value>)
    decreases items
  {
    items != [] && (RedactLoses(items[0]) || RedactItemsLose(items[1..]))
  }

  predicate RedactFieldsLose(fields: seq<Entry>)
    decreases fields
  {
    fields != [] && (RedactFieldLoses(fields[0]) || RedactFieldsLose(fields[1..]))
  }

  predicate RedactFieldLoses(e: Entry)
    decreases e
  {
    if IsLogSensitive(e.key) then RedactLoses(e.value)
    else match e.value
      case Object(fields) => RedactFieldsLose(fields)
      case Items(items) => RedactObjectsLose(items)
      case _ => false
  }

  predicate RedactObjectsLose(items: seq<Value>)
    decreases items
  {
    items != [] && (RedactObjectLoses(items[0]) || RedactObjectsLose(items[1..]))
  }

  predicate RedactObjectLoses(v: Value)
    decreases v
  {
    v.Object? && RedactFieldsLose(v.fields)
  }

  predicate SanitizeLoses(v: Value)
    decreases v
  {
    match v
    case Textual(text) => LosesBrackets(text, false)
    case Items(items) => SanitizeItemsLose(items)
    case Object(fields) => SanitizeFieldsLose(fields)
    case _ => false
  }

  predicate SanitizeItemsLose(items: seq<Value>)
    decreases items
  {
    items != [] && (SanitizeLoses(items[0]) || SanitizeItemsLose(items[1..]))
  }

  predicate SanitizeFieldsLose(fields: seq<Entry>)
    decreases fields
  {
    fields != [] && (SanitizeFieldLoses(fields[0]) || SanitizeFieldsLose(fields[1..]))
  }

  predicate SanitizeFieldLoses(e: Entry)
    decreases e
  {
    !IsPromptLike(e.key) && (if IsSensitive(e.key) then RedactLoses(e.value) else SanitizeLoses(e.value))
  }

  // ---------- A second pass ----------

  lemma MaskTwice(s: string)
    ensures MaskPlain(MaskPlain(s)) == MaskPlain(s)
  {
    StripIs(s);
    StripIs(MaskPlain(s));
  }

  lemma {:induction false} LowerTwice(s: string)
    ensures Lower(Lower(s)) == Lower(s)
  {
  }

  lemma RedactTextTwice(text: Text)
    requires RedactText(text).Some?
    ensures RedactText(RedactText(text).value) == if LosesBrackets(text, true) then None else RedactText(text)
  {
    if text.Plain? {
      MaskTwice(text.s);
    } else if !IsDatabase(text.url.scheme) {
      MaskTwice(Print(text.url));
    } else if text.url.host.Named? {
      LowerTwice(text.url.host.name);
    }
  }

  lemma RedactDsnTwice(text: Text)
    requires RedactDsn(text).Some?
    ensures RedactDsn(RedactDsn(text).value) == if LosesBrackets(text, false) then None else RedactDsn(text)
  {
    if text.Link? && text.url.host.Named? {
      LowerTwice(text.url.host.name);
    }
  }

  lemma {:induction false} RedactTwice(v: Value, r: Option<Value>)
    requires r == Redact(v) && r.Some?
    ensures Redact(r.value) == if RedactLoses(v) then None else r
    decreases v
  {
    match v
    case Textual(text) => RedactTextTwice(text);
    case Items(items) => RedactItemsTwice(items, RedactItems(items));
    case Object(fields) => RedactFieldsTwice(fields, RedactFields(fields));
    case Nil =>
    case _ => StripIs("***");
  }

  lemma {:induction false} RedactItemsTwice(items: seq<Value>, r: Option<seq<Value>>)
    requires r == RedactItems(items) && r.Some?
    ensures RedactItems(r.value) == if RedactItemsLose(items) then None else r
    decreases items
  {
    if items != [] {
      var first, rest := Redact(items[0]), RedactItems(items[1..]);
      RedactTwice(items[0], first);
      RedactItemsTwice(items[1..], rest);
      assert r.value[0] == first.value && r.value[1..] == rest.value;
    }
  }

  lemma {:induction false} RedactFieldsTwice(fields: seq<Entry>, r: Option<seq<Entry>>)
    requires r == RedactFields(fields) && r.Some?
    ensures RedactFields(r.value) == if RedactFieldsLose(fields) then None else r
    decreases fields
  {
    if fields != [] {
      var first, rest := RedactField(fields[0]), RedactFields(fields[1..]);
      RedactFieldTwice(fields[0], first);
      RedactFieldsTwice(fields[1..], rest);
      assert r.value[0] == Entry(fields[0].key, first.value) && r.value[1..] == rest.value;
    }
  }

  lemma {:induction false} RedactFieldTwice(e: Entry, r: Option<Value>)
    requires r == RedactField(e) && r.Some?
    ensures RedactField(Entry(e.key, r.value)) == if RedactFieldLoses(e) then None else r
    decreases e
  {
    if IsLogSensitive(e.key) {
      RedactTwice(e.value, r);
    } else if e.value.Object? {
      RedactFieldsTwice(e.value.fields, RedactFields(e.value.fields));
    } else if e.value.Items? {
      RedactObjectsTwice(e.value.items, RedactObjects(e.value.items));
    }
  }

  lemma {:induction false} RedactObjectsTwice(items: seq<Value>, r: Option<seq<Value>>)
    requires r == RedactObjects(items) && r.Some?
    ensures RedactObjects(r.value) == if RedactObjectsLose(items) then None else r
    decreases items
  {
    if items != [] {
      var first, rest := RedactObject(items[0]), RedactObjects(items[1..]);
      RedactObjectTwice(items[0], first);
      RedactObjectsTwice(items[1..], rest);
      assert r.value[0] == first.value && r.value[1..] == rest.value;
    }
  }

  lemma {:induction false} RedactObjectTwice(v: Value, r: Option<Value>)
    requires r == RedactObject(v) && r.Some?
    ensures RedactObject(r.value) == if RedactObjectLoses(v) then None else r
    decreases v
  {
    if v.Object? {
      RedactFieldsTwice(v.fields, RedactFields(v.fields));
    }
  }

  /** A sanitised payload is sanitised again to itself, exactly if the first pass took the brackets off
      no IPv6 address; otherwise the second pass raises. */
  lemma {:induction false} SanitizeTwice(v: Value, r: Option<Value>)
    requires r == Sanitize(v) && r.Some?
    ensures Sanitize(r.value) == if SanitizeLoses(v) then None else r
    decreases v
  {
    match v
    case Textual(text) => RedactDsnTwice(text);
    case Items(items) => SanitizeItemsTwice(items, SanitizeItems(items));
    case Object(fields) => SanitizeFieldsTwice(fields, SanitizeFields(fields));
    case _ =>
  }

  lemma {:induction false} SanitizeItemsTwice(items: seq<Value>, r: Option<seq<Value>>)
    requires r == SanitizeItems(items) && r.Some?
    ensures SanitizeItems(r.value) == if SanitizeItemsLose(items) then None else r
    decreases items
  {
    if items != [] {
      var first, rest := Sanitize(items[0]), SanitizeItems(items[1..]);
      SanitizeTwice(items[0], first);
      SanitizeItemsTwice(items[1..], rest);
      assert r.value[0] == first.value && r.value[1..] == rest.value;
    }
  }

  lemma {:induction false} SanitizeFieldsTwice(fields: seq<Entry>, r: Option<seq<Entry>>)
    requires r == SanitizeFields(fields) && r.Some?
    ensures SanitizeFields(r.value) == if SanitizeFieldsLose(fields) then None else r
    decreases fields
  {
    if fields != [] {
      var first, rest := SanitizeField(fields[0]), SanitizeFields(fields[1..]);
      SanitizeFieldTwice(fields[0], first);
      SanitizeFieldsTwice(fields[1..], rest);
      assert r.value[0] == Entry(fields[0].key, first.value) && r.value[1..] == rest.value;
    }
  }

  lemma {:induction false} SanitizeFieldTwice(e: Entry, r: Option<Value>)
    requires r == SanitizeField(e) && r.Some?
    ensures SanitizeField(Entry(e.key, r.value)) == if SanitizeFieldLoses(e) then None else r
    decreases e
  {
    if IsPromptLike(e.key) {
    } else if IsSensitive(e.key) {
      RedactTwice(e.value, r);
    } else {
      SanitizeTwice(e.value, r);
    }
  }

  /** A report part that is sanitised before the report makes no difference to the report. */
  lemma {:induction false} PartFirst(before: seq<Entry>, e: Entry, after: seq<Entry>)
    requires !IsPromptLike(e.key) && !IsSensitive(e.key) && Sanitize(e.value).Some? && !SanitizeLoses(e.value)
    ensures SanitizeFields(before + [Entry(e.key, Sanitize(e.value).value)] + after) == SanitizeFields(before + [e] + after)
    decreases before
  {
    var part := Entry(e.key, Sanitize(e.value).value);
    if before == [] {
      SanitizeTwice(e.value, Sanitize(e.value));
      assert SanitizeField(part) == SanitizeField(e);
      var left, right := [part] + after, [e] + after;
      assert [] + [part] + after == left && left[1..] == after;
      assert [] + [e] + after == right && right[1..] == after;
    } else {
      var left, right := before + [part] + after, before + [e] + after;
      PartFirst(before[1..], e, after);
      assert left[0] == right[0] && left[1..] == before[1..] + [part] + after && right[1..] == before[1..] + [e] + after;
    }
  }

  /** `to_dict`: the parts of a report are sanitised before the report is. None stands for the
      exception. */
  function ToDict(fields: seq<Entry>): Option<seq<Entry>> {
    if fields == [] then Some([])
    else
      var e, rest := fields[0], ToDict(fields[1..]);
      var value := if e.key in REPORT_PARTS then Sanitize(e.value) else Some(e.value);
      if value.None? || rest.None? then None else Some([Entry(e.key, value.value)] + rest.value)
  }

  /** Letters, or pairs of letters, of which every pattern has one and no report part does. */
  predicate Marked(s: string) {
    || 'p' in s || 'u' in s || 'j' in s || 'm' in s
    || ('k' in s && 'o' in s) || ('c' in s && 't' in s) || ('k' in s && 'y' in s)
  }

  lemma PatternsAreMarked(k: nat)
    ensures k < |SENSITIVE_PATTERNS| ==> Marked(SENSITIVE_PATTERNS[k])
    ensures k < |PROMPT_PATTERNS| ==> Marked(PROMPT_PATTERNS[k])
  {
  }

  lemma NotContained(key: string, pattern: string)
    requires !Marked(key) && Marked(pattern)
    ensures !Contains(key, pattern)
  {
    forall i | 0 <= i <= |key| ensures !PartAt(key, pattern, i) {
    }
  }

  lemma PartsAreUnmarked(key: string)
    requires key in REPORT_PARTS
    ensures !Marked(key)
  {
  }

  lemma LowerKeepsLower(key: string)
    requires forall c | c in key :: !('A' <= c <= 'Z')
    ensures Lower(key) == key
  {
    forall i | 0 <= i < |key| ensures Lower(key)[i] == key[i] {
      assert key[i] in key;
    }
  }

  lemma PartsAreLower(key: string)
    requires key in REPORT_PARTS
    ensures forall c | c in key :: !('A' <= c <= 'Z')
  {
  }

  lemma PartsAreOrdinary(key: string)
    requires key in REPORT_PARTS
    ensures !IsPromptLike(key) && !IsSensitive(key)
  {
    PartsAreUnmarked(key);
    PartsAreLower(key);
    LowerKeepsLower(key);
    forall k | 0 <= k < |SENSITIVE_PATTERNS| ensures !Contains(key, SENSITIVE_PATTERNS[k]) {
      PatternsAreMarked(k);
      NotContained(key, SENSITIVE_PATTERNS[k]);
    }
    forall k | 0 <= k < |PROMPT_PATTERNS| ensures !Contains(key, PROMPT_PATTERNS[k]) {
      PatternsAreMarked(k);
      NotContained(key, PROMPT_PATTERNS[k]);
    }
  }

  /** `to_dict`, then `_report_payload`, then the read-back in `_load_json`: the result is that of one
      pass over the report, which every further pass leaves alone. */
  lemma {:induction false} ReportIsSanitizedOnce(fields: seq<Entry>)
    requires Sanitize(Object(fields)).Some? && !SanitizeLoses(Object(fields))
    ensures ToDict(fields).Some?
    ensures Sanitize(Object(ToDict(fields).value)) == Sanitize(Object(fields))
    ensures Sanitize(Sanitize(Object(ToDict(fields).value)).value) == Sanitize(Object(fields))
  {
    PartsFirst(fields);
    SanitizeTwice(Object(fields), Sanitize(Object(fields)));
  }

  lemma {:induction false} PartsFirst(fields: seq<Entry>)
    requires SanitizeFields(fields).Some? && !SanitizeFieldsLose(fields)
    ensures ToDict(fields).Some? && SanitizeFields(ToDict(fields).value) == SanitizeFields(fields)
    decreases fields
  {
    if fields != [] {
      var e := fields[0];
      PartsFirst(fields[1..]);
      if e.key in REPORT_PARTS {
        PartsAreOrdinary(e.key);
        SanitizeTwice(e.value, Sanitize(e.value));
      }
      var out := ToDict(fields).value;
      assert out[1..] == ToDict(fields[1..]).value;
    }
  }

  /** The brackets of an IPv6 address are what the second pass stumbles over. */
  lemma SecondPassRaises(scheme: string, user: Option<string>, password: string, address: string, port: string, rest: string)
    requires IsDatabase(scheme)
    ensures var v := Textual(Link(Url(scheme, user, Some(password), Bracketed(address, port), rest)));
            Sanitize(v).Some? && Sanitize(Sanitize(v).value).None?
  {
  }

  // ---------- Prompts do not show ----------

  /** Payloads that differ only below prompt-like keys, themselves below no sensitive key. */
  predicate Alike(v: Value, w: Value)
    decreases v
  {
    match v
    case Object(fields) => w.Object? && AlikeFields(fields, w.fields)
    case Items(items) => w.Items? && AlikeItems(items, w.items)
    case _ => v == w
  }

  predicate AlikeItems(v: seq<Value>, w: seq<Value>)
    decreases v
  {
    |v| == |w| && (v == [] || (Alike(v[0], w[0]) && AlikeItems(v[1..], w[1..])))
  }

  predicate AlikeFields(v: seq<Entry>, w: seq<Entry>)
    decreases v
  {
    |v| == |w| && (v == [] || (AlikeField(v[0], w[0]) && AlikeFields(v[1..], w[1..])))
  }

  predicate AlikeField(v: Entry, w: Entry)
    decreases v
  {
    && v.key == w.key
    && (IsPromptLike(v.key) || (if IsSensitive(v.key) then v.value == w.value else Alike(v.value, w.value)))
  }

  /** What stands below prompt-like keys has no influence on the sanitised payload. */
  lemma {:induction false} PromptsDoNotShow(v: Value, w: Value)
    requires Alike(v, w)
    ensures Sanitize(v) == Sanitize(w)
    decreases v
  {
    match v
    case Object(fields) => PromptFieldsDoNotShow(fields, w.fields);
    case Items(items) => PromptItemsDoNotShow(items, w.items);
    case _ =>
  }

  lemma {:induction false} PromptItemsDoNotShow(v: seq<Value>, w: seq<Value>)
    requires AlikeItems(v, w)
    ensures SanitizeItems(v) == SanitizeItems(w)
    decreases v
  {
    if v != [] {
      PromptsDoNotShow(v[0], w[0]);
      PromptItemsDoNotShow(v[1..], w[1..]);
    }
  }

  lemma {:induction false} PromptFieldsDoNotShow(v: seq<Entry>, w: seq<Entry>)
    requires AlikeFields(v, w)
    ensures SanitizeFields(v) == SanitizeFields(w)
    decreases v
  {
    if v != [] {
      PromptFieldDoesNotShow(v[0], w[0]);
      PromptFieldsDoNotShow(v[1..], w[1..]);
    }
  }

  lemma {:induction false} PromptFieldDoesNotShow(v: Entry, w: Entry)
    requires AlikeField(v, w)
    ensures SanitizeField(v) == SanitizeField(w)
    decreases v
  {
    if !IsPromptLike(v.key) && !IsSensitive(v.key) {
      PromptsDoNotShow(v.value, w.value);
    }
  }
}
