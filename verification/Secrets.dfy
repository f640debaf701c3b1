/** What a sanitised report shows, said of keys and characters: the whole output for every payload,
    what of a secret it does not depend on, and where a database password stays in clear. */
module Secrets {
  import opened JsonValues
  import opened Texts
  import opened Sanitizer
  import opened SecretKeys

  /** Where a value stands: below ordinary keys only, right below a sensitive key, or below an ordinary
      key that stands below a sensitive one, as its value or as an item of its list. */
  datatype Place = Open | Hidden | Inner | InnerItem

  // ---------- Texts ----------

  /** `t` is `s` without the whitespace around it. */
  ghost predicate Core(s: string, t: string) {
    exists before, after :: Surrounds(s, before, t, after)
  }

  predicate Masks(t: string, m: string) {
    m == if |t| <= 4 then "***" else [t[0], t[1], '*', '*', '*', t[|t| - 2], t[|t| - 1]]
  }

  ghost predicate MaskedTo(s: string, m: string) {
    exists t :: Core(s, t) && Masks(t, m)
  }

  /** The same two characters at either end, or too short to show any. */
  predicate SameEnds(s: string, t: string) {
    if |s| <= 4 then |t| <= 4
    else |t| > 4 && s[0] == t[0] && s[1] == t[1] && s[|s| - 2] == t[|t| - 2] && s[|s| - 1] == t[|t| - 1]
  }

  ghost predicate SecretsAlike(s: string, t: string) {
    exists a, b :: Core(s, a) && Core(t, b) && SameEnds(a, b)
  }

  predicate Database(text: Text) {
    text.Link? && (text.url.scheme == "postgresql" || text.url.scheme == "postgresql+psycopg" || text.url.scheme == "redis")
  }

  function Written(text: Text): string {
    if text.Link? then Print(text.url) else text.s
  }

  predicate SmallOf(s: string, small: string) {
    |s| == |small| && forall i | 0 <= i < |s| :: IsCaseOf(s[i], small[i])
  }

  /** No port can be read from a broken host: nothing is made of it. */
  predicate HostShows(host: Host, out: Host) {
    match host
    case Named(name, port) => out.Named? && SmallOf(name, out.name) && out.port == port
    case Bracketed(address, port) => out == Broken(address + ":" + port)
    case Broken(_) => false
  }

  predicate UrlShows(url: Url, out: Url) {
    && out.scheme == url.scheme && HostShows(url.host, out.host) && out.rest == url.rest
    && out.user == (if url.user == None || url.user == Some("") then Some("user") else url.user)
    && out.password == Some("***")
  }

  ghost predicate TextShows(hidden: bool, text: Text, out: Text) {
    if !Database(text) then
      if hidden then out.Plain? && MaskedTo(Written(text), out.s) else out == text
    else if text.url.password.Some? || (hidden && text.url.user.Some?) then out.Link? && UrlShows(text.url, out.url)
    else out == text
  }

  // ---------- Values ----------

  /** The output for a value: its keys, their order and its structure stay. */
  ghost predicate Shows(place: Place, v: Value, out: Value)
    decreases v
  {
    match v
    case Object(fields) => out.Object? && FieldsShow(place, fields, out.fields)
    case Items(items) =>
      if place.InnerItem? then out == v
      else out.Items? && ItemsShow(if place.Inner? then InnerItem else place, items, out.items)
    case Textual(text) =>
      if place.Inner? || place.InnerItem? then out == v else out.Textual? && TextShows(place.Hidden?, text, out.text)
    case Nil => out == Nil
    case _ => out == if place.Hidden? then Textual(Plain("***")) else v
  }

  ghost predicate ItemsShow(place: Place, items: seq<Value>, out: seq<Value>)
    decreases items
  {
    |items| == |out| && (items == [] || (Shows(place, items[0], out[0]) && ItemsShow(place, items[1..], out[1..])))
  }

  ghost predicate FieldsShow(place: Place, fields: seq<Entry>, out: seq<Entry>)
    decreases fields
  {
    |fields| == |out| && (fields == [] || (FieldShows(place, fields[0], out[0]) && FieldsShow(place, fields[1..], out[1..])))
  }

  ghost predicate FieldShows(place: Place, e: Entry, out: Entry)
    decreases e
  {
    && out.key == e.key
    && if !place.Open? then Shows(if NamesSecret(e.key) then Hidden else Inner, e.value, out.value)
       else if Prompt(e.key) then out.value == Textual(Plain("[REDACTED_PROMPT]"))
       else Shows(if Secret(e.key) then Hidden else Open, e.value, out.value)
  }

  // ---------- The output of the sanitiser ----------

  function Output(place: Place, v: Value): Option<Value> {
    match place
    case Open => Sanitize(v)
    case Hidden => Redact(v)
    case Inner => RedactOrdinary(v)
    case InnerItem => RedactObject(v)
  }

  function ItemsOutput(place: Place, items: seq<Value>): Option<seq<Value>> {
    match place
    case Open => SanitizeItems(items)
    case Hidden => RedactItems(items)
    case _ => RedactObjects(items)
  }

  function FieldsOutput(place: Place, fields: seq<Entry>): Option<seq<Entry>> {
    if place.Open? then SanitizeFields(fields) else RedactFields(fields)
  }

  function FieldOutput(place: Place, e: Entry): Option<Value> {
    if place.Open? then SanitizeField(e) else RedactField(e)
  }

  lemma CoreIs(s: string, t: string)
    ensures Core(s, t) <==> t == Strip(s)
  {
    var before, core, after := HasMiddle(s);
    SurroundedIs(s, before, core, after);
    forall a, b | Surrounds(s, a, t, b) ensures t == Strip(s) {
      SurroundedIs(s, a, t, b);
    }
  }

  lemma MaskIs(s: string, m: string)
    ensures MaskedTo(s, m) <==> m == MaskPlain(s)
  {
    var t := Strip(s);
    CoreIs(s, t);
    forall a | Core(s, a) ensures a == t {
      CoreIs(s, a);
    }
    assert Masks(t, MaskPlain(s));
  }

  lemma SmallIs(s: string, small: string)
    ensures SmallOf(s, small) <==> small == Lower(s)
  {
  }

  lemma HostIs(host: Host, out: Host)
    ensures RebuiltHost(host) == Some(out) <==> HostShows(host, out)
  {
    if host.Named? && out.Named? {
      SmallIs(host.name, out.name);
    }
  }

  lemma UrlIs(url: Url, out: Url)
    ensures WithoutPassword(url) == Some(out) <==> UrlShows(url, out)
  {
    HostIs(url.host, out.host);
  }

  lemma TextIs(text: Text, out: Text)
    ensures RedactText(text) == Some(out) <==> TextShows(true, text, out)
    ensures RedactDsn(text) == Some(out) <==> TextShows(false, text, out)
  {
    MaskIs(Written(text), Written(out));
    if text.Link? && out.Link? {
      UrlIs(text.url, out.url);
    }
  }

  /** The sanitised payload is the one tree that the payload shows; it raises if there is none. */
  lemma {:induction false} OutputIs(place: Place, v: Value, out: Value)
    ensures Output(place, v) == Some(out) <==> Shows(place, v, out)
    decreases v
  {
    match v
    case Object(fields) =>
      if out.Object? {
        FieldsOutputIs(place, fields, out.fields);
      }
    case Items(items) =>
      if out.Items? && !place.InnerItem? {
        ItemsOutputIs(if place.Inner? then InnerItem else place, items, out.items);
      }
    case Textual(text) =>
      if out.Textual? {
        TextIs(text, out.text);
      }
    case _ =>
  }

  lemma {:induction false} ItemsOutputIs(place: Place, items: seq<Value>, out: seq<Value>)
    requires !place.Inner?
    ensures ItemsOutput(place, items) == Some(out) <==> ItemsShow(place, items, out)
    decreases items
  {
    if items != [] && out != [] {
      OutputIs(place, items[0], out[0]);
      ItemsOutputIs(place, items[1..], out[1..]);
      assert [out[0]] + out[1..] == out;
    }
  }

  lemma {:induction false} FieldsOutputIs(place: Place, fields: seq<Entry>, out: seq<Entry>)
    ensures FieldsOutput(place, fields) == Some(out) <==> FieldsShow(place, fields, out)
    decreases fields
  {
    if fields != [] && out != [] {
      FieldOutputIs(place, fields[0], out[0]);
      FieldsOutputIs(place, fields[1..], out[1..]);
      assert [out[0]] + out[1..] == out;
    }
  }

  lemma {:induction false} FieldOutputIs(place: Place, e: Entry, out: Entry)
    ensures out.key == e.key && FieldOutput(place, e) == Some(out.value) <==> FieldShows(place, e, out)
    decreases e
  {
    KeysAre(e.key);
    OutputIs(Open, e.value, out.value);
    OutputIs(Hidden, e.value, out.value);
    OutputIs(Inner, e.value, out.value);
  }

  /** The sanitiser, for a whole payload. */
  lemma SanitizeIs(v: Value, out: Value)
    ensures Sanitize(v) == Some(out) <==> Shows(Open, v, out)
  {
    OutputIs(Open, v, out);
  }

  // ---------- Secrets do not show ----------

  /** Texts that differ in an existing database password only or, where they are masked, between
      their ends. */
  ghost predicate TextsAlike(hidden: bool, t: Text, u: Text) {
    || t == u
    || (Database(t) && Database(u) && t.url.password.Some? && u.url.password.Some? && t.url == u.url.(password := t.url.password))
    || (hidden && !Database(t) && !Database(u) && SecretsAlike(Written(t), Written(u)))
  }

  /** Payloads that differ in secrets and prompts only. */
  ghost predicate Alike(place: Place, v: Value, w: Value)
    decreases v
  {
    match v
    case Object(fields) => w.Object? && FieldsAlike(place, fields, w.fields)
    case Items(items) =>
      if place.InnerItem? then w == v
      else w.Items? && ItemsAlike(if place.Inner? then InnerItem else place, items, w.items)
    case Textual(text) =>
      if place.Inner? || place.InnerItem? then w == v else w.Textual? && TextsAlike(place.Hidden?, text, w.text)
    case Nil => w == Nil
    case _ => if place.Hidden? then w.Flag? || w.Number? else w == v
  }

  ghost predicate ItemsAlike(place: Place, v: seq<Value>, w: seq<Value>)
    decreases v
  {
    |v| == |w| && (v == [] || (Alike(place, v[0], w[0]) && ItemsAlike(place, v[1..], w[1..])))
  }

  ghost predicate FieldsAlike(place: Place, v: seq<Entry>, w: seq<Entry>)
    decreases v
  {
    |v| == |w| && (v == [] || (FieldAlike(place, v[0], w[0]) && FieldsAlike(place, v[1..], w[1..])))
  }

  ghost predicate FieldAlike(place: Place, v: Entry, w: Entry)
    decreases v
  {
    && v.key == w.key
    && if !place.Open? then Alike(if NamesSecret(v.key) then Hidden else Inner, v.value, w.value)
       else Prompt(v.key) || Alike(if Secret(v.key) then Hidden else Open, v.value, w.value)
  }

  lemma MaskedAlike(s: string, r: string)
    requires SecretsAlike(s, r)
    ensures MaskPlain(s) == MaskPlain(r)
  {
    var a, b :| Core(s, a) && Core(r, b) && SameEnds(a, b);
    CoreIs(s, a);
    CoreIs(r, b);
  }

  lemma TextDoesNotShow(t: Text, u: Text)
    ensures TextsAlike(true, t, u) ==> RedactText(t) == RedactText(u)
    ensures TextsAlike(false, t, u) ==> RedactDsn(t) == RedactDsn(u)
  {
    if !Database(t) && !Database(u) && SecretsAlike(Written(t), Written(u)) {
      MaskedAlike(Written(t), Written(u));
    }
  }

  /** No part of the output depends on what is between the ends of a secret text, on a number or flag
      below a sensitive key, on a database password or on a prompt. */
  lemma {:induction false} NothingSecretShows(place: Place, v: Value, w: Value)
    requires Alike(place, v, w)
    ensures Output(place, v) == Output(place, w)
    decreases v
  {
    match v
    case Object(fields) => NoFieldShows(place, fields, w.fields);
    case Items(items) =>
      if !place.InnerItem? {
        NoItemShows(if place.Inner? then InnerItem else place, items, w.items);
      }
    case Textual(text) =>
      if w.Textual? {
        TextDoesNotShow(text, w.text);
      }
    case _ =>
  }

  lemma {:induction false} NoItemShows(place: Place, v: seq<Value>, w: seq<Value>)
    requires !place.Inner? && ItemsAlike(place, v, w)
    ensures ItemsOutput(place, v) == ItemsOutput(place, w)
    decreases v
  {
    if v != [] {
      NothingSecretShows(place, v[0], w[0]);
      NoItemShows(place, v[1..], w[1..]);
    }
  }

  lemma {:induction false} NoFieldShows(place: Place, v: seq<Entry>, w: seq<Entry>)
    requires FieldsAlike(place, v, w)
    ensures FieldsOutput(place, v) == FieldsOutput(place, w)
    decreases v
  {
    if v != [] {
      NoneOfFieldShows(place, v[0], w[0]);
      NoFieldShows(place, v[1..], w[1..]);
    }
  }

  lemma {:induction false} NoneOfFieldShows(place: Place, v: Entry, w: Entry)
    requires FieldAlike(place, v, w)
    ensures FieldOutput(place, v) == FieldOutput(place, w)
    decreases v
  {
    KeysAre(v.key);
    if !(place.Open? && Prompt(v.key)) {
      var below := if place.Open? then (if Secret(v.key) then Hidden else Open) else if NamesSecret(v.key) then Hidden else Inner;
      NothingSecretShows(below, v.value, w.value);
    }
  }

  lemma SecretsDoNotShow(v: Value, w: Value)
    requires Alike(Open, v, w)
    ensures Sanitize(v) == Sanitize(w)
  {
    NothingSecretShows(Open, v, w);
  }

  // ---------- Where a database password stays in clear ----------

  predicate InClear(text: Text) {
    Database(text) && text.url.password.Some? && text.url.password != Some("***")
  }

  /** A database URL with a password in clear stands somewhere in the payload. */
  predicate HoldsPassword(v: Value)
    decreases v
  {
    match v
    case Textual(text) => InClear(text)
    case Items(items) => ItemsHold(items)
    case Object(fields) => FieldsHold(fields)
    case _ => false
  }

  predicate ItemsHold(items: seq<Value>)
    decreases items
  {
    items != [] && (HoldsPassword(items[0]) || ItemsHold(items[1..]))
  }

  predicate FieldsHold(fields: seq<Entry>)
    decreases fields
  {
    fields != [] && (HoldsPassword(fields[0].value) || FieldsHold(fields[1..]))
  }

  /** Such a URL is reached through an ordinary key below a sensitive one, with no sensitive key after
      it. */
  predicate Exposes(place: Place, v: Value)
    decreases v
  {
    match v
    case Textual(text) => (place.Inner? || place.InnerItem?) && InClear(text)
    case Items(items) =>
      if place.InnerItem? then ItemsHold(items) else ItemsExpose(if place.Inner? then InnerItem else place, items)
    case Object(fields) => FieldsExpose(place, fields)
    case _ => false
  }

  predicate ItemsExpose(place: Place, items: seq<Value>)
    decreases items
  {
    items != [] && (Exposes(place, items[0]) || ItemsExpose(place, items[1..]))
  }

  predicate FieldsExpose(place: Place, fields: seq<Entry>)
    decreases fields
  {
    fields != [] && (FieldExposes(place, fields[0]) || FieldsExpose(place, fields[1..]))
  }

  predicate FieldExposes(place: Place, e: Entry)
    decreases e
  {
    if !place.Open? then Exposes(if NamesSecret(e.key) then Hidden else Inner, e.value)
    else !Prompt(e.key) && Exposes(if Secret(e.key) then Hidden else Open, e.value)
  }

  lemma {:induction false} OutputHoldsIff(place: Place, v: Value, out: Value)
    requires Shows(place, v, out)
    ensures HoldsPassword(out) <==> Exposes(place, v)
    decreases v
  {
    match v
    case Object(fields) => FieldsHoldIff(place, fields, out.fields);
    case Items(items) =>
      if !place.InnerItem? {
        ItemsHoldIff(if place.Inner? then InnerItem else place, items, out.items);
      }
    case _ =>
  }

  lemma {:induction false} ItemsHoldIff(place: Place, items: seq<Value>, out: seq<Value>)
    requires !place.Inner? && ItemsShow(place, items, out)
    ensures ItemsHold(out) <==> ItemsExpose(place, items)
    decreases items
  {
    if items != [] {
      OutputHoldsIff(place, items[0], out[0]);
      ItemsHoldIff(place, items[1..], out[1..]);
    }
  }

  lemma {:induction false} FieldsHoldIff(place: Place, fields: seq<Entry>, out: seq<Entry>)
    requires FieldsShow(place, fields, out)
    ensures FieldsHold(out) <==> FieldsExpose(place, fields)
    decreases fields
  {
    if fields != [] {
      FieldHoldsIff(place, fields[0], out[0]);
      FieldsHoldIff(place, fields[1..], out[1..]);
    }
  }

  lemma {:induction false} FieldHoldsIff(place: Place, e: Entry, out: Entry)
    requires FieldShows(place, e, out)
    ensures HoldsPassword(out.value) <==> FieldExposes(place, e)
    decreases e
  {
    if !(place.Open? && Prompt(e.key)) {
      var below := if place.Open? then (if Secret(e.key) then Hidden else Open) else if NamesSecret(e.key) then Hidden else Inner;
      OutputHoldsIff(below, e.value, out.value);
    }
  }

  /** A sanitised payload holds a database password in clear exactly if the payload has it where the
      sanitiser does not look. */
  lemma PasswordShowsIff(v: Value)
    requires Sanitize(v).Some?
    ensures HoldsPassword(Sanitize(v).value) <==> Exposes(Open, v)
  {
    SanitizeIs(v, Sanitize(v).value);
    OutputHoldsIff(Open, v, Sanitize(v).value);
  }

  /** One ordinary key below a sensitive one is enough: the URL is kept as it is. */
  lemma InnerPasswordShows(outer: string, inner: string, url: Url)
    requires Secret(outer) && !Prompt(outer) && !NamesSecret(inner) && InClear(Link(url))
    ensures var v := Object([Entry(outer, Object([Entry(inner, Textual(Link(url)))]))]);
            Sanitize(v) == Some(v) && HoldsPassword(v)
  {
    var leaf := Textual(Link(url));
    var below := Object([Entry(inner, leaf)]);
    var v := Object([Entry(outer, below)]);
    assert FieldShows(Hidden, below.fields[0], below.fields[0]);
    assert FieldsShow(Hidden, below.fields, below.fields);
    assert FieldShows(Open, v.fields[0], v.fields[0]);
    assert FieldsShow(Open, v.fields, v.fields);
    SanitizeIs(v, v);
    assert FieldsHold(below.fields);
    assert FieldsHold(v.fields);
  }
}
