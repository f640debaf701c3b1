/** JSON values as the stores and the tools exchange them, and the two string helpers
    the variable paths need. */
module JsonValues {
  datatype Option<+T> = None | Some(value: T)

  datatype Json =
    | Null
    | Bool(b: bool)
    | Num(n: real)
    | Str(s: string)
    | List(items: seq<Json>)
    | Obj(fields: seq<Field>)

  /** One entry of a dict; a dict is its entries in insertion order. */
  datatype Field = Field(key: string, value: Json)

  /** `fields.get(key)`, with None for a missing key. */
  function Get(fields: seq<Field>, key: string): Option<Json> {
    if fields == [] then None
    else if fields[0].key == key then Some(fields[0].value) else Get(fields[1..], key)
  }

  /** Python's truth value of a JSON value. */
  predicate Truthy(v: Json) {
    match v
    case Null => false
    case Bool(b) => b
    case Num(n) => n != 0.0
    case Str(s) => s != ""
    case List(items) => items != []
    case Obj(fields) => fields != []
  }

  /** `s.split(sep)` for a one-character separator. */
  function Split(s: string, sep: char): (parts: seq<string>)
    ensures parts != []
    ensures sep !in s ==> parts == [s]
  {
    if s == "" then [""]
    else if s[0] == sep then [""] + Split(s[1..], sep)
    else
      var rest := Split(s[1..], sep);
      assert sep !in s ==> [s[0]] + rest[0] == s;
      [[s[0]] + rest[0]] + rest[1..]
  }

  // ---------- What these mean ----------

  /** The first entry under `key` has the value `v`. */
  ghost predicate FirstEntry(fields: seq<Field>, key: string, v: Json) {
    exists k | 0 <= k < |fields| ::
      && fields[k].key == key && fields[k].value == v
      && forall j | 0 <= j < k :: fields[j].key != key
  }

  lemma {:induction false} GetIs(fields: seq<Field>, key: string)
    ensures Get(fields, key).Some? ==> FirstEntry(fields, key, Get(fields, key).value)
    ensures forall v | FirstEntry(fields, key, v) :: Get(fields, key) == Some(v)
    ensures Get(fields, key).None? <==> forall k | 0 <= k < |fields| :: fields[k].key != key
  {
    if fields != [] {
      var rest := fields[1..];
      GetIs(rest, key);
      if fields[0].key != key {
        forall v | FirstEntry(rest, key, v) ensures FirstEntry(fields, key, v) {
          EntryInTail(fields, key, v);
        }
        forall v | FirstEntry(fields, key, v) ensures FirstEntry(rest, key, v) {
          TailEntry(fields, key, v);
        }
        assert forall k | 0 <= k < |rest| :: rest[k] == fields[k + 1];
        assert forall k | 0 < k < |fields| :: fields[k] == rest[k - 1];
      } else {
        assert FirstEntry(fields, key, fields[0].value);
      }
    }
  }

  lemma EntryInTail(fields: seq<Field>, key: string, v: Json)
    requires fields != [] && fields[0].key != key && FirstEntry(fields[1..], key, v)
    ensures FirstEntry(fields, key, v)
  {
    var rest := fields[1..];
    var k :| 0 <= k < |rest| && rest[k].key == key && rest[k].value == v && forall j | 0 <= j < k :: rest[j].key != key;
    assert fields[k + 1] == rest[k];
    forall j | 0 <= j < k + 1 ensures fields[j].key != key {
      assert j > 0 ==> fields[j] == rest[j - 1];
    }
  }

  lemma TailEntry(fields: seq<Field>, key: string, v: Json)
    requires fields != [] && fields[0].key != key && FirstEntry(fields, key, v)
    ensures FirstEntry(fields[1..], key, v)
  {
    var rest := fields[1..];
    var k :| 0 <= k < |fields| && fields[k].key == key && fields[k].value == v && forall j | 0 <= j < k :: fields[j].key != key;
    assert rest[k - 1] == fields[k];
    forall j | 0 <= j < k - 1 ensures rest[j].key != key {
      assert rest[j] == fields[j + 1];
    }
  }

  /** The values that count as false. */
  predicate Falsy(v: Json) {
    v in {Null, Bool(false), Num(0.0), Str(""), List([]), Obj([])}
  }

  lemma TruthyIs(v: Json)
    ensures Truthy(v) <==> !Falsy(v)
  {
  }

  /** The parts with dots between them. */
  function Dotted(parts: seq<string>): string
    requires parts != []
  {
    if |parts| == 1 then parts[0] else parts[0] + "." + Dotted(parts[1..])
  }

  ghost predicate Dotless(parts: seq<string>) {
    forall i | 0 <= i < |parts| :: '.' !in parts[i]
  }

  /** Splitting takes a path apart at its dots. */
  lemma {:induction false} SplitIs(s: string)
    ensures Dotless(Split(s, '.')) && Dotted(Split(s, '.')) == s
  {
    if s != "" {
      var rest := Split(s[1..], '.');
      SplitIs(s[1..]);
      assert s == [s[0]] + s[1..];
      if s[0] == '.' {
        var parts := [""] + rest;
        assert parts[1..] == rest;
        assert Dotted(parts) == "" + "." + Dotted(rest);
      } else {
        var first := [s[0]] + rest[0];
        var parts := [first] + rest[1..];
        assert parts[1..] == rest[1..];
        assert Dotted(parts) == [s[0]] + Dotted(rest);
      }
    }
  }

  lemma {:induction false} SplitOf(parts: seq<string>)
    requires parts != [] && Dotless(parts)
    ensures Split(Dotted(parts), '.') == parts
    decreases |parts|, |parts[0]|
  {
    var first := parts[0];
    if first != "" {
      var shorter := [first[1..]] + parts[1..];
      assert shorter[1..] == parts[1..];
      SplitOf(shorter);
      assert Dotted(parts) == [first[0]] + Dotted(shorter);
      assert Dotted(parts)[1..] == Dotted(shorter);
      assert [first[0]] + first[1..] == first;
      assert parts == [first] + parts[1..];
    } else if |parts| > 1 {
      SplitOf(parts[1..]);
      assert Dotted(parts) == "." + Dotted(parts[1..]);
      assert Dotted(parts)[1..] == Dotted(parts[1..]);
      assert parts == [""] + parts[1..];
    } else {
      assert parts == [""];
    }
  }
}
