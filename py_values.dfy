/**
 * The Python values that flow through the pipeline as dictionaries and lists:
 * strings, booleans, other scalars (numbers, None), lists and insertion-ordered
 * dictionaries with string keys, together with `d.get`, `d[k] = v`, `type(x).__name__`
 * and `repr`, which `str(dict)` uses for the values inside it.
 */
module PyValues {
  import opened Wrappers
  import opened Text

  datatype Value =
    | Str(s: string)
    | Bool(b: bool)
      /** A non-iterable scalar (int, float, None), known by its type name and its repr. */
    | Scalar(typeName: string, repr: string)
    | List(items: seq<Value>)
      /** A dict: its entries in insertion order. */
    | Dict(entries: seq<Entry>)

  datatype Entry = Entry(key: string, value: Value)

  /** `type(v).__name__`. */
  function TypeName(v: Value): string {
    match v
    case Str(_) => "str"
    case Bool(_) => "bool"
    case Scalar(t, _) => t
    case List(_) => "list"
    case Dict(_) => "dict"
  }

  /** A well-formed dict: no key occurs twice. */
  ghost predicate UniqueKeys(entries: seq<Entry>) {
    forall i, j :: 0 <= i < j < |entries| ==> entries[i].key != entries[j].key
  }

  ghost predicate HasKey(entries: seq<Entry>, key: string) {
    exists i :: 0 <= i < |entries| && entries[i].key == key
  }

  /** `d.get(key)`: the value stored under `key`, if any. */
  function Get(entries: seq<Entry>, key: string): (r: Option<Value>)
    ensures r.Some? <==> HasKey(entries, key)
  {
    if |entries| == 0 then None
    else if entries[0].key == key then Some(entries[0].value)
    else
      var r := Get(entries[1..], key);
      assert forall i :: 0 < i < |entries| ==> entries[i] == entries[1..][i - 1];
      r
  }

  /** The keys of a dict, in insertion order. */
  function Keys(entries: seq<Entry>): (ks: seq<string>)
    ensures |ks| == |entries|
    ensures forall i :: 0 <= i < |entries| ==> ks[i] == entries[i].key
  {
    if |entries| == 0 then [] else [entries[0].key] + Keys(entries[1..])
  }

  /**
   * `d[key] = v`: the value of an existing key is replaced where it stands,
   * a new key is added at the end.
   */
  function Set(entries: seq<Entry>, key: string, v: Value): (r: seq<Entry>)
    ensures Get(r, key) == Some(v)
  {
    if |entries| == 0 then [Entry(key, v)]
    else if entries[0].key == key then [Entry(key, v)] + entries[1..]
    else [entries[0]] + Set(entries[1..], key, v)
  }

  /** Setting an existing key keeps the keys and their order; a new key goes last. */
  lemma {:induction false} SetKeys(entries: seq<Entry>, key: string, v: Value)
    ensures Keys(Set(entries, key, v)) == if Get(entries, key).Some? then Keys(entries) else Keys(entries) + [key]
  {
    if |entries| > 0 {
      var r := Set(entries, key, v);
      if entries[0].key == key {
        assert r[1..] == entries[1..];
      } else {
        SetKeys(entries[1..], key, v);
        assert r[1..] == Set(entries[1..], key, v);
      }
    }
  }

  /** Setting one key leaves what every other key maps to as it was. */
  lemma {:induction false} SetKeepsOthers(entries: seq<Entry>, key: string, v: Value, k: string)
    requires k != key
    ensures Get(Set(entries, key, v), k) == Get(entries, k)
  {
    if |entries| > 0 && entries[0].key != key {
      SetKeepsOthers(entries[1..], key, v, k);
    }
  }

  /** Looking a key up in a dict literal written as two runs of entries: the first run wins. */
  lemma {:induction false} GetConcat(a: seq<Entry>, b: seq<Entry>, k: string)
    ensures Get(a + b, k) == if HasKey(a, k) then Get(a, k) else Get(b, k)
  {
    if |a| > 0 && a[0].key != k {
      assert (a + b)[1..] == a[1..] + b;
      GetConcat(a[1..], b, k);
      assert HasKey(a, k) <==> HasKey(a[1..], k) by {
        if HasKey(a, k) {
          var i :| 0 <= i < |a| && a[i].key == k;
          assert a[1..][i - 1].key == k;
        }
        if HasKey(a[1..], k) {
          var i :| 0 <= i < |a[1..]| && a[1..][i].key == k;
          assert a[i + 1].key == k;
        }
      }
    } else if |a| == 0 {
      assert a + b == b;
    } else {
      assert a[0].key == k;
    }
  }

  /** The escape sequence `repr` writes for one character inside quotes `q`. */
  function EscapeChar(c: char, q: char): string {
    if c == q || c == '\\' then ['\\', c]
    else if c == '\t' then "\\t"
    else if c == '\n' then "\\n"
    else if c == '\r' then "\\r"
    else if c < ' ' || c == '\U{7f}' then ['\\', 'x', HexDigit(c as int / 16), HexDigit(c as int % 16)]
    else [c]
  }

  function HexDigit(n: int): char
    requires 0 <= n < 16
  {
    "0123456789abcdef"[n]
  }

  function Escape(s: string, q: char): string {
    if |s| == 0 then "" else EscapeChar(s[0], q) + Escape(s[1..], q)
  }

  /** `repr(s)` for a string: double quotes only when `s` has a single quote and no double quote. */
  function StrRepr(s: string): string {
    var q := if '\'' in s && '"' !in s then '"' else '\'';
    [q] + Escape(s, q) + [q]
  }

  /** `repr(v)`, which is also `str(v)` for lists and dicts. */
  function Repr(v: Value): string
    decreases v
  {
    match v
    case Str(s) => StrRepr(s)
    case Bool(b) => if b then "True" else "False"
    case Scalar(_, r) => r
    case List(items) =>
      "[" + Join(seq(|items|, i requires 0 <= i < |items| => Repr(items[i])), ", ") + "]"
    case Dict(entries) =>
      "{" + Join(seq(|entries|, i requires 0 <= i < |entries| =>
                   StrRepr(entries[i].key) + ": " + Repr(entries[i].value)), ", ") + "}"
  }

  /** `str(v)`: a string is shown as itself, every other value as its `repr`. */
  function StrOf(v: Value): string {
    if v.Str? then v.s else Repr(v)
  }

  /** A character `repr` writes as itself. */
  predicate PlainChar(c: char) {
    ' ' <= c < '\U{7f}' && c != '\'' && c != '"' && c != '\\'
  }

  lemma {:induction false} EscapePlain(s: string, q: char)
    requires forall i :: 0 <= i < |s| ==> PlainChar(s[i])
    requires q == '\'' || q == '"'
    ensures Escape(s, q) == s
  {
    if |s| > 0 {
      EscapePlain(s[1..], q);
    }
  }

  /** A string of plain characters is shown between single quotes, unchanged. */
  lemma StrReprPlain(s: string)
    requires forall i :: 0 <= i < |s| ==> PlainChar(s[i])
    ensures StrRepr(s) == "'" + s + "'"
  {
    EscapePlain(s, '\'');
  }

  /** The repr of a list shows the repr of each of its items. */
  lemma ListReprHasItem(items: seq<Value>, k: nat)
    requires k < |items|
    ensures IsInfix(Repr(items[k]), Repr(List(items)))
  {
    var shown := seq(|items|, i requires 0 <= i < |items| => Repr(items[i]));
    JoinHasPart(shown, ", ", k);
    var a: string, b: string :| Join(shown, ", ") == a + shown[k] + b;
    InfixOfMiddle(shown[k], a, b);
    InfixOfLonger(shown[k], Join(shown, ", "), "[");
    InfixOfLonger(shown[k], "[" + Join(shown, ", "), "]");
  }

  /** The repr of a one-entry dict. */
  lemma SingleEntryRepr(key: string, v: Value)
    ensures Repr(Dict([Entry(key, v)])) == "{" + StrRepr(key) + ": " + Repr(v) + "}"
  {
    var shown := seq(1, i requires 0 <= i < 1 => StrRepr([Entry(key, v)][i].key) + ": " + Repr([Entry(key, v)][i].value));
    assert shown == [StrRepr(key) + ": " + Repr(v)];
  }
}
