/**
 * The JSON-like values the library passes around, with the few pieces of
 * JavaScript semantics the core relies on: property reads on plain objects,
 * truthiness, and the conversion of a value to text in a template literal.
 */
module Json {
  import opened Wrappers

  /** Objects keep their members in insertion order, as plain JavaScript objects do. */
  datatype JsonValue =
    | Null
    | Bool(b: bool)
    | Num(n: int)
    | Str(s: string)
    | Arr(items: seq<JsonValue>)
    | Obj(entries: seq<(string, JsonValue)>)

  type Entries = seq<(string, JsonValue)>

  function Keys(es: Entries): (ks: seq<string>)
    ensures |ks| == |es|
    ensures forall i :: 0 <= i < |es| ==> ks[i] == es[i].0
  {
    seq(|es|, i requires 0 <= i < |es| => es[i].0)
  }

  /** No member name occurs twice: what every JavaScript object satisfies. */
  predicate DistinctKeys(es: Entries) {
    forall i, j :: 0 <= i < j < |es| ==> es[i].0 != es[j].0
  }

  predicate NoDuplicates(s: seq<string>) {
    forall i, j :: 0 <= i < j < |s| ==> s[i] != s[j]
  }

  /** The value stored under `k`; `None` plays the part of `undefined`. */
  function Get(es: Entries, k: string): (r: Option<JsonValue>)
    ensures r.Some? <==> k in Keys(es)
  {
    if es == [] then None
    else
      assert Keys(es) == [es[0].0] + Keys(es[1..]);
      if es[0].0 == k then Some(es[0].1) else Get(es[1..], k)
  }

  lemma {:induction false} GetDistinct(es: Entries, i: nat)
    requires DistinctKeys(es) && i < |es|
    ensures Get(es, es[i].0) == Some(es[i].1)
  {
    if i > 0 {
      GetDistinct(es[1..], i - 1);
    }
  }

  lemma KeysCons(e: (string, JsonValue), es: Entries)
    ensures Keys([e] + es) == [e.0] + Keys(es)
  {
  }

  lemma GetCons(e: (string, JsonValue), es: Entries, k: string)
    ensures Get([e] + es, k) == if e.0 == k then Some(e.1) else Get(es, k)
  {
    assert ([e] + es)[1..] == es;
  }

  lemma DistinctCons(e: (string, JsonValue), es: Entries)
    ensures DistinctKeys([e] + es) <==> e.0 !in Keys(es) && DistinctKeys(es)
  {
    var s := [e] + es;
    if DistinctKeys(s) {
      forall i, j | 0 <= i < j < |es| ensures es[i].0 != es[j].0 {
        assert es[i] == s[i + 1] && es[j] == s[j + 1];
      }
      forall j | 0 <= j < |es| ensures Keys(es)[j] != e.0 {
        assert es[j] == s[j + 1];
        assert s[0].0 != s[j + 1].0;
      }
    }
    if e.0 !in Keys(es) && DistinctKeys(es) {
      forall i, j | 0 <= i < j < |s| ensures s[i].0 != s[j].0 {
        assert s[j] == es[j - 1];
        if i == 0 {
          assert s[j].0 == Keys(es)[j - 1];
        } else {
          assert s[i] == es[i - 1];
        }
      }
    }
  }

  /** A property read `v.k` (or `v?.k`): only plain objects have members here. */
  function Member(v: Option<JsonValue>, k: string): (r: Option<JsonValue>)
    ensures r.Some? ==> v.Some? && v.value.Obj?
  {
    if v.Some? && v.value.Obj? then Get(v.value.entries, k) else None
  }

  /** JavaScript truthiness; `None` is `undefined`. Numbers are integers here, so NaN does not arise. */
  predicate Truthy(v: Option<JsonValue>) {
    match v
    case None => false
    case Some(Null) => false
    case Some(Bool(b)) => b
    case Some(Num(n)) => n != 0
    case Some(Str(s)) => s != ""
    case Some(Arr(_)) => true
    case Some(Obj(_)) => true
  }

  function Digit(d: nat): (c: char)
    requires d < 10
    ensures '0' <= c <= '9'
  {
    ('0' as int + d) as char
  }

  /** Decimal notation of a natural number, as `String(n)` writes it. */
  function NatText(n: nat): (s: string)
    ensures |s| >= 1
    ensures forall i :: 0 <= i < |s| ==> '0' <= s[i] <= '9'
    ensures (|s| == 1) == (n < 10)
  {
    if n < 10 then [Digit(n)] else NatText(n / 10) + [Digit(n % 10)]
  }

  lemma {:induction false} NatTextInjective(m: nat, n: nat)
    requires NatText(m) == NatText(n)
    ensures m == n
  {
    if m >= 10 && n >= 10 {
      var sm, sn := NatText(m), NatText(n);
      assert sm == NatText(m / 10) + [Digit(m % 10)];
      assert sn == NatText(n / 10) + [Digit(n % 10)];
      assert sm[..|sm| - 1] == NatText(m / 10) && sm[|sm| - 1] == Digit(m % 10);
      assert sn[..|sn| - 1] == NatText(n / 10) && sn[|sn| - 1] == Digit(n % 10);
      NatTextInjective(m / 10, n / 10);
    }
  }

  /** The member names a `for...in` loop visits on an array: "0", "1", ... */
  function IndexKey(i: nat): string {
    NatText(i)
  }

  function IntText(n: int): string {
    if n < 0 then "-" + NatText(-n) else NatText(n)
  }

  function JoinWithComma(parts: seq<string>): string {
    if parts == [] then ""
    else if |parts| == 1 then parts[0]
    else JoinWithComma(parts[..|parts| - 1]) + "," + parts[|parts| - 1]
  }

  /**
   * What `${v}` produces for a defined value: arrays join their elements with
   * commas (null elements give the empty string), plain objects give
   * "[object Object]".
   */
  function TemplateText(v: JsonValue): string {
    match v
    case Null => "null"
    case Bool(b) => if b then "true" else "false"
    case Num(n) => IntText(n)
    case Str(s) => s
    case Arr(xs) =>
      JoinWithComma(seq(|xs|, i requires 0 <= i < |xs| => if xs[i].Null? then "" else TemplateText(xs[i])))
    case Obj(_) => "[object Object]"
  }

  /** `${v}` where `v` may be `undefined`. */
  function OptionalText(v: Option<JsonValue>): (s: string)
    ensures v.Some? && v.value.Str? ==> s == v.value.s
  {
    if v.None? then "undefined" else TemplateText(v.value)
  }
}
