/**
 * The key-case transcoder of the JSON:API parser. `_serializeData` walks a
 * value with a `for...in` loop and assigns every member, with its name passed
 * through a key function, into a fresh result object; array members are
 * mapped element by element, and object members are walked recursively.
 * `parse` and `serialize` walk a shallow copy of their argument with
 * camelCase and kebab-case respectively.
 *
 * The functions Walk, Value and Item are the specification; SerializeData is
 * the loop itself, proved to compute Walk.
 */
module JsonApiParser {
  import opened Wrappers
  import opened Json
  import KeyCase

  type KeyFn = string -> string

  /**
   * `result[k] = v` on a plain object: an existing member keeps its place and
   * takes the new value, a new member goes at the end.
   */
  function Assign(acc: Entries, k: string, v: JsonValue): Entries {
    if acc == [] then [(k, v)]
    else if acc[0].0 == k then [(k, v)] + acc[1..]
    else [acc[0]] + Assign(acc[1..], k, v)
  }

  /** The member names after `result[k] = v`: unchanged if k was there, k appended otherwise. */
  lemma {:induction false} AssignKeys(acc: Entries, k: string, v: JsonValue)
    ensures Keys(Assign(acc, k, v)) == if k in Keys(acc) then Keys(acc) else Keys(acc) + [k]
  {
    if acc != [] {
      assert acc == [acc[0]] + acc[1..];
      KeysCons(acc[0], acc[1..]);
      if acc[0].0 == k {
        KeysCons((k, v), acc[1..]);
      } else {
        AssignKeys(acc[1..], k, v);
        KeysCons(acc[0], Assign(acc[1..], k, v));
      }
    }
  }

  lemma {:induction false} AssignDistinct(acc: Entries, k: string, v: JsonValue)
    requires DistinctKeys(acc)
    ensures DistinctKeys(Assign(acc, k, v))
  {
    if acc != [] {
      DistinctCons(acc[0], acc[1..]);
      assert acc == [acc[0]] + acc[1..];
      KeysCons(acc[0], acc[1..]);
      if acc[0].0 == k {
        DistinctCons((k, v), acc[1..]);
      } else {
        AssignDistinct(acc[1..], k, v);
        AssignKeys(acc[1..], k, v);
        DistinctCons(acc[0], Assign(acc[1..], k, v));
      }
    }
  }

  /** After `result[k] = v`, reading `result[k]` gives `v`. */
  lemma {:induction false} AssignGetSame(acc: Entries, k: string, v: JsonValue)
    ensures Get(Assign(acc, k, v), k) == Some(v)
  {
    if acc != [] {
      if acc[0].0 == k {
        GetCons((k, v), acc[1..], k);
      } else {
        AssignGetSame(acc[1..], k, v);
        GetCons(acc[0], Assign(acc[1..], k, v), k);
      }
    }
  }

  /** `result[k] = v` leaves every other member as it was. */
  lemma {:induction false} AssignGetOther(acc: Entries, k: string, v: JsonValue, k': string)
    requires k' != k
    ensures Get(Assign(acc, k, v), k') == Get(acc, k')
  {
    if acc == [] {
    } else {
      assert acc == [acc[0]] + acc[1..];
      GetCons(acc[0], acc[1..], k');
      if acc[0].0 == k {
        GetCons((k, v), acc[1..], k');
      } else {
        AssignGetOther(acc[1..], k, v, k');
        GetCons(acc[0], Assign(acc[1..], k, v), k');
      }
    }
  }

  /** Number of members a `for...in` loop (or an object spread) visits. */
  function EntryCount(c: JsonValue): nat {
    match c
    case Obj(es) => |es|
    case Arr(xs) => |xs|
    case Str(s) => |s|
    case _ => 0
  }

  /** Name of the i-th member visited: a property name, or an index for arrays and strings. */
  function EntryKey(c: JsonValue, i: nat): string
    requires i < EntryCount(c)
  {
    match c
    case Obj(es) => es[i].0
    case _ => IndexKey(i)
  }

  /** The i-th member's value as it is read, before the walker processes it. */
  function EntryRaw(c: JsonValue, i: nat): JsonValue
    requires i < EntryCount(c)
  {
    match c
    case Obj(es) => es[i].1
    case Arr(xs) => xs[i]
    case Str(s) => Str([s[i]])
  }

  /** The i-th member's value after the walker has processed it. */
  function EntryValue(f: KeyFn, c: JsonValue, i: nat): (r: JsonValue)
    requires i < EntryCount(c)
    decreases c, 0, i + 1, 0
  {
    match c
    case Obj(es) => Value(f, es[i].1)
    case Arr(xs) => Value(f, xs[i])
    case Str(s) => Str([s[i]])
  }

  /**
   * The result object after the first n iterations of the `for...in` loop:
   * a left fold of Assign over the visited members.
   */
  function Walk(f: KeyFn, c: JsonValue, n: nat): Entries
    requires n <= EntryCount(c)
    decreases c, 0, n, 1
  {
    if n == 0 then []
    else Assign(Walk(f, c, n - 1), f(EntryKey(c, n - 1)), EntryValue(f, c, n - 1))
  }

  /** The result is a JavaScript object: no member name occurs twice. */
  lemma {:induction false} WalkDistinct(f: KeyFn, c: JsonValue, n: nat)
    requires n <= EntryCount(c)
    ensures DistinctKeys(Walk(f, c, n))
  {
    if n > 0 {
      WalkDistinct(f, c, n - 1);
      WalkStep(f, c, n);
      AssignDistinct(Walk(f, c, n - 1), f(EntryKey(c, n - 1)), EntryValue(f, c, n - 1));
    }
  }

  /** One more iteration of the loop is one more Assign. */
  lemma WalkStep(f: KeyFn, c: JsonValue, n: nat)
    requires 0 < n <= EntryCount(c)
    ensures Walk(f, c, n) == Assign(Walk(f, c, n - 1), f(EntryKey(c, n - 1)), EntryValue(f, c, n - 1))
  {
  }

  /** What the walker stores for a member value: arrays are mapped, objects walked, scalars kept. */
  function Value(f: KeyFn, v: JsonValue): (r: JsonValue)
    ensures v.Null? || v.Bool? || v.Num? || v.Str? ==> r == v
    ensures r.Arr? <==> v.Arr?
    ensures r.Obj? <==> v.Obj?
    ensures r.Arr? ==> |r.items| == |v.items|
    decreases v, 1, 0, 0
  {
    match v
    case Arr(xs) => Arr(seq(|xs|, i requires 0 <= i < |xs| => Item(f, xs[i])))
    case Obj(es) => Obj(Walk(f, v, |es|))
    case _ => v
  }

  /**
   * What the `map` over an array does with one element: anything that is an
   * object in JavaScript's sense, arrays included, goes through the walker.
   */
  function Item(f: KeyFn, x: JsonValue): (r: JsonValue)
    ensures !r.Arr?
    decreases x, 1, 0, 0
  {
    match x
    case Obj(es) => Obj(Walk(f, x, |es|))
    case Arr(xs) => Obj(Walk(f, x, |xs|))
    case _ => x
  }

  lemma EntryValueOfRaw(f: KeyFn, c: JsonValue, i: nat)
    requires i < EntryCount(c)
    ensures EntryValue(f, c, i) == Value(f, EntryRaw(c, i))
  {
  }

  /** `_serializeData(keyTransformer, c)`, written as the source's loop. */
  method SerializeData(f: KeyFn, c: JsonValue) returns (result: Entries)
    ensures result == Walk(f, c, EntryCount(c))
    decreases c, 2
  {
    result := [];
    var i := 0;
    while i < EntryCount(c)
      invariant i <= EntryCount(c)
      invariant result == Walk(f, c, i)
    {
      result := Iteration(f, c, i, result);
      i := i + 1;
    }
  }

  /** One iteration of the loop: `result[keyTransformer(key)] = value`. */
  method Iteration(f: KeyFn, c: JsonValue, i: nat, acc: Entries) returns (result: Entries)
    requires i < EntryCount(c) && acc == Walk(f, c, i)
    ensures result == Walk(f, c, i + 1)
    decreases c, 1
  {
    var key := EntryKey(c, i);
    var value := MemberValue(f, c, i);
    WalkStep(f, c, i + 1);
    result := Assign(acc, f(key), value);
  }

  /** One iteration's value: read the member, then map an array or walk an object. */
  method MemberValue(f: KeyFn, c: JsonValue, i: nat) returns (value: JsonValue)
    requires i < EntryCount(c)
    ensures value == EntryValue(f, c, i)
    decreases c, 0
  {
    if c.Obj? {
      value := c.entries[i].1;
    } else if c.Arr? {
      value := c.items[i];
    } else {
      value := Str([c.s[i]]);
    }
    EntryValueOfRaw(f, c, i);
    if value.Arr? {
      var mapped := MapItems(f, value);
      value := Arr(mapped);
    } else if value.Obj? {
      var walked := SerializeData(f, value);
      value := Obj(walked);
    }
  }

  /** The `value.map(...)` applied to an array member. */
  method MapItems(f: KeyFn, value: JsonValue) returns (mapped: seq<JsonValue>)
    requires value.Arr?
    ensures Arr(mapped) == Value(f, value)
    decreases value, 0
  {
    var items := value.items;
    mapped := [];
    var j := 0;
    while j < |items|
      invariant j <= |items|
      invariant |mapped| == j
      invariant forall k :: 0 <= k < j ==> mapped[k] == Item(f, items[k])
    {
      var item := items[j];
      if item.Obj? || item.Arr? {
        var walked := SerializeData(f, item);
        mapped := mapped + [Obj(walked)];
      } else {
        mapped := mapped + [item];
      }
      j := j + 1;
    }
  }

  /** `parse`: camel-case every member name of a shallow copy of the resource. */
  function Parse(resource: JsonValue): (r: JsonValue)
    ensures r.Obj? && DistinctKeys(r.entries)
    ensures resource.Obj? ==> r == Value(KeyCase.CamelCase, resource)
  {
    WalkDistinct(KeyCase.CamelCase, resource, EntryCount(resource));
    Obj(Walk(KeyCase.CamelCase, resource, EntryCount(resource)))
  }

  /** `serialize`: kebab-case every member name of a shallow copy of the resource. */
  function Serialize(resource: JsonValue): (r: JsonValue)
    ensures r.Obj? && DistinctKeys(r.entries)
    ensures resource.Obj? ==> r == Value(KeyCase.KebabCase, resource)
  {
    WalkDistinct(KeyCase.KebabCase, resource, EntryCount(resource));
    Obj(Walk(KeyCase.KebabCase, resource, EntryCount(resource)))
  }
}
