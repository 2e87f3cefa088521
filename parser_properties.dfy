/**
 * What the transcoder promises: which member names come out and in which
 * order, which value wins a name collision, that a key function with an
 * inverse can be undone, and that the rewrite reaches every depth.
 */
module JsonApiParserProperties {
  import opened Wrappers
  import opened Json
  import opened JsonApiParser
  import KeyCase

  /** The new names in visiting order, collisions included. */
  function MappedKeys(f: KeyFn, c: JsonValue, n: nat): (ks: seq<string>)
    requires n <= EntryCount(c)
    ensures |ks| == n
    ensures forall i :: 0 <= i < n ==> ks[i] == f(EntryKey(c, i))
  {
    seq(n, i requires 0 <= i < n => f(EntryKey(c, i)))
  }

  /** Each name once, at the place it first occurs. */
  function FirstOccurrences(s: seq<string>): (d: seq<string>)
    ensures NoDuplicates(d)
    ensures forall x :: x in d <==> x in s
  {
    if s == [] then []
    else
      var d := FirstOccurrences(s[..|s| - 1]);
      assert forall x :: x in s <==> x in s[..|s| - 1] || x == s[|s| - 1] by {
        assert s == s[..|s| - 1] + [s[|s| - 1]];
      }
      if s[|s| - 1] in d then d else d + [s[|s| - 1]]
  }

  /** One more name: it is added at the end unless it already occurred. */
  lemma FirstOccurrencesStep(s: seq<string>)
    requires s != []
    ensures FirstOccurrences(s) ==
      var d := FirstOccurrences(s[..|s| - 1]); if s[|s| - 1] in d then d else d + [s[|s| - 1]]
  {
  }

  lemma MappedKeysStep(f: KeyFn, c: JsonValue, n: nat)
    requires 0 < n <= EntryCount(c)
    ensures MappedKeys(f, c, n)[..n - 1] == MappedKeys(f, c, n - 1)
    ensures MappedKeys(f, c, n)[n - 1] == f(EntryKey(c, n - 1))
  {
  }

  /** The result's member names are the new names, each once, in order of first assignment. */
  lemma {:induction false} WalkKeys(f: KeyFn, c: JsonValue, n: nat)
    requires n <= EntryCount(c)
    ensures Keys(Walk(f, c, n)) == FirstOccurrences(MappedKeys(f, c, n))
  {
    if n > 0 {
      WalkKeys(f, c, n - 1);
      WalkStep(f, c, n);
      AssignKeys(Walk(f, c, n - 1), f(EntryKey(c, n - 1)), EntryValue(f, c, n - 1));
      MappedKeysStep(f, c, n);
      FirstOccurrencesStep(MappedKeys(f, c, n));
    }
  }

  /** The last of the first n members whose new name is k, if there is one. */
  function LastWith(f: KeyFn, c: JsonValue, n: nat, k: string): (r: Option<nat>)
    requires n <= EntryCount(c)
    ensures r.Some? ==> r.value < n && f(EntryKey(c, r.value)) == k
    ensures r.Some? ==> forall j :: r.value < j < n ==> f(EntryKey(c, j)) != k
    ensures r.None? ==> forall j :: 0 <= j < n ==> f(EntryKey(c, j)) != k
  {
    if n == 0 then None
    else if f(EntryKey(c, n - 1)) == k then Some(n - 1)
    else LastWith(f, c, n - 1, k)
  }

  /** The processed value of the last of the first n members whose new name is k. */
  function LastValue(f: KeyFn, c: JsonValue, n: nat, k: string): Option<JsonValue>
    requires n <= EntryCount(c)
  {
    var j := LastWith(f, c, n, k);
    if j.None? then None else Some(EntryValue(f, c, j.value))
  }

  /** Reading a name after one more Assign: the assigned value under its own name, the old reading elsewhere. */
  lemma GetAfterAssign(acc: Entries, key: string, v: JsonValue, k: string)
    ensures Get(Assign(acc, key, v), k) == if key == k then Some(v) else Get(acc, k)
  {
    if key == k {
      AssignGetSame(acc, key, v);
    } else {
      AssignGetOther(acc, key, v, k);
    }
  }

  lemma LastValueStep(f: KeyFn, c: JsonValue, n: nat, k: string)
    requires 0 < n <= EntryCount(c)
    ensures LastValue(f, c, n, k) ==
      if f(EntryKey(c, n - 1)) == k then Some(EntryValue(f, c, n - 1)) else LastValue(f, c, n - 1, k)
  {
  }

  /** Last write wins: under a new name the result holds the value of the last member mapped to it. */
  lemma {:induction false} WalkGet(f: KeyFn, c: JsonValue, n: nat, k: string)
    requires n <= EntryCount(c)
    ensures Get(Walk(f, c, n), k) == LastValue(f, c, n, k)
  {
    if n > 0 {
      WalkGet(f, c, n - 1, k);
      WalkGetStep(f, c, n, k);
      LastValueStep(f, c, n, k);
    }
  }

  /** One more iteration changes the reading of the name it assigns and of no other. */
  lemma WalkGetStep(f: KeyFn, c: JsonValue, n: nat, k: string)
    requires 0 < n <= EntryCount(c)
    ensures Get(Walk(f, c, n), k) ==
      if f(EntryKey(c, n - 1)) == k then Some(EntryValue(f, c, n - 1)) else Get(Walk(f, c, n - 1), k)
  {
    WalkStep(f, c, n);
    GetAfterAssign(Walk(f, c, n - 1), f(EntryKey(c, n - 1)), EntryValue(f, c, n - 1), k);
  }

  /** Every member of the result is a new name paired with the processed value of a member it came from. */
  lemma WalkEntry(f: KeyFn, c: JsonValue, n: nat, i: nat)
    requires n <= EntryCount(c) && i < |Walk(f, c, n)|
    ensures exists j :: 0 <= j < n && Walk(f, c, n)[i] == (f(EntryKey(c, j)), EntryValue(f, c, j))
  {
    var r := Walk(f, c, n);
    WalkDistinct(f, c, n);
    GetDistinct(r, i);
    WalkGet(f, c, n, r[i].0);
    var j := LastWith(f, c, n, r[i].0).value;
    assert r[i] == (f(EntryKey(c, j)), EntryValue(f, c, j));
  }

  lemma {:induction false} AssignNew(acc: Entries, k: string, v: JsonValue)
    requires k !in Keys(acc)
    ensures Assign(acc, k, v) == acc + [(k, v)]
  {
    if acc != [] {
      KeysCons(acc[0], acc[1..]);
      assert acc == [acc[0]] + acc[1..];
      AssignNew(acc[1..], k, v);
    }
  }

  /** The member-by-member rewrite when no two names collide. */
  function Renamed(f: KeyFn, c: JsonValue, n: nat): (r: Entries)
    requires n <= EntryCount(c)
  {
    seq(n, i requires 0 <= i < n => (f(EntryKey(c, i)), EntryValue(f, c, i)))
  }

  lemma RenamedPrefix(f: KeyFn, c: JsonValue, n: nat)
    requires 0 < n <= EntryCount(c)
    ensures Renamed(f, c, n) == Renamed(f, c, n - 1) + [(f(EntryKey(c, n - 1)), EntryValue(f, c, n - 1))]
  {
  }

  lemma RenamedKeys(f: KeyFn, c: JsonValue, n: nat, k: string)
    requires n <= EntryCount(c)
    requires forall i :: 0 <= i < n ==> f(EntryKey(c, i)) != k
    ensures k !in Keys(Renamed(f, c, n))
  {
  }

  lemma LastNameIsNew(f: KeyFn, c: JsonValue, n: nat)
    requires 0 < n <= EntryCount(c)
    requires forall i, j :: 0 <= i < j < n ==> f(EntryKey(c, i)) != f(EntryKey(c, j))
    ensures f(EntryKey(c, n - 1)) !in Keys(Renamed(f, c, n - 1))
  {
    RenamedKeys(f, c, n - 1, f(EntryKey(c, n - 1)));
  }

  /** Without collisions the walker renames each member in place and keeps the member order. */
  lemma {:induction false} WalkRenames(f: KeyFn, c: JsonValue, n: nat)
    requires n <= EntryCount(c)
    requires forall i, j :: 0 <= i < j < n ==> f(EntryKey(c, i)) != f(EntryKey(c, j))
    ensures Walk(f, c, n) == Renamed(f, c, n)
  {
    if n > 0 {
      WalkRenames(f, c, n - 1);
      LastNameIsNew(f, c, n);
      WalkStep(f, c, n);
      AssignNew(Renamed(f, c, n - 1), f(EntryKey(c, n - 1)), EntryValue(f, c, n - 1));
      RenamedPrefix(f, c, n);
    }
  }

  /** Every member name, at every depth, satisfies p. */
  predicate KeysOk(p: string -> bool, v: JsonValue) {
    match v
    case Obj(es) => forall i :: 0 <= i < |es| ==> p(es[i].0) && KeysOk(p, es[i].1)
    case Arr(xs) => forall i :: 0 <= i < |xs| ==> KeysOk(p, xs[i])
    case _ => true
  }

  /**
   * A document of plain data: every object has distinct member names, and no
   * array holds another array directly (the walker would turn it into an object).
   */
  predicate Plain(v: JsonValue) {
    match v
    case Obj(es) => DistinctKeys(es) && forall i :: 0 <= i < |es| ==> Plain(es[i].1)
    case Arr(xs) => forall i :: 0 <= i < |xs| ==> !xs[i].Arr? && Plain(xs[i])
    case _ => true
  }

  lemma ItemOfNonArray(f: KeyFn, x: JsonValue)
    requires !x.Arr?
    ensures Item(f, x) == Value(f, x)
  {
  }

  /** A key function that leaves every name alone leaves a plain document unchanged. */
  lemma {:induction false} FixedPoint(f: KeyFn, p: string -> bool, v: JsonValue)
    requires forall k :: p(k) ==> f(k) == k
    requires Plain(v) && KeysOk(p, v)
    ensures Value(f, v) == v
  {
    match v
    case Obj(es) =>
      forall i, j | 0 <= i < j < |es| ensures f(EntryKey(v, i)) != f(EntryKey(v, j)) {
        assert es[i].0 != es[j].0;
      }
      WalkRenames(f, v, |es|);
      forall i | 0 <= i < |es| ensures Renamed(f, v, |es|)[i] == es[i] {
        FixedPoint(f, p, es[i].1);
      }
    case Arr(xs) =>
      forall i | 0 <= i < |xs| ensures Value(f, v).items[i] == xs[i] {
        ItemOfNonArray(f, xs[i]);
        FixedPoint(f, p, xs[i]);
      }
    case _ =>
  }

  /** If g undoes f on every member name, walking with f and then with g gives back a plain document. */
  lemma {:induction false} RoundTrip(f: KeyFn, g: KeyFn, p: string -> bool, v: JsonValue)
    requires forall k :: p(k) ==> g(f(k)) == k
    requires Plain(v) && KeysOk(p, v)
    ensures Value(g, Value(f, v)) == v
    decreases v, 2
  {
    match v
    case Obj(es) => RoundTripObject(f, g, p, v);
    case Arr(xs) => RoundTripArray(f, g, p, v);
    case _ =>
  }

  /** An object whose new names are all distinct is renamed member by member. */
  lemma ObjectRenames(f: KeyFn, v: JsonValue)
    requires v.Obj?
    requires forall i, j :: 0 <= i < j < |v.entries| ==> f(v.entries[i].0) != f(v.entries[j].0)
    ensures Value(f, v) == Obj(Renamed(f, v, |v.entries|))
  {
    WalkRenames(f, v, |v.entries|);
  }

  /** The first half of the round trip: names f renames distinctly, and g tells the results apart again. */
  lemma UndoneRenames(f: KeyFn, g: KeyFn, p: string -> bool, v: JsonValue)
    requires forall k :: p(k) ==> g(f(k)) == k
    requires v.Obj? && DistinctKeys(v.entries) && forall i :: 0 <= i < |v.entries| ==> p(v.entries[i].0)
    ensures var r := Renamed(f, v, |v.entries|);
      Value(f, v) == Obj(r) && forall i, j :: 0 <= i < j < |r| ==> g(r[i].0) != g(r[j].0)
  {
    var es, n := v.entries, |v.entries|;
    var r := Renamed(f, v, n);
    forall i, j | 0 <= i < j < n ensures f(es[i].0) != f(es[j].0) && g(r[i].0) != g(r[j].0) {
      RenamedMember(f, v, i);
      RenamedMember(f, v, j);
      assert es[i].0 != es[j].0 && p(es[i].0) && p(es[j].0);
    }
    ObjectRenames(f, v);
  }

  /** A member of the renamed object: the new name beside the processed value. */
  lemma RenamedMember(f: KeyFn, v: JsonValue, i: nat)
    requires v.Obj? && i < |v.entries|
    ensures Renamed(f, v, |v.entries|)[i] == (f(v.entries[i].0), Value(f, v.entries[i].1))
  {
    assert EntryKey(v, i) == v.entries[i].0 && EntryRaw(v, i) == v.entries[i].1;
    EntryValueOfRaw(f, v, i);
  }

  lemma {:induction false} RoundTripObject(f: KeyFn, g: KeyFn, p: string -> bool, v: JsonValue)
    requires forall k :: p(k) ==> g(f(k)) == k
    requires v.Obj? && Plain(v) && KeysOk(p, v)
    ensures Value(g, Value(f, v)) == v
    decreases v, 1
  {
    var n := |v.entries|;
    assert DistinctKeys(v.entries) && forall i :: 0 <= i < n ==> p(v.entries[i].0);
    UndoneRenames(f, g, p, v);
    var w := Obj(Renamed(f, v, n));
    ObjectRenames(g, w);
    RenamedBack(f, g, p, v);
  }

  /** The second half, member by member: g restores each name, and each value comes back by induction. */
  lemma {:induction false} RenamedBack(f: KeyFn, g: KeyFn, p: string -> bool, v: JsonValue)
    requires forall k :: p(k) ==> g(f(k)) == k
    requires v.Obj? && Plain(v) && KeysOk(p, v)
    ensures Renamed(g, Obj(Renamed(f, v, |v.entries|)), |v.entries|) == v.entries
    decreases v, 0
  {
    var es, n := v.entries, |v.entries|;
    var w := Obj(Renamed(f, v, n));
    forall i | 0 <= i < n ensures Renamed(g, w, n)[i] == es[i] {
      var x := es[i].1;
      assert p(es[i].0) && Plain(x) && KeysOk(p, x);
      RoundTrip(f, g, p, x);
      RenamedMember(f, v, i);
      RenamedMember(g, w, i);
    }
  }

  lemma {:induction false} RoundTripArray(f: KeyFn, g: KeyFn, p: string -> bool, v: JsonValue)
    requires forall k :: p(k) ==> g(f(k)) == k
    requires v.Arr? && Plain(v) && KeysOk(p, v)
    ensures Value(g, Value(f, v)) == v
    decreases v, 1
  {
    var xs := v.items;
    var w := Value(f, v);
    forall i | 0 <= i < |xs| ensures w.items[i] == Value(f, xs[i]) && !w.items[i].Arr? {
      ItemOfNonArray(f, xs[i]);
    }
    forall i | 0 <= i < |xs| ensures Value(g, w).items[i] == xs[i] {
      ItemOfNonArray(g, w.items[i]);
      RoundTrip(f, g, p, xs[i]);
    }
  }

  /** If every name f produces satisfies p, every member name of the result, at every depth, does. */
  lemma {:induction false} ValueKeysOk(f: KeyFn, p: string -> bool, v: JsonValue)
    requires forall k :: p(f(k))
    ensures KeysOk(p, Value(f, v))
    decreases v, 1
  {
    match v
    case Obj(es) => WalkKeysOk(f, p, v, |es|);
    case Arr(xs) =>
      forall i | 0 <= i < |xs| ensures KeysOk(p, Value(f, v).items[i]) {
        ItemKeysOk(f, p, xs[i]);
      }
    case _ =>
  }

  lemma {:induction false} ItemKeysOk(f: KeyFn, p: string -> bool, x: JsonValue)
    requires forall k :: p(f(k))
    ensures KeysOk(p, Item(f, x))
    decreases x, 1
  {
    match x
    case Obj(es) => WalkKeysOk(f, p, x, |es|);
    case Arr(xs) => WalkKeysOk(f, p, x, |xs|);
    case _ =>
  }

  lemma {:induction false} WalkKeysOk(f: KeyFn, p: string -> bool, c: JsonValue, n: nat)
    requires n <= EntryCount(c)
    requires forall k :: p(f(k))
    ensures KeysOk(p, Obj(Walk(f, c, n)))
    decreases c, 0
  {
    var r := Walk(f, c, n);
    forall i | 0 <= i < |r| ensures p(r[i].0) && KeysOk(p, r[i].1) {
      WalkEntry(f, c, n, i);
      var j :| 0 <= j < n && r[i] == (f(EntryKey(c, j)), EntryValue(f, c, j));
      match c
      case Obj(es) => ValueKeysOk(f, p, es[j].1);
      case Arr(xs) => ValueKeysOk(f, p, xs[j]);
      case Str(s) =>
    }
  }

  /**
   * An array element that is itself an array comes back as an object keyed by
   * the new names of its indices; when those names do not collide, each one
   * holds its element renamed.
   */
  lemma NestedArrayKeys(f: KeyFn, xs: seq<JsonValue>, i: nat)
    requires i < |xs| && xs[i].Arr?
    ensures Value(f, Arr(xs)).items[i].Obj?
    ensures Keys(Value(f, Arr(xs)).items[i].entries) == FirstOccurrences(MappedKeys(f, xs[i], |xs[i].items|))
    ensures (forall j, k :: 0 <= j < k < |xs[i].items| ==> f(IndexKey(j)) != f(IndexKey(k))) ==>
      forall j :: 0 <= j < |xs[i].items| ==>
        Get(Value(f, Arr(xs)).items[i].entries, f(IndexKey(j))) == Some(Value(f, xs[i].items[j]))
  {
    var x, n := xs[i], |xs[i].items|;
    WalkKeys(f, x, n);
    if forall j, k :: 0 <= j < k < n ==> f(IndexKey(j)) != f(IndexKey(k)) {
      forall j, k | 0 <= j < k < n ensures f(EntryKey(x, j)) != f(EntryKey(x, k)) {
        assert EntryKey(x, j) == IndexKey(j) && EntryKey(x, k) == IndexKey(k);
      }
      WalkRenames(f, x, n);
      var es := Renamed(f, x, n);
      assert Value(f, Arr(xs)).items[i] == Item(f, x) == Obj(es);
      assert DistinctKeys(es) by {
        forall j, k | 0 <= j < k < n ensures es[j].0 != es[k].0 {
          assert es[j].0 == f(EntryKey(x, j)) && es[k].0 == f(EntryKey(x, k));
        }
      }
      forall j | 0 <= j < n
        ensures Get(es, f(IndexKey(j))) == Some(Value(f, x.items[j]))
      {
        assert es[j] == (f(IndexKey(j)), Value(f, x.items[j]));
        GetDistinct(es, j);
      }
    }
  }

  // The camelCase / kebab-case key functions of parse and serialize.

  /** After `parse`, no member name at any depth contains a hyphen, underscore or space. */
  lemma ParsedKeysHaveNoSeparator(resource: JsonValue)
    ensures KeysOk(KeyCase.HasNoSeparator, Parse(resource))
  {
    forall k ensures KeyCase.HasNoSeparator(KeyCase.CamelCase(k)) {
      KeyCase.CamelCaseHasNoSeparator(k);
    }
    WalkKeysOk(KeyCase.CamelCase, KeyCase.HasNoSeparator, resource, EntryCount(resource));
  }

  /** After `serialize`, no member name at any depth contains an upper-case letter. */
  lemma SerializedKeysHaveNoUpper(resource: JsonValue)
    ensures KeysOk(KeyCase.HasNoUpper, Serialize(resource))
  {
    forall k ensures KeyCase.HasNoUpper(KeyCase.KebabCase(k)) {
      KeyCase.KebabCaseHasNoUpper(k);
    }
    WalkKeysOk(KeyCase.KebabCase, KeyCase.HasNoUpper, resource, EntryCount(resource));
  }

  lemma SerializeOfParse(resource: JsonValue)
    requires resource.Obj?
    ensures Serialize(Parse(resource)) == Value(KeyCase.KebabCase, Value(KeyCase.CamelCase, resource))
  {
  }

  lemma ParseOfSerialize(resource: JsonValue)
    requires resource.Obj?
    ensures Parse(Serialize(resource)) == Value(KeyCase.CamelCase, Value(KeyCase.KebabCase, resource))
  {
  }

  /** A plain document whose names are all in kebab form survives `parse` followed by `serialize`. */
  lemma SerializeParseRoundTrip(resource: JsonValue)
    requires resource.Obj? && Plain(resource) && KeysOk(KeyCase.IsKebab, resource)
    ensures Serialize(Parse(resource)) == resource
  {
    forall k | KeyCase.IsKebab(k) ensures KeyCase.KebabCase(KeyCase.CamelCase(k)) == k {
      KeyCase.KebabCamelRoundTrip(k);
    }
    RoundTrip(KeyCase.CamelCase, KeyCase.KebabCase, KeyCase.IsKebab, resource);
    SerializeOfParse(resource);
  }

  /** A plain document whose names are all in camel form survives `serialize` followed by `parse`. */
  lemma ParseSerializeRoundTrip(resource: JsonValue)
    requires resource.Obj? && Plain(resource) && KeysOk(KeyCase.IsCamel, resource)
    ensures Parse(Serialize(resource)) == resource
  {
    forall k | KeyCase.IsCamel(k) ensures KeyCase.CamelCase(KeyCase.KebabCase(k)) == k {
      KeyCase.KebabCamelRoundTrip(k);
    }
    RoundTrip(KeyCase.KebabCase, KeyCase.CamelCase, KeyCase.IsCamel, resource);
    ParseOfSerialize(resource);
  }

  /** A plain document whose names are single lower-case words is a fixed point of both `parse` and `serialize`. */
  lemma SingleWordDocumentFixed(resource: JsonValue)
    requires resource.Obj? && Plain(resource) && KeysOk(KeyCase.LowerWord, resource)
    ensures Parse(resource) == resource && Serialize(resource) == resource
  {
    forall k | KeyCase.LowerWord(k) ensures KeyCase.CamelCase(k) == k && KeyCase.KebabCase(k) == k {
      KeyCase.SingleWordFixed(k);
    }
    FixedPoint(KeyCase.CamelCase, KeyCase.LowerWord, resource);
    FixedPoint(KeyCase.KebabCase, KeyCase.LowerWord, resource);
  }
}
