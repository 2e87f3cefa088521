/**
 * The documents of the parser's test suite, and what parse and serialize do
 * with them. The proofs are stated for any key function with the right
 * values on the names involved, then applied to the two key functions.
 */
module JsonApiParserExamples {
  import opened Json
  import opened JsonApiParser
  import opened JsonApiParserProperties
  import KeyCase

  /** Camel- and kebab-casing agree with a word list, and the camel form is camel-case already. */
  lemma KeyForms(ws: seq<string>, kebab: string, camel: string)
    requires KeyCase.LowerWords(ws)
    requires kebab == KeyCase.KebabJoin(ws) && camel == KeyCase.CamelJoin(ws)
    ensures KeyCase.CamelCase(kebab) == camel && KeyCase.KebabCase(camel) == kebab
    ensures KeyCase.CamelCase(camel) == camel
  {
    KeyCase.WordsOfKebabJoin(ws);
    KeyCase.WordsOfCamelJoin(ws);
  }

  lemma TwoWords(a: string, b: string, kebab: string, camel: string)
    requires KeyCase.LowerWord(a) && KeyCase.LowerWord(b)
    requires kebab == a + "-" + b && camel == a + KeyCase.Capitalize(b)
    ensures KeyCase.CamelCase(kebab) == camel && KeyCase.KebabCase(camel) == kebab
    ensures KeyCase.CamelCase(camel) == camel
  {
    var ws := [a, b];
    assert ws[1..] == [b] && [b][1..] == [];
    assert KeyCase.KebabJoin(ws) == kebab;
    assert KeyCase.CapitalizedConcat([b]) == KeyCase.Capitalize(b);
    assert KeyCase.CamelJoin(ws) == camel;
    KeyForms(ws, kebab, camel);
  }

  lemma FirstName()
    ensures KeyCase.CamelCase("first-name") == "firstName" && KeyCase.KebabCase("firstName") == "first-name"
    ensures KeyCase.CamelCase("firstName") == "firstName"
  {
    var a, b := "first", "name";
    assert KeyCase.LowerWord(a) && KeyCase.LowerWord(b);
    assert KeyCase.Capitalize(b) == "Name";
    assert a + "-" + b == "first-name";
    assert a + "Name" == "firstName";
    TwoWords(a, b, "first-name", "firstName");
  }

  lemma FooBar()
    ensures KeyCase.CamelCase("foo-bar") == "fooBar" && KeyCase.KebabCase("fooBar") == "foo-bar"
  {
    var a, b := "foo", "bar";
    assert KeyCase.LowerWord(a) && KeyCase.LowerWord(b);
    assert KeyCase.Capitalize(b) == "Bar";
    assert a + "-" + b == "foo-bar";
    assert a + "Bar" == "fooBar";
    TwoWords(a, b, "foo-bar", "fooBar");
  }

  lemma BarFoo()
    ensures KeyCase.CamelCase("bar-foo") == "barFoo" && KeyCase.KebabCase("barFoo") == "bar-foo"
  {
    var a, b := "bar", "foo";
    assert KeyCase.LowerWord(a) && KeyCase.LowerWord(b);
    assert KeyCase.Capitalize(b) == "Foo";
    assert a + "-" + b == "bar-foo";
    assert a + "Foo" == "barFoo";
    TwoWords(a, b, "bar-foo", "barFoo");
  }

  /** The two words of "dashed-relationship", checked apart from the conversion. */
  lemma DashedWords()
    ensures KeyCase.LowerWord("dashed") && KeyCase.LowerWord("relationship")
    ensures KeyCase.Capitalize("relationship") == "Relationship"
  {
    RelationshipWord();
    CapitalRelationship();
  }

  lemma RelationshipWord()
    ensures KeyCase.LowerWord("relationship")
  {
  }

  lemma CapitalRelationship()
    ensures KeyCase.Capitalize("relationship") == "Relationship"
  {
    var w := "relationship";
    assert KeyCase.ToUpper(w[0]) == 'R';
    assert [KeyCase.ToUpper(w[0])] + w[1..] == "Relationship";
  }

  lemma DashedRelationship()
    ensures KeyCase.CamelCase("dashed-relationship") == "dashedRelationship"
    ensures KeyCase.KebabCase("dashedRelationship") == "dashed-relationship"
  {
    var a, b := "dashed", "relationship";
    DashedWords();
    assert a + "-" + b == "dashed-relationship";
    assert a + "Relationship" == "dashedRelationship";
    TwoWords(a, b, "dashed-relationship", "dashedRelationship");
  }

  /** A key function that leaves every one-word lower-case name alone. */
  ghost predicate FixesWords(f: KeyFn) {
    forall w :: KeyCase.LowerWord(w) ==> f(w) == w
  }

  lemma BothFixWords()
    ensures FixesWords(KeyCase.CamelCase) && FixesWords(KeyCase.KebabCase)
  {
    forall w | KeyCase.LowerWord(w) ensures KeyCase.CamelCase(w) == w && KeyCase.KebabCase(w) == w {
      KeyCase.SingleWordFixed(w);
    }
  }

  /** An object whose renamed member names stay distinct is renamed member by member. */
  lemma ObjectValue(f: KeyFn, es: Entries, out: Entries)
    requires |out| == |es|
    requires forall i :: 0 <= i < |es| ==> out[i] == (f(es[i].0), Value(f, es[i].1))
    requires forall i, j :: 0 <= i < j < |es| ==> out[i].0 != out[j].0
    ensures Value(f, Obj(es)) == Obj(out)
  {
    var c := Obj(es);
    forall i, j | 0 <= i < j < |es| ensures f(EntryKey(c, i)) != f(EntryKey(c, j)) {
      assert out[i].0 != out[j].0;
    }
    WalkRenames(f, c, |es|);
  }

  function Resource(id: JsonValue, kind: JsonValue, attrs: JsonValue, rels: JsonValue, links: JsonValue): JsonValue {
    Obj([("id", id), ("type", kind), ("attributes", attrs), ("relationships", rels), ("links", links)])
  }

  /** A resource identifier: its "type" value is data, not a key, and keeps its hyphen. */
  function Identifier(): JsonValue {
    Obj([("id", Str("11")), ("type", Str("dashed-relationship"))])
  }

  function Links(): JsonValue {
    Obj([("self", Str("/api/user/12/"))])
  }

  function Deep(fooBar: string, barFoo: string): JsonValue {
    Obj([(fooBar, Arr([Obj([(barFoo, Str("foobar"))])]))])
  }

  function Attributes(firstName: string, fooBar: string, barFoo: string): JsonValue {
    Obj([(firstName, Str("foo")), ("deep", Deep(fooBar, barFoo))])
  }

  function Relationships(dashed: string): JsonValue {
    Obj([(dashed, Obj([("data", Identifier())]))])
  }

  /** The dashed resource of the parser tests, with its four compound member names left open. */
  function DashDocument(firstName: string, fooBar: string, barFoo: string, dashed: string): JsonValue {
    Resource(Str("12"), Str("user"), Attributes(firstName, fooBar, barFoo), Relationships(dashed), Links())
  }

  function DashData(): JsonValue {
    DashDocument("first-name", "foo-bar", "bar-foo", "dashed-relationship")
  }

  function ParsedDashData(): JsonValue {
    DashDocument("firstName", "fooBar", "barFoo", "dashedRelationship")
  }

  lemma DeepValue(f: KeyFn, fooBar: string, barFoo: string)
    ensures Value(f, Deep(fooBar, barFoo)) == Deep(f(fooBar), f(barFoo))
  {
    var inner := Obj([(barFoo, Str("foobar"))]);
    ObjectValue(f, inner.entries, [(f(barFoo), Str("foobar"))]);
    var list := Arr([inner]);
    assert Value(f, list) == Arr([Obj([(f(barFoo), Str("foobar"))])]);
    ObjectValue(f, Deep(fooBar, barFoo).entries, Deep(f(fooBar), f(barFoo)).entries);
  }

  lemma AttributesValue(f: KeyFn, firstName: string, fooBar: string, barFoo: string)
    requires f("deep") == "deep" && f(firstName) != "deep"
    ensures Value(f, Attributes(firstName, fooBar, barFoo)) == Attributes(f(firstName), f(fooBar), f(barFoo))
  {
    DeepValue(f, fooBar, barFoo);
    ObjectValue(f, Attributes(firstName, fooBar, barFoo).entries, Attributes(f(firstName), f(fooBar), f(barFoo)).entries);
  }

  lemma RelationshipsValue(f: KeyFn, dashed: string)
    requires f("id") == "id" && f("type") == "type" && f("data") == "data"
    ensures Value(f, Relationships(dashed)) == Relationships(f(dashed))
  {
    ObjectValue(f, Identifier().entries, Identifier().entries);
    var rel := Obj([("data", Identifier())]);
    ObjectValue(f, rel.entries, rel.entries);
    ObjectValue(f, Relationships(dashed).entries, Relationships(f(dashed)).entries);
  }

  lemma LinksValue(f: KeyFn)
    requires f("self") == "self"
    ensures Value(f, Links()) == Links()
  {
    ObjectValue(f, Links().entries, Links().entries);
  }

  lemma ResourceValue(f: KeyFn, id: string, kind: string, attrs: JsonValue, rels: JsonValue, links: JsonValue)
    requires f("id") == "id" && f("type") == "type" && f("attributes") == "attributes"
    requires f("relationships") == "relationships" && f("links") == "links"
    ensures Value(f, Resource(Str(id), Str(kind), attrs, rels, links)) ==
      Resource(Str(id), Str(kind), Value(f, attrs), Value(f, rels), Value(f, links))
  {
    var es := Resource(Str(id), Str(kind), attrs, rels, links).entries;
    var out := Resource(Str(id), Str(kind), Value(f, attrs), Value(f, rels), Value(f, links)).entries;
    assert |out[0].0| == 2 && |out[1].0| == 4 && |out[2].0| == 10 && |out[3].0| == 13 && |out[4].0| == 5;
    forall i, j | 0 <= i < j < |es| ensures out[i].0 != out[j].0 {
      assert |out[i].0| != |out[j].0|;
    }
    forall i | 0 <= i < |es| ensures out[i] == (f(es[i].0), Value(f, es[i].1)) {
      assert out[i].0 == es[i].0;
    }
    ObjectValue(f, es, out);
  }

  lemma ShortWords()
    ensures KeyCase.LowerWord("id") && KeyCase.LowerWord("type") && KeyCase.LowerWord("links")
    ensures KeyCase.LowerWord("deep") && KeyCase.LowerWord("data") && KeyCase.LowerWord("self")
  {
  }

  lemma LongWords()
    ensures KeyCase.LowerWord("attributes") && KeyCase.LowerWord("relationships")
  {
  }

  lemma WordNames(f: KeyFn)
    requires FixesWords(f)
    ensures f("id") == "id" && f("type") == "type" && f("attributes") == "attributes"
    ensures f("relationships") == "relationships" && f("links") == "links"
    ensures f("deep") == "deep" && f("data") == "data" && f("self") == "self"
  {
    ShortWords();
    LongWords();
  }

  /** Renaming the dashed document's compound names renames them at every depth and nothing else. */
  lemma DashDocumentValue(f: KeyFn, firstName: string, fooBar: string, barFoo: string, dashed: string)
    requires FixesWords(f)
    requires f(firstName) != "deep"
    ensures Value(f, DashDocument(firstName, fooBar, barFoo, dashed)) ==
      DashDocument(f(firstName), f(fooBar), f(barFoo), f(dashed))
  {
    WordNames(f);
    AttributesValue(f, firstName, fooBar, barFoo);
    RelationshipsValue(f, dashed);
    LinksValue(f);
    ResourceValue(f, "12", "user", Attributes(firstName, fooBar, barFoo), Relationships(dashed), Links());
  }

  /** parse turns the hyphenated names into camel case at every depth; the value "dashed-relationship" stays. */
  lemma ParseDashData()
    ensures Parse(DashData()) == ParsedDashData()
  {
    FirstName(); FooBar(); BarFoo(); DashedRelationship(); BothFixWords();
    DashDocumentValue(KeyCase.CamelCase, "first-name", "foo-bar", "bar-foo", "dashed-relationship");
  }

  /** serialize gives the hyphenated document back. */
  lemma SerializeParsedDashData()
    ensures Serialize(ParsedDashData()) == DashData()
  {
    FirstName(); FooBar(); BarFoo(); DashedRelationship(); BothFixWords();
    DashDocumentValue(KeyCase.KebabCase, "firstName", "fooBar", "barFoo", "dashedRelationship");
  }

  /** Two names with the same image: the later member's value is the one kept, at the earlier position. */
  lemma Collision(f: KeyFn, a: string, b: string, x: JsonValue, y: JsonValue)
    requires f(a) == f(b)
    requires !x.Arr? && !x.Obj? && !y.Arr? && !y.Obj?
    ensures Value(f, Obj([(a, x), (b, y)])) == Obj([(f(a), y)])
  {
    var c := Obj([(a, x), (b, y)]);
    assert Walk(f, c, 1) == Assign([], f(a), x);
    assert Walk(f, c, 1) == [(f(a), x)];
    assert Walk(f, c, 2) == Assign([(f(a), x)], f(b), y);
  }

  lemma CollidingNames()
    ensures Parse(Obj([("first-name", Num(1)), ("firstName", Num(2))])) == Obj([("firstName", Num(2))])
  {
    FirstName();
    Collision(KeyCase.CamelCase, "first-name", "firstName", Num(1), Num(2));
  }

  lemma SmallIndexKeys()
    ensures IndexKey(0) == "0" && IndexKey(1) == "1"
  {
    assert Digit(0) == '0' && Digit(1) == '1';
  }

  /** An array directly inside an array comes out as an object keyed by index. */
  lemma NestedArray(f: KeyFn, k: string, x: JsonValue, y: JsonValue)
    requires f("0") == "0" && f("1") == "1"
    requires !x.Arr? && !x.Obj? && !y.Arr? && !y.Obj?
    ensures Value(f, Obj([(k, Arr([Arr([x, y])]))])) == Obj([(f(k), Arr([Obj([("0", x), ("1", y)])]))])
  {
    SmallIndexKeys();
    var inner := Arr([x, y]);
    assert Walk(f, inner, 1) == Assign([], "0", x);
    assert Walk(f, inner, 1) == [("0", x)];
    assert Walk(f, inner, 2) == Assign([("0", x)], "1", y);
    assert [("0", x)][1..] == [];
    assert Assign([("0", x)], "1", y) == [("0", x)] + Assign([], "1", y);
    assert Walk(f, inner, 2) == [("0", x), ("1", y)];
    assert Item(f, inner) == Obj([("0", x), ("1", y)]);
    var outer := Arr([inner]);
    assert Value(f, outer) == Arr([Obj([("0", x), ("1", y)])]);
    ObjectValue(f, [(k, outer)], [(f(k), Value(f, outer))]);
  }

  /** A one-digit name is one word, and camel-casing leaves it alone. */
  lemma OneDigitFixed(c: char)
    requires '0' <= c <= '9'
    ensures KeyCase.CamelCase([c]) == [c]
  {
    KeyCase.WordsOfPrefix([c], []);
    assert [c] + [] == [c];
    assert KeyCase.LowerText([c]) == [c];
    assert KeyCase.CamelJoin([[c]]) == [c] + "";
  }

  lemma MatrixWord()
    ensures KeyCase.LowerWord("matrix")
  {
  }

  lemma ParseMatrix()
    ensures Parse(Obj([("matrix", Arr([Arr([Str("x"), Str("y")])]))])) ==
      Obj([("matrix", Arr([Obj([("0", Str("x")), ("1", Str("y"))])]))])
  {
    OneDigitFixed('0');
    OneDigitFixed('1');
    MatrixWord();
    BothFixWords();
    assert KeyCase.CamelCase("matrix") == "matrix";
    NestedArray(KeyCase.CamelCase, "matrix", Str("x"), Str("y"));
  }
}
