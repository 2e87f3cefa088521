/**
 * A small model of the key functions the parser hands to its walker:
 * lodash `camelCase` and `kebabCase` restricted to ASCII. A key is split into
 * words at separators ('-', '_', ' ') and before every upper-case letter; the
 * words are lower-cased and then glued back together, either with capitals
 * ("firstName") or with hyphens ("first-name").
 */
module KeyCase {

  predicate IsSeparator(c: char) {
    c == '-' || c == '_' || c == ' '
  }

  predicate IsUpper(c: char) {
    'A' <= c <= 'Z'
  }

  predicate IsLowerLetter(c: char) {
    'a' <= c <= 'z'
  }

  function ToLower(c: char): (d: char)
    ensures !IsUpper(d)
    ensures IsSeparator(d) == IsSeparator(c)
  {
    if IsUpper(c) then (c as int + 32) as char else c
  }

  function ToUpper(c: char): (d: char)
    ensures IsLowerLetter(c) ==> IsUpper(d) && ToLower(d) == c
  {
    if IsLowerLetter(c) then (c as int - 32) as char else c
  }

  function LowerText(s: string): (t: string)
    ensures |t| == |s|
    ensures forall i :: 0 <= i < |s| ==> t[i] == ToLower(s[i])
  {
    seq(|s|, i requires 0 <= i < |s| => ToLower(s[i]))
  }

  /** A character that continues a word: neither a separator nor an upper-case letter. */
  predicate Continues(c: char) {
    !IsSeparator(c) && !IsUpper(c)
  }

  /** Length of the longest prefix of `t` made of word-continuing characters. */
  function TailRun(t: string): (n: nat)
    ensures n <= |t|
    ensures forall i :: 0 <= i < n ==> Continues(t[i])
    ensures n < |t| ==> !Continues(t[n])
  {
    if t == [] || !Continues(t[0]) then 0 else 1 + TailRun(t[1..])
  }

  /** The words of a key, lower-cased, in order. */
  function Words(s: string): seq<string>
    decreases |s|
  {
    if s == [] then []
    else if IsSeparator(s[0]) then Words(s[1..])
    else
      var n := 1 + TailRun(s[1..]);
      [LowerText(s[..n])] + Words(s[n..])
  }

  /** Every word is non-empty and holds neither a separator nor an upper-case letter. */
  lemma {:induction false} WordsContinue(s: string)
    ensures forall w :: w in Words(s) ==> |w| >= 1 && forall i :: 0 <= i < |w| ==> Continues(w[i])
    decreases |s|
  {
    if s != [] {
      if IsSeparator(s[0]) {
        WordsContinue(s[1..]);
      } else {
        var n := 1 + TailRun(s[1..]);
        WordsContinue(s[n..]);
        var w := LowerText(s[..n]);
        forall i | 0 <= i < |w| ensures Continues(w[i]) {
          if i > 0 {
            assert s[i] == s[1..][i - 1];
          }
        }
      }
    }
  }

  function Capitalize(w: string): (c: string)
    ensures |c| == |w|
  {
    if w == [] then [] else [ToUpper(w[0])] + w[1..]
  }

  function CapitalizedConcat(ws: seq<string>): string {
    if ws == [] then "" else Capitalize(ws[0]) + CapitalizedConcat(ws[1..])
  }

  function CamelJoin(ws: seq<string>): string {
    if ws == [] then "" else ws[0] + CapitalizedConcat(ws[1..])
  }

  function KebabJoin(ws: seq<string>): string {
    if ws == [] then ""
    else if |ws| == 1 then ws[0]
    else ws[0] + "-" + KebabJoin(ws[1..])
  }

  /** Model of lodash `camelCase`. */
  function CamelCase(s: string): string {
    CamelJoin(Words(s))
  }

  /** Model of lodash `kebabCase`. */
  function KebabCase(s: string): string {
    KebabJoin(Words(s))
  }

  predicate HasNoSeparator(s: string) {
    forall i :: 0 <= i < |s| ==> !IsSeparator(s[i])
  }

  predicate HasNoUpper(s: string) {
    forall i :: 0 <= i < |s| ==> !IsUpper(s[i])
  }

  /** A lower-case word that survives capitalisation: it starts with a letter and holds only letters and digits. */
  predicate LowerWord(w: string) {
    |w| >= 1 && IsLowerLetter(w[0]) &&
    forall i :: 0 <= i < |w| ==> IsLowerLetter(w[i]) || '0' <= w[i] <= '9'
  }

  predicate LowerWords(ws: seq<string>) {
    forall i :: 0 <= i < |ws| ==> LowerWord(ws[i])
  }

  /** `s` is already in kebab form: kebab-casing leaves it alone and its words are plain lower-case words. */
  predicate IsKebab(s: string) {
    LowerWords(Words(s)) && KebabCase(s) == s
  }

  /** `s` is already in camel form. */
  predicate IsCamel(s: string) {
    LowerWords(Words(s)) && CamelCase(s) == s
  }

  lemma {:induction false} TailRunAppend(u: string, t: string)
    requires forall i :: 0 <= i < |u| ==> Continues(u[i])
    ensures TailRun(u + t) == |u| + TailRun(t)
  {
    if u != [] {
      assert (u + t)[1..] == u[1..] + t;
      TailRunAppend(u[1..], t);
    } else {
      assert u + t == t;
    }
  }

  /** A word followed by a word boundary splits off as that word, lower-cased. */
  lemma {:induction false} WordsOfPrefix(w: string, t: string)
    requires |w| >= 1 && !IsSeparator(w[0])
    requires forall i :: 1 <= i < |w| ==> Continues(w[i])
    requires t == [] || !Continues(t[0])
    ensures Words(w + t) == [LowerText(w)] + Words(t)
  {
    var s := w + t;
    assert s[1..] == w[1..] + t;
    TailRunAppend(w[1..], t);
    assert TailRun(t) == 0;
    var n := 1 + TailRun(s[1..]);
    assert n == |w|;
    assert s[..n] == w && s[n..] == t;
  }

  lemma LowerTextOfLowerWord(w: string)
    requires LowerWord(w)
    ensures LowerText(w) == w
  {
  }

  /** A plain lower-case word followed by a word boundary splits off unchanged. */
  lemma LowerWordFirst(w: string, t: string)
    requires LowerWord(w)
    requires t == [] || !Continues(t[0])
    ensures Words(w + t) == [w] + Words(t)
  {
    LowerTextOfLowerWord(w);
    WordsOfPrefix(w, t);
  }

  /** A hyphen in front of a key is a word boundary that adds no word. */
  lemma HyphenFirst(t: string)
    ensures Words("-" + t) == Words(t)
    ensures !Continues(("-" + t)[0])
  {
    assert ("-" + t)[0] == '-' && ("-" + t)[1..] == t;
  }

  lemma KebabJoinCons(ws: seq<string>)
    requires |ws| > 1
    ensures KebabJoin(ws) == ws[0] + ("-" + KebabJoin(ws[1..]))
  {
  }

  /** Splitting a kebab-joined key gives back its words. */
  lemma {:induction false} WordsOfKebabJoin(ws: seq<string>)
    requires LowerWords(ws)
    ensures Words(KebabJoin(ws)) == ws
  {
    if ws == [] {
    } else if |ws| == 1 {
      assert KebabJoin(ws) == ws[0] + [] && ws == [ws[0]];
      LowerWordFirst(ws[0], []);
    } else {
      assert LowerWords(ws[1..]);
      WordsOfKebabJoin(ws[1..]);
      KebabJoinStep(ws);
    }
  }

  /** One more word in front: the hyphen separates it from the words already joined. */
  lemma KebabJoinStep(ws: seq<string>)
    requires |ws| > 1 && LowerWord(ws[0])
    requires Words(KebabJoin(ws[1..])) == ws[1..]
    ensures Words(KebabJoin(ws)) == ws
  {
    var tail := KebabJoin(ws[1..]);
    KebabJoinCons(ws);
    HyphenFirst(tail);
    LowerWordFirst(ws[0], "-" + tail);
    assert ws == [ws[0]] + ws[1..];
  }

  /** A capitalised plain word starts with a capital, continues like the word, and lower-cases back to it. */
  lemma CapitalizeWord(w: string)
    requires LowerWord(w)
    ensures var c := Capitalize(w);
      |c| >= 1 && IsUpper(c[0]) && !IsSeparator(c[0]) &&
      (forall i :: 1 <= i < |c| ==> Continues(c[i])) && LowerText(c) == w
  {
    var c := Capitalize(w);
    assert c[0] == ToUpper(w[0]) && c[1..] == w[1..];
    forall i | 0 <= i < |c| ensures ToLower(c[i]) == w[i] {
      if i > 0 {
        assert c[i] == w[i];
      }
    }
  }

  lemma CapitalizedConcatCons(ws: seq<string>)
    requires ws != []
    ensures CapitalizedConcat(ws) == Capitalize(ws[0]) + CapitalizedConcat(ws[1..])
  {
  }

  lemma {:induction false} WordsOfCapitalizedConcat(ws: seq<string>)
    requires LowerWords(ws)
    ensures Words(CapitalizedConcat(ws)) == ws
    ensures CapitalizedConcat(ws) == [] || IsUpper(CapitalizedConcat(ws)[0])
  {
    if ws != [] {
      var w, rest := Capitalize(ws[0]), CapitalizedConcat(ws[1..]);
      assert LowerWord(ws[0]) && LowerWords(ws[1..]);
      WordsOfCapitalizedConcat(ws[1..]);
      CapitalizeWord(ws[0]);
      CapitalizedConcatCons(ws);
      WordsOfPrefix(w, rest);
      assert (w + rest)[0] == w[0];
      assert ws == [ws[0]] + ws[1..];
    }
  }

  /** Splitting a camel-joined key gives back its words. */
  lemma {:induction false} WordsOfCamelJoin(ws: seq<string>)
    requires LowerWords(ws)
    ensures Words(CamelJoin(ws)) == ws
  {
    if ws != [] {
      WordsOfCapitalizedConcat(ws[1..]);
      LowerWordFirst(ws[0], CapitalizedConcat(ws[1..]));
    }
  }

  /** Kebab-casing a camel-cased key gives back its kebab form. */
  lemma KebabOfCamel(s: string)
    requires LowerWords(Words(s))
    ensures KebabCase(CamelCase(s)) == KebabCase(s)
  {
    WordsOfCamelJoin(Words(s));
  }

  /** Camel-casing a kebab-cased key gives back its camel form. */
  lemma CamelOfKebab(s: string)
    requires LowerWords(Words(s))
    ensures CamelCase(KebabCase(s)) == CamelCase(s)
  {
    WordsOfKebabJoin(Words(s));
  }

  /** The round trip the parser relies on, in both directions. */
  lemma KebabCamelRoundTrip(s: string)
    ensures IsKebab(s) ==> KebabCase(CamelCase(s)) == s
    ensures IsCamel(s) ==> CamelCase(KebabCase(s)) == s
  {
    if LowerWords(Words(s)) {
      KebabOfCamel(s);
      CamelOfKebab(s);
    }
  }

  /** A key that is one lower-case word is left alone by both functions. */
  lemma SingleWordFixed(w: string)
    requires LowerWord(w)
    ensures CamelCase(w) == w && KebabCase(w) == w
  {
    WordsOfKebabJoin([w]);
    assert KebabJoin([w]) == w;
    assert CamelJoin([w]) == w + "";
  }

  /** A one-word lower-case name is already in camel and in kebab form. */
  lemma SingleWordForms(w: string)
    requires LowerWord(w)
    ensures IsCamel(w) && IsKebab(w)
  {
    LowerWordFirst(w, "");
    assert w + "" == w;
    SingleWordFixed(w);
  }

  /** Camel-cased keys contain no separator, so no hyphen survives `parse`. */
  lemma {:induction false} CapitalizedConcatHasNoSeparator(ws: seq<string>)
    requires forall w :: w in ws ==> forall i :: 0 <= i < |w| ==> !IsSeparator(w[i])
    ensures forall i :: 0 <= i < |CapitalizedConcat(ws)| ==> !IsSeparator(CapitalizedConcat(ws)[i])
  {
    if ws != [] {
      CapitalizedConcatHasNoSeparator(ws[1..]);
      var w := ws[0];
      assert forall i :: 0 <= i < |w| ==> !IsSeparator(w[i]);
      assert forall i :: 0 <= i < |Capitalize(w)| ==> !IsSeparator(Capitalize(w)[i]) by {
        if w != [] {
          assert !IsSeparator(ToUpper(w[0]));
        }
      }
    }
  }

  lemma CamelCaseHasNoSeparator(s: string)
    ensures HasNoSeparator(CamelCase(s))
  {
    var ws := Words(s);
    WordsContinue(s);
    if ws != [] {
      assert forall w :: w in ws[1..] ==> w in ws;
      CapitalizedConcatHasNoSeparator(ws[1..]);
    }
  }

  /** Kebab-cased keys contain no upper-case letter. */
  lemma {:induction false} KebabJoinHasNoUpper(ws: seq<string>)
    requires forall w :: w in ws ==> forall i :: 0 <= i < |w| ==> !IsUpper(w[i])
    ensures forall i :: 0 <= i < |KebabJoin(ws)| ==> !IsUpper(KebabJoin(ws)[i])
  {
    if |ws| > 1 {
      KebabJoinHasNoUpper(ws[1..]);
    }
  }

  lemma KebabCaseHasNoUpper(s: string)
    ensures HasNoUpper(KebabCase(s))
  {
    WordsContinue(s);
    KebabJoinHasNoUpper(Words(s));
  }
}
