/**
 * `getInitials` of the browser's auth client: the avatar letters of a user
 * name. Underscores and hyphens separate words like whitespace does; no
 * word gives the app's own initials "FL".
 */
module AuthClient {
  import opened Wrappers
  import Strings

  /** The app's initials, shown when the name yields no word. */
  const Fallback: string := "FL"

  /** A character that ends a word: whitespace (`\s`), `_` or `-`. */
  predicate IsSeparator(c: char) {
    Strings.IsSpace(c) || c == '_' || c == '-'
  }

  /** `.replace(/[_-]/g, " ")`: every underscore and hyphen becomes a space. */
  function Dashes(s: string): (r: string)
    ensures |r| == |s|
    ensures forall i :: 0 <= i < |s| ==> r[i] == if s[i] == '_' || s[i] == '-' then ' ' else s[i]
    ensures '_' !in r && '-' !in r
  {
    if s == [] then [] else [if s[0] == '_' || s[0] == '-' then ' ' else s[0]] + Dashes(s[1..])
  }

  /**
   * `.split(/\s+/)` before `.filter(Boolean)`: the pieces between
   * whitespace characters. Split at every whitespace character rather than
   * at every run of them; a run only adds empty pieces, which the filter
   * drops, so the words are the same.
   */
  function Fields(s: string): (r: seq<string>)
    ensures |r| >= 1
  {
    if s == [] then [""]
    else if Strings.IsSpace(s[0]) then [""] + Fields(s[1..])
    else
      var rest := Fields(s[1..]);
      [[s[0]] + rest[0]] + rest[1..]
  }

  /** `.filter(Boolean)`: the non-empty pieces, in order. */
  function NonEmpty(ps: seq<string>): (r: seq<string>)
    ensures forall w :: w in r ==> w != "" && w in ps
  {
    if ps == [] then [] else (if ps[0] == "" then [] else [ps[0]]) + NonEmpty(ps[1..])
  }

  /** The cleaned word list of a name. */
  function Words(name: string): seq<string> {
    NonEmpty(Fields(Dashes(Strings.Trim(name))))
  }

  function Min(a: int, b: int): int {
    if a <= b then a else b
  }

  /** `getInitials(name)`; `None` stands for an undefined name. */
  function GetInitials(name: Option<string>): string {
    if name.None? || name.value == "" then Fallback
    else InitialsOf(Words(name.value))
  }

  /** The initials of the cleaned word list. */
  function InitialsOf(cleaned: seq<string>): string
    requires forall w :: w in cleaned ==> w != ""
  {
    if |cleaned| == 0 then Fallback
    else
      assert cleaned[0] in cleaned;
      if |cleaned| == 1 then Strings.ToUpper(cleaned[0][..Min(2, |cleaned[0]|)])
      else
        assert cleaned[1] in cleaned;
        Strings.ToUpper([cleaned[0][0], cleaned[1][0]])
  }

  // ---------------------------------------------------------------------
  // The words, independently of how they are cut
  // ---------------------------------------------------------------------

  /** The name with every separator removed. */
  function Letters(s: string): string {
    if s == [] then [] else (if IsSeparator(s[0]) then [] else [s[0]]) + Letters(s[1..])
  }

  function SpacesOut(s: string): string {
    if s == [] then [] else (if Strings.IsSpace(s[0]) then [] else [s[0]]) + SpacesOut(s[1..])
  }

  function Concat(ps: seq<string>): string {
    if ps == [] then [] else ps[0] + Concat(ps[1..])
  }

  lemma {:induction false} FieldsConcat(s: string)
    ensures Concat(Fields(s)) == SpacesOut(s)
  {
    if s != [] {
      FieldsConcat(s[1..]);
      var rest := Fields(s[1..]);
      if !Strings.IsSpace(s[0]) {
        var r := Fields(s);
        assert r[1..] == rest[1..];
        assert Concat(rest) == rest[0] + Concat(rest[1..]);
      }
    }
  }

  lemma {:induction false} NonEmptyConcat(ps: seq<string>)
    ensures Concat(NonEmpty(ps)) == Concat(ps)
  {
    if ps != [] {
      NonEmptyConcat(ps[1..]);
      if ps[0] == "" {
        assert NonEmpty(ps) == NonEmpty(ps[1..]);
      } else {
        assert NonEmpty(ps) == [ps[0]] + NonEmpty(ps[1..]);
        assert ([ps[0]] + NonEmpty(ps[1..]))[1..] == NonEmpty(ps[1..]);
      }
    }
  }

  lemma {:induction false} DashesSpacesOut(s: string)
    ensures SpacesOut(Dashes(s)) == Letters(s)
  {
    if s != [] {
      DashesSpacesOut(s[1..]);
      assert Dashes(s)[1..] == Dashes(s[1..]);
    }
  }

  lemma {:induction false} LettersAppend(a: string, b: string)
    ensures Letters(a + b) == Letters(a) + Letters(b)
  {
    if a == [] {
      assert a + b == b;
    } else {
      var ab := a + b;
      assert ab != [] && ab[0] == a[0] && ab[1..] == a[1..] + b;
      LettersAppend(a[1..], b);
      var head := if IsSeparator(a[0]) then [] else [a[0]];
      assert Letters(ab) == head + Letters(ab[1..]);
      assert Letters(a) == head + Letters(a[1..]);
      assert head + (Letters(a[1..]) + Letters(b)) == head + Letters(a[1..]) + Letters(b);
    }
  }

  lemma {:induction false} LettersBlank(s: string)
    requires Strings.IsBlank(s)
    ensures Letters(s) == []
  {
    if s != [] {
      LettersBlank(s[1..]);
    }
  }

  /** Trimming drops only whitespace, so it drops no letter. */
  lemma TrimKeepsLetters(s: string)
    ensures Letters(Strings.Trim(s)) == Letters(s)
  {
    TrimStartKeepsLetters(s);
    TrimEndKeepsLetters(Strings.TrimStart(s));
  }

  lemma TrimStartKeepsLetters(s: string)
    ensures Letters(Strings.TrimStart(s)) == Letters(s)
  {
    var t := Strings.TrimStart(s);
    var k := |s| - |t|;
    assert s == s[..k] + t;
    LettersAppend(s[..k], t);
    LettersBlank(s[..k]);
  }

  lemma TrimEndKeepsLetters(t: string)
    ensures Letters(Strings.TrimEnd(t)) == Letters(t)
  {
    var u := Strings.TrimEnd(t);
    assert t == u + t[|u|..];
    LettersAppend(u, t[|u|..]);
    LettersBlank(t[|u|..]);
  }

  /** The words, glued together, are exactly the name's letters: nothing but separators is lost. */
  lemma WordsKeepLetters(name: string)
    ensures Concat(Words(name)) == Letters(name)
  {
    var t := Strings.Trim(name);
    NonEmptyConcat(Fields(Dashes(t)));
    FieldsConcat(Dashes(t));
    DashesSpacesOut(t);
    TrimKeepsLetters(name);
  }

  /** A word: no character in it is a separator. */
  predicate Clean(w: string) {
    forall i :: 0 <= i < |w| ==> !IsSeparator(w[i])
  }

  lemma {:induction false} FieldsClean(s: string)
    requires '_' !in s && '-' !in s
    ensures forall k :: 0 <= k < |Fields(s)| ==> Clean(Fields(s)[k])
  {
    if s != [] {
      assert '_' !in s[1..] && '-' !in s[1..] by {
        assert forall c :: c in s[1..] ==> c in s;
      }
      FieldsClean(s[1..]);
      var rest := Fields(s[1..]);
      if !Strings.IsSpace(s[0]) {
        var w := [s[0]] + rest[0];
        assert s[0] in s;
        assert Clean(w) by {
          forall i | 0 <= i < |w| ensures !IsSeparator(w[i]) {
            if i > 0 { assert w[i] == rest[0][i - 1]; }
          }
        }
      }
    }
  }

  /** Every word is non-empty and holds no separator. */
  lemma WordsClean(name: string)
    ensures forall w :: w in Words(name) ==> w != "" && Clean(w)
  {
    var d := Dashes(Strings.Trim(name));
    FieldsClean(d);
    forall w | w in Words(name) ensures Clean(w) {
      var k :| 0 <= k < |Fields(d)| && Fields(d)[k] == w;
    }
  }

  lemma {:induction false} ConcatEmpty(ps: seq<string>)
    requires forall w :: w in ps ==> w != ""
    ensures Concat(ps) == [] <==> ps == []
  {
    if ps != [] {
      assert ps[0] in ps;
      assert |Concat(ps)| >= |ps[0]|;
    }
  }

  lemma {:induction false} LettersEmpty(s: string)
    ensures Letters(s) == [] <==> forall i :: 0 <= i < |s| ==> IsSeparator(s[i])
  {
    if s != [] {
      LettersEmpty(s[1..]);
      if IsSeparator(s[0]) {
        forall i | 0 <= i < |s[1..]| ensures IsSeparator(s[1..][i]) == IsSeparator(s[i + 1]) { }
      }
    }
  }

  /**
   * The initials read the name's letters: "FL" without any (an undefined
   * name, an empty one, or one made only of whitespace, `_` and `-`);
   * otherwise the first is the first letter of the name, upper-cased, and
   * the second is the first letter of the second word or, for a single
   * word, its second letter when it has one.
   */
  lemma InitialsFromLetters(name: Option<string>)
    ensures name.None? || (forall i :: 0 <= i < |name.value| ==> IsSeparator(name.value[i])) ==> GetInitials(name) == Fallback
    ensures name.Some? && !(forall i :: 0 <= i < |name.value| ==> IsSeparator(name.value[i])) ==>
      var r := GetInitials(name);
      var letters := Letters(name.value);
      var ws := Words(name.value);
      && 1 <= |r| <= 2
      && |letters| > 0 && r[0] == Strings.ToUpperChar(letters[0])
      && (|ws| == 1 ==> r == Strings.ToUpper(letters[..Min(2, |letters|)]))
      && (|ws| >= 2 ==> ws[1] != "" && |r| == 2 && r[1] == Strings.ToUpperChar(ws[1][0]))
  {
    if name.Some? {
      WordsLetters(name.value);
      if |Words(name.value)| == 1 {
        OneWordInitials(name.value);
      } else if |Words(name.value)| >= 2 {
        TwoWordInitials(name.value);
      }
    }
  }

  /** A single word gives its first two letters (or its only one), upper-cased. */
  lemma OneWordInitials(name: string)
    requires |Words(name)| == 1 && Words(name)[0] != "" && Letters(name) == Words(name)[0]
    ensures var r := GetInitials(Some(name));
      var letters := Letters(name);
      && 1 <= |r| <= 2 && |letters| > 0 && r[0] == Strings.ToUpperChar(letters[0])
      && r == Strings.ToUpper(letters[..Min(2, |letters|)])
  {
    assert name != "";
    assert GetInitials(Some(name)) == InitialsOf(Words(name));
    OneInitials(Words(name), Letters(name));
  }

  lemma OneInitials(ws: seq<string>, letters: string)
    requires forall w :: w in ws ==> w != ""
    requires |ws| == 1 && letters == ws[0]
    ensures var r := InitialsOf(ws);
      && 1 <= |r| <= 2 && |letters| > 0 && r[0] == Strings.ToUpperChar(letters[0])
      && r == Strings.ToUpper(letters[..Min(2, |letters|)])
  {
    assert ws[0] in ws;
  }

  /** Two words or more give the first letter of each of the first two, upper-cased. */
  lemma TwoWordInitials(name: string)
    requires |Words(name)| >= 2 && Words(name)[0] != ""
    requires Letters(name) == Words(name)[0] + Concat(Words(name)[1..])
    ensures var r := GetInitials(Some(name));
      && |r| == 2 && Words(name)[1] != "" && |Letters(name)| > 0
      && r[0] == Strings.ToUpperChar(Letters(name)[0]) && r[1] == Strings.ToUpperChar(Words(name)[1][0])
  {
    assert name != "";
    assert GetInitials(Some(name)) == InitialsOf(Words(name));
    TwoInitials(Words(name), Letters(name));
  }

  lemma TwoInitials(ws: seq<string>, letters: string)
    requires forall w :: w in ws ==> w != ""
    requires |ws| >= 2 && letters == ws[0] + Concat(ws[1..])
    ensures var r := InitialsOf(ws);
      && |r| == 2 && ws[1] != "" && |letters| > 0
      && r[0] == Strings.ToUpperChar(letters[0]) && r[1] == Strings.ToUpperChar(ws[1][0])
  {
    assert ws[0] in ws && ws[1] in ws;
  }

  /** How the words and the letters line up: no word exactly when no letter, and the first word opens the letters. */
  lemma WordsLetters(name: string)
    ensures Words(name) == [] <==> forall i :: 0 <= i < |name| ==> IsSeparator(name[i])
    ensures Words(name) != [] ==> Words(name)[0] != "" && Letters(name) == Words(name)[0] + Concat(Words(name)[1..])
    ensures |Words(name)| == 1 ==> Letters(name) == Words(name)[0]
  {
    var ws := Words(name);
    WordsKeepLetters(name);
    WordsClean(name);
    LettersEmpty(name);
    ConcatEmpty(ws);
    if ws != [] {
      assert ws[0] in ws;
      if |ws| == 1 {
        assert ws[1..] == [];
      }
    }
  }

  /** Example: a name of separators only gets the app's initials. */
  lemma ExampleSeparatorsOnly()
    ensures GetInitials(Some(" -_ ")) == Fallback
  {
    var name := " -_ ";
    assert forall i :: 0 <= i < |name| ==> IsSeparator(name[i]);
    InitialsFromLetters(Some(name));
  }
}
