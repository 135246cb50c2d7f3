/**
 * The hand-rolled inflector of lib/cf/resources/base.rb: the snake-casing of a constant
 * name, `pluralize` and `singularize`.
 */
module Inflector {
  import opened Strings

  /** `gsub(/([A-Z])/, "_\\1")`: an underscore before every capital letter. */
  function Underscored(s: string): (r: string)
    ensures |r| >= |s|
    decreases |s|
  {
    if |s| == 0 then ""
    else (if IsUpper(s[0]) then ['_', s[0]] else [s[0]]) + Underscored(s[1..])
  }

  /**
   * `part.gsub(/([A-Z])/, "_\\1").downcase.gsub(/^_/, "")`: the snake-cased form of one
   * part of a constant name. The result never holds a capital letter.
   */
  function SnakeCase(part: string): (r: string)
    ensures forall i :: 0 <= i < |r| ==> !IsUpper(r[i])
  {
    var lowered := Downcase(Underscored(part));
    if |lowered| > 0 && lowered[0] == '_' then lowered[1..] else lowered
  }

  predicate NoUpper(s: string)
  {
    forall i :: 0 <= i < |s| ==> !IsUpper(s[i])
  }

  lemma {:induction false} UnderscoredNoUpper(s: string)
    requires NoUpper(s)
    ensures Underscored(s) == s
    decreases |s|
  {
    if |s| > 0 {
      UnderscoredNoUpper(s[1..]);
    }
  }

  lemma DowncaseNoUpper(s: string)
    requires NoUpper(s)
    ensures Downcase(s) == s
  {
  }

  /** A part that is already snake case (no capitals, no leading underscore) is kept. */
  lemma SnakeCaseKeepsSnakeCase(s: string)
    requires NoUpper(s)
    requires |s| == 0 || s[0] != '_'
    ensures SnakeCase(s) == s
  {
    UnderscoredNoUpper(s);
    DowncaseNoUpper(s);
  }

  /** A capitalised single word, such as "Orders", is just lower-cased. */
  lemma SnakeCaseCapitalisedWord(s: string)
    requires |s| > 0 && IsUpper(s[0]) && NoUpper(s[1..])
    ensures SnakeCase(s) == Downcase(s)
  {
    UnderscoredNoUpper(s[1..]);
    assert Underscored(s) == ['_', s[0]] + s[1..];
    assert Downcase(Underscored(s))[1..] == Downcase(s);
  }

  lemma {:induction false} UnderscoredAppend(a: string, b: string)
    ensures Underscored(a + b) == Underscored(a) + Underscored(b)
    decreases |a|
  {
    if |a| == 0 {
      assert a + b == b;
    } else {
      assert (a + b)[0] == a[0];
      assert (a + b)[1..] == a[1..] + b;
      UnderscoredAppend(a[1..], b);
    }
  }

  /** A capitalised word gains one leading underscore. */
  lemma UnderscoredCapitalisedWord(a: string)
    requires |a| > 0 && IsUpper(a[0]) && NoUpper(a[1..])
    ensures Underscored(a) == "_" + a
  {
    UnderscoredNoUpper(a[1..]);
    assert a == [a[0]] + a[1..];
  }

  lemma DowncaseAppend(a: string, b: string)
    ensures Downcase(a + b) == Downcase(a) + Downcase(b)
  {
  }

  /** A name made of two capitalised words, such as "AppliedTag", becomes "applied_tag". */
  lemma SnakeCaseTwoWords(a: string, b: string)
    requires |a| > 0 && IsUpper(a[0]) && NoUpper(a[1..])
    requires |b| > 0 && IsUpper(b[0]) && NoUpper(b[1..])
    ensures SnakeCase(a + b) == Downcase(a) + "_" + Downcase(b)
  {
    UnderscoredAppend(a, b);
    UnderscoredCapitalisedWord(a);
    UnderscoredCapitalisedWord(b);
    DowncaseAppend("_" + a, "_" + b);
    DowncaseAppend("_", a);
    DowncaseAppend("_", b);
    assert Downcase("_") == "_";
    var lowered := Downcase(Underscored(a + b));
    assert lowered == "_" + Downcase(a) + ("_" + Downcase(b));
    assert lowered[1..] == Downcase(a) + "_" + Downcase(b);
  }

  /** The constant-name part made of these words, written one after another. */
  function Concat(words: seq<string>): string
    decreases |words|
  {
    if |words| == 0 then "" else Concat(words[..|words| - 1]) + words[|words| - 1]
  }

  /** A word that starts with a capital and has no other capital. */
  predicate Capitalised(w: string)
  {
    |w| > 0 && IsUpper(w[0]) && NoUpper(w[1..])
  }

  function DowncaseAll(words: seq<string>): (r: seq<string>)
    ensures |r| == |words|
    ensures forall i :: 0 <= i < |words| ==> r[i] == Downcase(words[i])
  {
    seq(|words|, i requires 0 <= i < |words| => Downcase(words[i]))
  }

  /** Marking and lower-casing one more capitalised word appends "_" and the lowered word. */
  lemma LoweredSnoc(prefix: string, w: string)
    requires Capitalised(w)
    ensures Downcase(Underscored(prefix + w)) == Downcase(Underscored(prefix)) + "_" + Downcase(w)
  {
    UnderscoredAppend(prefix, w);
    UnderscoredCapitalisedWord(w);
    DowncaseAppend(Underscored(prefix), "_" + w);
    DowncaseAppend("_", w);
    assert Downcase("_") == "_";
  }

  /** Marking and lower-casing a run of capitalised words gives "_" and the lowered words joined by "_". */
  lemma {:induction false} LoweredWords(words: seq<string>)
    requires |words| > 0
    requires forall i :: 0 <= i < |words| ==> Capitalised(words[i])
    ensures Downcase(Underscored(Concat(words))) == "_" + Join(DowncaseAll(words), "_")
    decreases |words|
  {
    var n := |words|;
    var w := words[n - 1];
    var init := words[..n - 1];
    assert Concat(words) == Concat(init) + w;
    assert Capitalised(w);
    LoweredSnoc(Concat(init), w);
    var lowered := DowncaseAll(words);
    assert lowered == DowncaseAll(init) + [Downcase(w)];
    if n == 1 {
      assert Concat(init) == "";
      assert Downcase(Underscored("")) == "";
      assert Join(lowered, "_") == Downcase(w);
    } else {
      forall i | 0 <= i < |init| ensures Capitalised(init[i]) {
        assert init[i] == words[i];
      }
      LoweredWords(init);
      JoinSnoc(DowncaseAll(init), Downcase(w), "_");
    }
  }

  /**
   * The rule of base.rb's snake-casing: a name made of capitalised words becomes those
   * words lower-cased and joined by "_".
   */
  lemma SnakeCaseWords(words: seq<string>)
    requires |words| > 0
    requires forall i :: 0 <= i < |words| ==> Capitalised(words[i])
    ensures SnakeCase(Concat(words)) == Join(DowncaseAll(words), "_")
  {
    LoweredWords(words);
  }

  /**
   * `pluralize`: a word ending in a single "s" is taken to be plural already; otherwise a
   * final "y" becomes "ies", "sh", "ch", "x" and "z" take "es", and any other word takes "s".
   */
  function Pluralize(w: string): (r: string)
    ensures EndsWith(r, "s")
    ensures |w| > 0 ==> |r| >= |w| && r[..|w| - 1] == w[..|w| - 1]
  {
    if EndsWith(w, "s") && !EndsWith(w, "ss") then w
    else if EndsWith(w, "y") then w[..|w| - 1] + "ies"
    else if EndsWith(w, "sh") || EndsWith(w, "ch") || EndsWith(w, "x") || EndsWith(w, "z") then w + "es"
    else w + "s"
  }

  /**
   * `singularize`: a word not ending in "s" is kept; otherwise "ies" becomes "y", "ses",
   * "ches", "xes" and "zes" lose "es", and any other word loses its final "s".
   */
  function Singularize(w: string): (r: string)
    ensures !EndsWith(w, "s") ==> r == w
    ensures EndsWith(w, "s") ==> |r| < |w|
    ensures |r| > 0 ==> r[..|r| - 1] == w[..|r| - 1]
  {
    if !EndsWith(w, "s") then w
    else if EndsWith(w, "ies") then w[..|w| - 3] + "y"
    else if EndsWith(w, "ses") || EndsWith(w, "ches") || EndsWith(w, "xes") || EndsWith(w, "zes") then w[..|w| - 2]
    else w[..|w| - 1]
  }

  /** Last(s, k): the k-th character from the end, or a blank past the start. */
  function Last(s: string, k: nat): char
  {
    if k < |s| then s[|s| - 1 - k] else ' '
  }

  /** Each ending the inflector tests, spelled out character by character. */
  lemma Endings(s: string)
    ensures EndsWith(s, "s") <==> Last(s, 0) == 's'
    ensures EndsWith(s, "y") <==> Last(s, 0) == 'y'
    ensures EndsWith(s, "x") <==> Last(s, 0) == 'x'
    ensures EndsWith(s, "z") <==> Last(s, 0) == 'z'
    ensures EndsWith(s, "ss") <==> Last(s, 1) == 's' && Last(s, 0) == 's'
    ensures EndsWith(s, "sh") <==> Last(s, 1) == 's' && Last(s, 0) == 'h'
    ensures EndsWith(s, "ch") <==> Last(s, 1) == 'c' && Last(s, 0) == 'h'
    ensures EndsWith(s, "ie") <==> Last(s, 1) == 'i' && Last(s, 0) == 'e'
    ensures EndsWith(s, "se") <==> Last(s, 1) == 's' && Last(s, 0) == 'e'
    ensures EndsWith(s, "xe") <==> Last(s, 1) == 'x' && Last(s, 0) == 'e'
    ensures EndsWith(s, "ze") <==> Last(s, 1) == 'z' && Last(s, 0) == 'e'
    ensures EndsWith(s, "che") <==> Last(s, 2) == 'c' && Last(s, 1) == 'h' && Last(s, 0) == 'e'
    ensures EndsWith(s, "ies") <==> Last(s, 2) == 'i' && Last(s, 1) == 'e' && Last(s, 0) == 's'
    ensures EndsWith(s, "ses") <==> Last(s, 2) == 's' && Last(s, 1) == 'e' && Last(s, 0) == 's'
    ensures EndsWith(s, "xes") <==> Last(s, 2) == 'x' && Last(s, 1) == 'e' && Last(s, 0) == 's'
    ensures EndsWith(s, "zes") <==> Last(s, 2) == 'z' && Last(s, 1) == 'e' && Last(s, 0) == 's'
    ensures EndsWith(s, "ches") <==> Last(s, 3) == 'c' && Last(s, 2) == 'h' && Last(s, 1) == 'e' && Last(s, 0) == 's'
  {
    EndsWith1(s, 's'); EndsWith1(s, 'y'); EndsWith1(s, 'x'); EndsWith1(s, 'z');
    EndsWith2(s, 's', 's'); EndsWith2(s, 's', 'h'); EndsWith2(s, 'c', 'h'); EndsWith2(s, 'i', 'e');
    EndsWith2(s, 's', 'e'); EndsWith2(s, 'x', 'e'); EndsWith2(s, 'z', 'e');
    EndsWith3(s, 'c', 'h', 'e'); EndsWith3(s, 'i', 'e', 's'); EndsWith3(s, 's', 'e', 's');
    EndsWith3(s, 'x', 'e', 's'); EndsWith3(s, 'z', 'e', 's');
    EndsWith4(s, 'c', 'h', 'e', 's');
  }

  /** A word whose last letter none of the rules looks at takes a plain "s". */
  lemma PluralizeAddsS(w: string)
    requires Last(w, 0) !in {'s', 'y', 'x', 'z', 'h'}
    ensures Pluralize(w) == w + "s"
  {
    Endings(w);
  }

  /** A word ending in a single "s" is left as it is. */
  lemma PluralizeKeepsPlural(w: string)
    requires Last(w, 0) == 's' && Last(w, 1) != 's'
    ensures Pluralize(w) == w
  {
    Endings(w);
  }

  lemma EndsWith1(s: string, a: char)
    requires a != ' '
    ensures EndsWith(s, [a]) <==> Last(s, 0) == a
  {
    if |s| >= 1 { assert s[|s| - 1..] == [s[|s| - 1]]; }
  }

  lemma EndsWith2(s: string, a: char, b: char)
    requires a != ' ' && b != ' '
    ensures EndsWith(s, [a, b]) <==> Last(s, 1) == a && Last(s, 0) == b
  {
    if |s| >= 2 { assert s[|s| - 2..] == [s[|s| - 2], s[|s| - 1]]; }
  }

  lemma EndsWith3(s: string, a: char, b: char, c: char)
    requires a != ' ' && b != ' ' && c != ' '
    ensures EndsWith(s, [a, b, c]) <==> Last(s, 2) == a && Last(s, 1) == b && Last(s, 0) == c
  {
    if |s| >= 3 { assert s[|s| - 3..] == [s[|s| - 3], s[|s| - 2], s[|s| - 1]]; }
  }

  lemma EndsWith4(s: string, a: char, b: char, c: char, d: char)
    requires a != ' ' && b != ' ' && c != ' ' && d != ' '
    ensures EndsWith(s, [a, b, c, d]) <==> Last(s, 3) == a && Last(s, 2) == b && Last(s, 1) == c && Last(s, 0) == d
  {
    if |s| >= 4 { assert s[|s| - 4..] == [s[|s| - 4], s[|s| - 3], s[|s| - 2], s[|s| - 1]]; }
  }

  /** Pluralizing twice is pluralizing once, except for words ending in "ss". */
  lemma PluralizeIdempotent(w: string)
    ensures Pluralize(Pluralize(w)) == Pluralize(w) <==> !EndsWith(w, "ss")
  {
    var p := Pluralize(w);
    Endings(w);
    Endings(p);
    if EndsWith(w, "ss") {
      assert |Pluralize(p)| == |p| + 1;
    }
  }

  /** The singular words that `singularize` recovers from their `pluralize`d form. */
  predicate RegularSingular(w: string)
  {
    && !(EndsWith(w, "s") && !EndsWith(w, "ss"))
    && !EndsWith(w, "sh")
    && !EndsWith(w, "ie")
    && !EndsWith(w, "se")
    && !EndsWith(w, "che")
    && !EndsWith(w, "xe")
    && !EndsWith(w, "ze")
  }

  /** The last characters of a word with x appended. */
  lemma LastAppend(w: string, x: string, k: nat)
    ensures Last(w + x, k) == if k < |x| then Last(x, k) else Last(w, k - |x|)
  {
  }

  /** `singularize` undoes `pluralize` exactly on the regular singular words. */
  lemma SingularizeUndoesPluralize(w: string)
    ensures Singularize(Pluralize(w)) == w <==> RegularSingular(w)
  {
    Endings(w);
    if EndsWith(w, "s") && !EndsWith(w, "ss") {
      assert Pluralize(w) == w;
    } else if EndsWith(w, "y") {
      RoundTripY(w);
    } else if EndsWith(w, "sh") || EndsWith(w, "ch") || EndsWith(w, "x") || EndsWith(w, "z") {
      RoundTripEs(w);
    } else {
      RoundTripS(w);
    }
  }

  lemma RoundTripY(w: string)
    requires EndsWith(w, "y")
    ensures Singularize(Pluralize(w)) == w && RegularSingular(w)
  {
    Endings(w);
    var q := w[..|w| - 1];
    var p := q + "ies";
    assert Pluralize(w) == p;
    Endings(p);
    LastAppend(q, "ies", 0);
    LastAppend(q, "ies", 1);
    LastAppend(q, "ies", 2);
    assert p[..|p| - 3] + "y" == w;
  }

  lemma RoundTripEs(w: string)
    requires !EndsWith(w, "s") && !EndsWith(w, "y")
    requires EndsWith(w, "sh") || EndsWith(w, "ch") || EndsWith(w, "x") || EndsWith(w, "z")
    ensures Singularize(Pluralize(w)) == w <==> RegularSingular(w)
  {
    Endings(w);
    var p := w + "es";
    assert Pluralize(w) == p;
    Endings(p);
    LastAppend(w, "es", 0);
    LastAppend(w, "es", 1);
    LastAppend(w, "es", 2);
    LastAppend(w, "es", 3);
    if EndsWith(w, "sh") {
      assert Singularize(p) == p[..|p| - 1];
      assert |p[..|p| - 1]| != |w|;
    } else {
      assert Singularize(p) == p[..|p| - 2] == w;
    }
  }

  /** Appending "s" to a word appends "s" to each of its endings. */
  lemma EndsWithAppendS(w: string, x: string)
    ensures EndsWith(w + "s", x + "s") <==> EndsWith(w, x)
  {
    if |x| <= |w| {
      var tail := w[|w| - |x|..];
      assert (w + "s")[|w| - |x|..] == tail + "s";
      if tail + "s" == x + "s" {
        assert tail == (tail + "s")[..|x|] == (x + "s")[..|x|] == x;
      }
    }
  }

  lemma RoundTripS(w: string)
    requires !(EndsWith(w, "s") && !EndsWith(w, "ss")) && !EndsWith(w, "y")
    requires !(EndsWith(w, "sh") || EndsWith(w, "ch") || EndsWith(w, "x") || EndsWith(w, "z"))
    ensures Singularize(Pluralize(w)) == w <==> RegularSingular(w)
  {
    var p := w + "s";
    assert Pluralize(w) == p;
    assert EndsWith(p, "s") by { EndsWithAppendS(w, ""); assert "" + "s" == "s"; }
    assert EndsWith(p, "ies") <==> EndsWith(w, "ie") by { EndsWithAppendS(w, "ie"); assert "ie" + "s" == "ies"; }
    assert EndsWith(p, "ses") <==> EndsWith(w, "se") by { EndsWithAppendS(w, "se"); assert "se" + "s" == "ses"; }
    assert EndsWith(p, "ches") <==> EndsWith(w, "che") by { EndsWithAppendS(w, "che"); assert "che" + "s" == "ches"; }
    assert EndsWith(p, "xes") <==> EndsWith(w, "xe") by { EndsWithAppendS(w, "xe"); assert "xe" + "s" == "xes"; }
    assert EndsWith(p, "zes") <==> EndsWith(w, "ze") by { EndsWithAppendS(w, "ze"); assert "ze" + "s" == "zes"; }
    var r := Singularize(p);
    if EndsWith(p, "ies") {
      assert |r| == |w| - 1;
    } else if EndsWith(p, "ses") || EndsWith(p, "ches") || EndsWith(p, "xes") || EndsWith(p, "zes") {
      assert |r| == |w| - 1;
    } else {
      assert r == p[..|p| - 1] == w;
    }
  }
}
