/**
 * The two serde rename rules the query relies on, as serde's derive applies
 * them to identifiers: `rename_all = "camelCase"` on struct fields (the Rust
 * fields are snake_case) and `rename_all = "kebab-case"` on enum variants
 * (the Rust variants are PascalCase). Both work character by character on
 * ASCII identifiers.
 */
module Rename {

  predicate IsAsciiUpper(c: char) { 'A' <= c <= 'Z' }

  predicate IsAsciiLower(c: char) { 'a' <= c <= 'z' }

  predicate IsAsciiDigit(c: char) { '0' <= c <= '9' }

  function ToAsciiUpper(c: char): char
  {
    if IsAsciiLower(c) then (c as int - 32) as char else c
  }

  function ToAsciiLower(c: char): char
  {
    if IsAsciiUpper(c) then (c as int + 32) as char else c
  }

  /**
   * The PascalCase loop for fields, generalised over its separator: every
   * `sep` is dropped, and the first character and each one after a `sep`
   * is upper-cased. `capitalize` is the loop's flag.
   */
  function Capitalized(s: string, sep: char, capitalize: bool): string
  {
    if s == [] then []
    else if s[0] == sep then Capitalized(s[1..], sep, true)
    else if capitalize then [ToAsciiUpper(s[0])] + Capitalized(s[1..], sep, false)
    else [s[0]] + Capitalized(s[1..], sep, false)
  }

  /** `rename_all = "PascalCase"` applied to a field name. */
  function PascalField(field: string): string
  {
    Capitalized(field, '_', true)
  }

  /**
   * `rename_all = "camelCase"` applied to a field name: the Pascal form with
   * its first character lower-cased. serde's derive aborts when the Pascal
   * form is empty (a name made only of '_'); here that gives "".
   */
  function CamelField(field: string): string
  {
    var pascal := PascalField(field);
    if pascal == [] then [] else [ToAsciiLower(pascal[0])] + pascal[1..]
  }

  /** The snake_case loop for variants after the first character: '_' before each upper-case letter, then the letter lower-cased. */
  function SnakeTail(s: string): string
  {
    if s == [] then []
    else (if IsAsciiUpper(s[0]) then "_" else "") + [ToAsciiLower(s[0])] + SnakeTail(s[1..])
  }

  /** `rename_all = "snake_case"` applied to a variant name: no '_' is put before the first character. */
  function SnakeVariant(variant: string): string
  {
    if variant == [] then [] else [ToAsciiLower(variant[0])] + SnakeTail(variant[1..])
  }

  /** `str::replace` of one character by another. */
  function ReplaceChar(s: string, from: char, to: char): string
  {
    if s == [] then [] else [if s[0] == from then to else s[0]] + ReplaceChar(s[1..], from, to)
  }

  /** `rename_all = "kebab-case"` applied to a variant name: the snake_case form with every '_' replaced by '-'. */
  function KebabVariant(variant: string): string
  {
    ReplaceChar(SnakeVariant(variant), '_', '-')
  }

  /** Inverse of KebabVariant on PascalCase identifiers: drop each '-' and upper-case what follows it. */
  function KebabToPascal(k: string): string
  {
    Capitalized(k, '-', true)
  }

  // ---------------------------------------------------------------------
  // Identifier shapes

  /** The rest of a snake_case identifier: lower-case letters, digits and '_', every '_' followed by a lower-case letter. */
  predicate SnakeTailShape(s: string)
  {
    && (forall i :: 0 <= i < |s| ==> IsAsciiLower(s[i]) || IsAsciiDigit(s[i]) || s[i] == '_')
    && (forall i :: 0 <= i < |s| && s[i] == '_' ==> i + 1 < |s| && IsAsciiLower(s[i + 1]))
  }

  /** A snake_case identifier such as `board_x_size`: starts with a lower-case letter, no empty word. */
  predicate SnakeIdent(s: string)
  {
    |s| > 0 && IsAsciiLower(s[0]) && SnakeTailShape(s[1..])
  }

  /** A PascalCase identifier such as `TrompTaylor`: an upper-case letter, then ASCII letters and digits. */
  predicate PascalIdent(s: string)
  {
    && |s| > 0 && IsAsciiUpper(s[0])
    && forall i :: 0 <= i < |s| ==> IsAsciiAlnum(s[i])
  }

  // ---------------------------------------------------------------------
  // The rules in terms of words.  An identifier is a first word followed by
  // more words, each preceded by a separator: `"board" + Prefixed(["x", "size"], '_')`
  // is `board_x_size`.

  /** Each word preceded by the separator. */
  function Prefixed(ws: seq<string>, sep: char): string
  {
    if ws == [] then [] else [sep] + ws[0] + Prefixed(ws[1..], sep)
  }

  /** Words joined by a separator. */
  function Joined(ws: seq<string>, sep: char): string
    requires |ws| > 0
  {
    ws[0] + Prefixed(ws[1..], sep)
  }

  function Capitalize(w: string): string
  {
    if w == [] then [] else [ToAsciiUpper(w[0])] + w[1..]
  }

  function CapitalizeAll(ws: seq<string>): string
  {
    if ws == [] then [] else Capitalize(ws[0]) + CapitalizeAll(ws[1..])
  }

  predicate NoAsciiUpper(w: string)
  {
    forall i :: 0 <= i < |w| ==> !IsAsciiUpper(w[i])
  }

  /** A non-empty word without the separator. */
  predicate Word(w: string, sep: char)
  {
    |w| > 0 && sep !in w
  }

  /** The words of a snake_case field name: the first must not start upper-case. */
  predicate FieldWords(first: string, rest: seq<string>)
  {
    && Word(first, '_') && !IsAsciiUpper(first[0])
    && forall k :: 0 <= k < |rest| ==> Word(rest[k], '_')
  }

  /** A word of a PascalCase variant, written in lower case: a lower-case letter first, no upper-case letter. */
  predicate LowerWord(w: string)
  {
    Word(w, '_') && IsAsciiLower(w[0]) && NoAsciiUpper(w)
  }

  predicate VariantWords(first: string, rest: seq<string>)
  {
    LowerWord(first) && forall k :: 0 <= k < |rest| ==> LowerWord(rest[k])
  }

  // ---------------------------------------------------------------------
  // Lemmas

  lemma UpperThenLower(c: char)
    requires !IsAsciiUpper(c)
    ensures ToAsciiLower(ToAsciiUpper(c)) == c
  {
  }

  lemma LowerThenUpper(c: char)
    requires IsAsciiUpper(c)
    ensures ToAsciiUpper(ToAsciiLower(c)) == c
  {
  }

  /** A word without separators passes through the loop unchanged when the flag is off. */
  lemma {:induction false} CapitalizedPlain(w: string, rest: string, sep: char)
    requires sep !in w
    ensures Capitalized(w + rest, sep, false) == w + Capitalized(rest, sep, false)
  {
    if w != [] {
      assert w[0] in w;
      assert (w + rest)[0] == w[0] != sep;
      assert (w + rest)[1..] == w[1..] + rest;
      assert sep !in w[1..];
      CapitalizedPlain(w[1..], rest, sep);
      assert [w[0]] + w[1..] == w;
    } else {
      assert w + rest == rest;
    }
  }

  /** After a separator, or at the start, a word comes out capitalised. */
  lemma CapitalizedWord(w: string, rest: string, sep: char)
    requires Word(w, sep)
    ensures Capitalized(w + rest, sep, true) == Capitalize(w) + Capitalized(rest, sep, false)
  {
    assert w[0] in w;
    assert (w + rest)[1..] == w[1..] + rest;
    assert sep !in w[1..];
    CapitalizedPlain(w[1..], rest, sep);
  }

  lemma {:induction false} CapitalizedPrefixed(ws: seq<string>, sep: char, capitalize: bool)
    requires forall k :: 0 <= k < |ws| ==> Word(ws[k], sep)
    ensures Capitalized(Prefixed(ws, sep), sep, capitalize) == CapitalizeAll(ws)
  {
    if ws != [] {
      var rest := Prefixed(ws[1..], sep);
      assert Prefixed(ws, sep) == [sep] + (ws[0] + rest);
      CapitalizedWord(ws[0], rest, sep);
      CapitalizedPrefixed(ws[1..], sep, false);
    }
  }

  /** The PascalCase rule upper-cases the first letter of every word and drops the separators. */
  lemma PascalFieldOfWords(first: string, rest: seq<string>)
    requires Word(first, '_') && forall k :: 0 <= k < |rest| ==> Word(rest[k], '_')
    ensures PascalField(first + Prefixed(rest, '_')) == Capitalize(first) + CapitalizeAll(rest)
  {
    CapitalizedWord(first, Prefixed(rest, '_'), '_');
    CapitalizedPrefixed(rest, '_', false);
  }

  lemma CapitalizeCons(first: string, tail: string)
    requires |first| > 0
    ensures Capitalize(first) + tail == [ToAsciiUpper(first[0])] + (first[1..] + tail)
  {
  }

  lemma ConsParts(c: char, rest: string)
    ensures ([c] + rest)[0] == c && ([c] + rest)[1..] == rest
  {
  }

  lemma LowerCapitalized(first: string, tail: string)
    requires |first| > 0 && !IsAsciiUpper(first[0])
    ensures var p := Capitalize(first) + tail; |p| > 0 && [ToAsciiLower(p[0])] + p[1..] == first + tail
  {
    CapitalizeCons(first, tail);
    HeadTail(first, tail);
    ConsParts(ToAsciiUpper(first[0]), first[1..] + tail);
    UpperThenLower(first[0]);
  }

  /** The camelCase rule keeps the first word and capitalises the others: `board_x_size` becomes `boardXSize`. */
  lemma CamelFieldOfWords(first: string, rest: seq<string>)
    requires FieldWords(first, rest)
    ensures CamelField(first + Prefixed(rest, '_')) == first + CapitalizeAll(rest)
  {
    PascalFieldOfWords(first, rest);
    LowerCapitalized(first, CapitalizeAll(rest));
  }

  lemma {:induction false} SnakeTailAppend(a: string, b: string)
    ensures SnakeTail(a + b) == SnakeTail(a) + SnakeTail(b)
  {
    if a != [] {
      assert (a + b)[0] == a[0];
      assert (a + b)[1..] == a[1..] + b;
      SnakeTailAppend(a[1..], b);
    } else {
      assert a + b == b;
    }
  }

  lemma {:induction false} SnakeTailPlain(w: string)
    requires NoAsciiUpper(w)
    ensures SnakeTail(w) == w
  {
    if w != [] {
      assert !IsAsciiUpper(w[0]);
      SnakeTailPlain(w[1..]);
    }
  }

  lemma {:induction false} ReplaceCharAppend(a: string, b: string, from: char, to: char)
    ensures ReplaceChar(a + b, from, to) == ReplaceChar(a, from, to) + ReplaceChar(b, from, to)
  {
    if a != [] {
      assert (a + b)[0] == a[0];
      assert (a + b)[1..] == a[1..] + b;
      ReplaceCharAppend(a[1..], b, from, to);
    } else {
      assert a + b == b;
    }
  }

  lemma {:induction false} ReplaceCharAbsent(w: string, from: char, to: char)
    requires from !in w
    ensures ReplaceChar(w, from, to) == w
  {
    if w != [] {
      assert w[0] in w;
      assert from !in w[1..];
      ReplaceCharAbsent(w[1..], from, to);
    }
  }

  lemma NoAsciiUpperTail(w: string)
    requires |w| > 0 && NoAsciiUpper(w)
    ensures NoAsciiUpper(w[1..])
  {
    forall i | 0 <= i < |w[1..]| ensures !IsAsciiUpper(w[1..][i]) {
      assert w[1..][i] == w[i + 1];
    }
  }

  lemma SnakeTailOfWord(w: string)
    requires LowerWord(w)
    ensures SnakeTail(Capitalize(w)) == ['_'] + w
  {
    var c := Capitalize(w);
    assert c[0] == ToAsciiUpper(w[0]) && c[1..] == w[1..];
    UpperThenLower(w[0]);
    assert SnakeTail(c) == "_" + [w[0]] + SnakeTail(w[1..]);
    NoAsciiUpperTail(w);
    SnakeTailPlain(w[1..]);
  }

  /** Each capitalised word becomes '_' and the word again. */
  lemma {:induction false} SnakeTailOfWords(ws: seq<string>)
    requires forall k :: 0 <= k < |ws| ==> LowerWord(ws[k])
    ensures SnakeTail(CapitalizeAll(ws)) == Prefixed(ws, '_')
  {
    if ws != [] {
      SnakeTailOfWord(ws[0]);
      SnakeTailAppend(Capitalize(ws[0]), CapitalizeAll(ws[1..]));
      SnakeTailOfWords(ws[1..]);
    }
  }

  lemma {:induction false} ReplacePrefixed(ws: seq<string>)
    requires forall k :: 0 <= k < |ws| ==> '_' !in ws[k]
    ensures ReplaceChar(Prefixed(ws, '_'), '_', '-') == Prefixed(ws, '-')
  {
    if ws != [] {
      ReplaceCharAppend(['_'] + ws[0], Prefixed(ws[1..], '_'), '_', '-');
      ReplaceCharAppend(['_'], ws[0], '_', '-');
      ReplaceCharAbsent(ws[0], '_', '-');
      ReplacePrefixed(ws[1..]);
    }
  }

  lemma SnakeVariantFirst(v: string, c: char, t: string)
    requires v == [c] + t
    ensures SnakeVariant(v) == [ToAsciiLower(c)] + SnakeTail(t)
  {
    assert v[0] == c && v[1..] == t;
  }

  lemma SnakeVariantHead(first: string, rest: seq<string>)
    requires VariantWords(first, rest)
    ensures SnakeVariant(Capitalize(first) + CapitalizeAll(rest)) == [first[0]] + SnakeTail(first[1..] + CapitalizeAll(rest))
  {
    SnakeVariantFirst(Capitalize(first) + CapitalizeAll(rest), ToAsciiUpper(first[0]), first[1..] + CapitalizeAll(rest));
    UpperThenLower(first[0]);
  }

  lemma HeadTail(w: string, p: string)
    requires |w| > 0
    ensures [w[0]] + (w[1..] + p) == w + p
  {
  }

  lemma SnakeVariantRest(first: string, rest: seq<string>, snake: string)
    requires VariantWords(first, rest)
    requires snake == [first[0]] + SnakeTail(first[1..] + CapitalizeAll(rest))
    ensures snake == first + Prefixed(rest, '_')
  {
    var under := Prefixed(rest, '_');
    assert SnakeTail(first[1..] + CapitalizeAll(rest)) == first[1..] + under by {
      SnakeTailAppend(first[1..], CapitalizeAll(rest));
      NoAsciiUpperTail(first);
      SnakeTailPlain(first[1..]);
      SnakeTailOfWords(rest);
    }
    HeadTail(first, under);
  }

  /** The snake_case variant rule on capitalised words: `TrompTaylor` becomes `tromp_taylor`. */
  lemma SnakeVariantOfWords(first: string, rest: seq<string>)
    requires VariantWords(first, rest)
    ensures SnakeVariant(Capitalize(first) + CapitalizeAll(rest)) == first + Prefixed(rest, '_')
  {
    SnakeVariantHead(first, rest);
    SnakeVariantRest(first, rest, SnakeVariant(Capitalize(first) + CapitalizeAll(rest)));
  }

  /** The kebab-case rule on capitalised words: `TrompTaylor` becomes `tromp-taylor`. */
  lemma KebabVariantOfWords(first: string, rest: seq<string>)
    requires VariantWords(first, rest)
    ensures KebabVariant(Capitalize(first) + CapitalizeAll(rest)) == first + Prefixed(rest, '-')
  {
    var under := Prefixed(rest, '_');
    SnakeVariantOfWords(first, rest);
    ReplaceCharAppend(first, under, '_', '-');
    ReplaceCharAbsent(first, '_', '-');
    ReplacePrefixed(rest);
  }

  /** A suffix of a snake_case tail that does not start just after an underscore is a snake_case tail. */
  lemma SnakeTailShapeSuffix(t: string, k: nat)
    requires SnakeTailShape(t) && k <= |t|
    requires k == 0 || t[k - 1] != '_'
    ensures SnakeTailShape(t[k..])
  {
    forall i | 0 <= i < |t[k..]| && t[k..][i] == '_'
      ensures i + 1 < |t[k..]| && IsAsciiLower(t[k..][i + 1])
    {
      assert t[i + k] == '_';
    }
  }

  lemma SnakeTailStep(c: char, rest: string)
    ensures SnakeTail([c] + rest) == (if IsAsciiUpper(c) then "_" else "") + [ToAsciiLower(c)] + SnakeTail(rest)
  {
    assert ([c] + rest)[1..] == rest;
  }

  /** Reading the snake_case tail back through the camelCase loop (flag off) restores it. */
  lemma {:induction false} SnakeTailRoundTrip(t: string)
    requires SnakeTailShape(t)
    ensures SnakeTail(Capitalized(t, '_', false)) == t
    decreases |t|
  {
    if t == [] {
    } else if t[0] == '_' {
      var c := t[1];
      assert IsAsciiLower(c);
      SnakeTailShapeSuffix(t, 2);
      var rest := Capitalized(t[2..], '_', false);
      assert t == [t[0]] + ([c] + t[2..]);
      CapitalizedSep([c] + t[2..], '_', false);
      CapitalizedCons(c, t[2..], '_', true);
      SnakeTailRoundTrip(t[2..]);
      SnakeTailStep(ToAsciiUpper(c), rest);
      UpperThenLower(c);
    } else {
      SnakeTailShapeSuffix(t, 1);
      var rest := Capitalized(t[1..], '_', false);
      assert t == [t[0]] + t[1..];
      CapitalizedCons(t[0], t[1..], '_', false);
      SnakeTailRoundTrip(t[1..]);
      SnakeTailStep(t[0], rest);
    }
  }

  /** serde's snake_case variant rule undoes its camelCase field rule: the renaming loses nothing. */
  lemma SnakeCamelRoundTrip(s: string)
    requires SnakeIdent(s)
    ensures SnakeVariant(CamelField(s)) == s
  {
    var rest := Capitalized(s[1..], '_', false);
    assert PascalField(s) == [ToAsciiUpper(s[0])] + rest;
    UpperThenLower(s[0]);
    assert CamelField(s) == [s[0]] + rest;
    SnakeTailRoundTrip(s[1..]);
    assert s == [s[0]] + s[1..];
  }

  /** Distinct snake_case field names get distinct camelCase keys. */
  lemma CamelFieldInjective(s: string, t: string)
    requires SnakeIdent(s) && SnakeIdent(t)
    requires CamelField(s) == CamelField(t)
    ensures s == t
  {
    SnakeCamelRoundTrip(s);
    SnakeCamelRoundTrip(t);
  }

  lemma CapitalizedSep(r: string, sep: char, capitalize: bool)
    ensures Capitalized([sep] + r, sep, capitalize) == Capitalized(r, sep, true)
  {
    assert ([sep] + r)[1..] == r;
  }

  lemma CapitalizedCons(c: char, r: string, sep: char, capitalize: bool)
    requires c != sep
    ensures Capitalized([c] + r, sep, capitalize) == [if capitalize then ToAsciiUpper(c) else c] + Capitalized(r, sep, false)
  {
    assert ([c] + r)[1..] == r;
  }

  predicate IsAsciiAlnum(c: char) { IsAsciiUpper(c) || IsAsciiLower(c) || IsAsciiDigit(c) }

  /** One step of kebab-case on a PascalCase tail: '-' before an upper-case letter, then the letter lower-cased. */
  lemma KebabTailCons(t: string)
    requires |t| > 0 && IsAsciiAlnum(t[0])
    ensures ReplaceChar(SnakeTail(t), '_', '-')
      == (if IsAsciiUpper(t[0]) then "-" else "") + [ToAsciiLower(t[0])] + ReplaceChar(SnakeTail(t[1..]), '_', '-')
  {
    var c := t[0];
    var p := if IsAsciiUpper(c) then "_" else "";
    assert SnakeTail(t) == p + [ToAsciiLower(c)] + SnakeTail(t[1..]);
    ReplaceCharAppend(p + [ToAsciiLower(c)], SnakeTail(t[1..]), '_', '-');
    ReplaceCharAppend(p, [ToAsciiLower(c)], '_', '-');
    assert ReplaceChar([ToAsciiLower(c)], '_', '-') == [ToAsciiLower(c)] by {
      assert [ToAsciiLower(c)][1..] == [];
    }
    if IsAsciiUpper(c) {
      assert ReplaceChar("_", '_', '-') == "-" by {
        assert "_"[1..] == [];
      }
    }
  }

  /** Reading the kebab-case tail back through the loop (flag off) restores the PascalCase tail. */
  lemma {:induction false} KebabTailRoundTrip(t: string)
    requires forall i :: 0 <= i < |t| ==> IsAsciiAlnum(t[i])
    ensures Capitalized(ReplaceChar(SnakeTail(t), '_', '-'), '-', false) == t
  {
    if t != [] {
      var c := t[0];
      var rest := ReplaceChar(SnakeTail(t[1..]), '_', '-');
      KebabTailCons(t);
      KebabTailRoundTrip(t[1..]);
      if IsAsciiUpper(c) {
        CapitalizedSep([ToAsciiLower(c)] + rest, '-', false);
        CapitalizedCons(ToAsciiLower(c), rest, '-', true);
        LowerThenUpper(c);
      } else {
        CapitalizedCons(c, rest, '-', false);
      }
      assert t == [c] + t[1..];
    }
  }

  /** KebabToPascal undoes the kebab-case variant rule. */
  lemma KebabRoundTrip(v: string)
    requires PascalIdent(v)
    ensures KebabToPascal(KebabVariant(v)) == v
  {
    var c := v[0];
    var rest := ReplaceChar(SnakeTail(v[1..]), '_', '-');
    ReplaceCharAppend([ToAsciiLower(c)], SnakeTail(v[1..]), '_', '-');
    var k := [ToAsciiLower(c)] + rest;
    assert KebabVariant(v) == k;
    assert k[1..] == rest;
    LowerThenUpper(c);
    KebabTailRoundTrip(v[1..]);
    assert v == [c] + v[1..];
  }

  /** Distinct PascalCase variant names get distinct kebab-case strings. */
  lemma KebabVariantInjective(v: string, w: string)
    requires PascalIdent(v) && PascalIdent(w)
    requires KebabVariant(v) == KebabVariant(w)
    ensures v == w
  {
    KebabRoundTrip(v);
    KebabRoundTrip(w);
  }
}
