/**
 * Room names: the area-id slug (`slugify_area`) and the comparison key used
 * by the `name` detection strategy (`_normalise_room`).
 *
 * Python's `str.strip`, `str.lower`, `str.casefold` and `str.isalnum` are
 * Unicode-wide; here whitespace is Python's full whitespace set, while case
 * mapping and the alphanumeric test cover ASCII and the Latin-1 supplement
 * (which holds the transliterated umlauts).  Characters above U+00FF are
 * treated as caseless and not alphanumeric.
 */
module Slug {

  /** Characters `str.strip()` removes (Python's `str.isspace`). */
  predicate IsSpace(c: char)
  {
    || c == ' ' || '\t' <= c <= '\r' || '\U{1C}' <= c <= '\U{1F}'
    || c == '\U{85}' || c == '\U{A0}' || c == '\U{1680}' || '\U{2000}' <= c <= '\U{200A}'
    || c == '\U{2028}' || c == '\U{2029}' || c == '\U{202F}' || c == '\U{205F}' || c == '\U{3000}'
  }

  function StripLeft(s: string): (r: string)
    ensures r == [] || !IsSpace(r[0])
    ensures |r| <= |s|
  {
    if s != [] && IsSpace(s[0]) then StripLeft(s[1..]) else s
  }

  function StripRight(s: string): (r: string)
    ensures r == [] || !IsSpace(r[|r| - 1])
    ensures |r| <= |s|
  {
    if s != [] && IsSpace(s[|s| - 1]) then StripRight(s[..|s| - 1]) else s
  }

  /** `str.strip()`: whitespace cut from both ends. */
  function Strip(s: string): (r: string)
    ensures r == [] || (!IsSpace(r[0]) && !IsSpace(r[|r| - 1]))
    ensures |r| <= |s|
  {
    StripRightPrefix(StripLeft(s));
    StripRight(StripLeft(s))
  }

  /** Left stripping keeps a suffix, of which only whitespace was dropped. */
  lemma {:induction false} StripLeftSuffix(s: string)
    ensures StripLeft(s) == s[|s| - |StripLeft(s)|..]
    ensures forall i :: 0 <= i < |s| - |StripLeft(s)| ==> IsSpace(s[i])
  {
    if s != [] && IsSpace(s[0]) {
      StripLeftSuffix(s[1..]);
    }
  }

  /** Right stripping keeps a prefix, of which only whitespace was dropped. */
  lemma {:induction false} StripRightPrefix(s: string)
    ensures StripRight(s) == s[..|StripRight(s)|]
    ensures forall i :: |StripRight(s)| <= i < |s| ==> IsSpace(s[i])
  {
    if s != [] && IsSpace(s[|s| - 1]) {
      StripRightPrefix(s[..|s| - 1]);
    }
  }

  /**
   * The stripped text is the infix of `s` starting after the leading
   * whitespace, and everything around it is whitespace.
   */
  lemma StripInfix(s: string)
    ensures |s| - |StripLeft(s)| + |Strip(s)| <= |s|
    ensures Strip(s) == s[|s| - |StripLeft(s)|..|s| - |StripLeft(s)| + |Strip(s)|]
    ensures forall i :: 0 <= i < |s| - |StripLeft(s)| ==> IsSpace(s[i])
    ensures forall i :: |s| - |StripLeft(s)| + |Strip(s)| <= i < |s| ==> IsSpace(s[i])
  {
    var t := StripLeft(s);
    var k := |s| - |t|;
    StripLeftSuffix(s);
    StripRightPrefix(t);
    assert forall i :: |Strip(s)| <= i < |t| ==> t[i] == s[k + i];
  }

  predicate IsUpper(c: char)
  {
    'A' <= c <= 'Z' || ('\U{C0}' <= c <= '\U{DE}' && c != '\U{D7}')
  }

  /** `str.lower` on one character. */
  function Lower(c: char): char
  {
    if IsUpper(c) then (c as int + 32) as char else c
  }

  /** Lower-casing leaves no capital behind, and never turns whitespace into a non-space or back. */
  lemma LowerFacts(c: char)
    ensures !IsUpper(Lower(c)) && Lower(Lower(c)) == Lower(c)
    ensures IsSpace(Lower(c)) == IsSpace(c)
  {
  }

  /** `str.lower` on a string. */
  function LowerStr(s: string): (r: string)
    ensures |r| == |s|
  {
    if s == [] then [] else [Lower(s[0])] + LowerStr(s[1..])
  }

  lemma {:induction false} LowerStrAt(s: string)
    ensures forall i :: 0 <= i < |s| ==> LowerStr(s)[i] == Lower(s[i])
  {
    if s != [] {
      LowerStrAt(s[1..]);
    }
  }

  /** `str.casefold` on one character: like `lower`, but ß folds to "ss" and µ to μ. */
  function FoldChar(c: char): (r: string)
    ensures r != [] && IsSpace(r[0]) == IsSpace(c) && IsSpace(r[|r| - 1]) == IsSpace(c)
  {
    LowerFacts(c);
    if c == 'ß' then "ss"
    else if c == '\U{B5}' then "\U{3BC}"
    else [Lower(c)]
  }

  function CaseFold(s: string): string
  {
    if s == [] then [] else FoldChar(s[0]) + CaseFold(s[1..])
  }

  /**
   * `_normalise_room`: the key two room names are compared by.  The key has
   * no whitespace at either end.
   */
  function NormaliseRoom(value: string): (r: string)
    ensures r == [] || (!IsSpace(r[0]) && !IsSpace(r[|r| - 1]))
  {
    CaseFoldEdges(Strip(value));
    CaseFold(Strip(value))
  }

  /** `str.isalnum` on one character. */
  predicate IsAlnum(c: char)
  {
    || 'a' <= c <= 'z' || 'A' <= c <= 'Z' || '0' <= c <= '9'
    || c == '\U{AA}' || c == '\U{B2}' || c == '\U{B3}' || c == '\U{B5}' || c == '\U{B9}' || c == '\U{BA}'
    || '\U{BC}' <= c <= '\U{BE}'
    || ('\U{C0}' <= c <= '\U{FF}' && c != '\U{D7}' && c != '\U{F7}')
  }

  /** What one (already lower-cased) character contributes to a slug. */
  function Piece(c: char): string
  {
    if c == 'ä' then "ae"
    else if c == 'ö' then "oe"
    else if c == 'ü' then "ue"
    else if c == 'ß' then "ss"
    else if IsAlnum(c) then [c]
    else if c == ' ' || c == '/' then "_"
    else ""
  }

  /** The pieces of all characters of `s`, joined in order. */
  function Pieces(s: string): string
  {
    if s == [] then [] else Piece(s[0]) + Pieces(s[1..])
  }

  lemma {:induction false} PiecesSnoc(s: string, c: char)
    ensures Pieces(s + [c]) == Pieces(s) + Piece(c)
  {
    if s != [] {
      assert (s + [c])[1..] == s[1..] + [c];
      PiecesSnoc(s[1..], c);
    }
  }

  /** The area id of a room name. */
  function SlugOf(name: string): string
  {
    Pieces(LowerStr(Strip(name)))
  }

  /** `slugify_area`: the character loop over the stripped, lower-cased name. */
  method SlugifyArea(name: string) returns (slug: string)
    ensures slug == SlugOf(name)
  {
    var text := LowerStr(Strip(name));
    slug := "";
    var i := 0;
    while i < |text|
      invariant 0 <= i <= |text|
      invariant slug == Pieces(text[..i])
    {
      var c := text[i];
      assert text[..i + 1] == text[..i] + [c];
      PiecesSnoc(text[..i], c);
      if c == 'ä' || c == 'ö' || c == 'ü' || c == 'ß' {
        slug := slug + (if c == 'ä' then "ae" else if c == 'ö' then "oe" else if c == 'ü' then "ue" else "ss");
      } else if IsAlnum(c) {
        slug := slug + [c];
      } else if c == ' ' || c == '/' {
        slug := slug + "_";
      }
      i := i + 1;
    }
    assert text[..|text|] == text;
  }

  /** Every slug character is an underscore or a lower-case alphanumeric. */
  lemma {:induction false} PiecesAlphabet(s: string)
    requires forall i :: 0 <= i < |s| ==> !IsUpper(s[i])
    ensures forall i :: 0 <= i < |Pieces(s)| ==> Pieces(s)[i] == '_' || (IsAlnum(Pieces(s)[i]) && !IsUpper(Pieces(s)[i]))
  {
    if s != [] {
      PiecesAlphabet(s[1..]);
    }
  }

  lemma SlugAlphabet(name: string)
    ensures forall i :: 0 <= i < |SlugOf(name)| ==> SlugOf(name)[i] == '_' || (IsAlnum(SlugOf(name)[i]) && !IsUpper(SlugOf(name)[i]))
  {
    var t := Strip(name);
    LowerStrAt(t);
    forall i | 0 <= i < |t| ensures !IsUpper(LowerStr(t)[i]) {
      LowerFacts(t[i]);
    }
    PiecesAlphabet(LowerStr(t));
  }

  predicate IsAscii(c: char)
  {
    c < '\U{80}'
  }

  predicate IsSlugChar(c: char)
  {
    'a' <= c <= 'z' || '0' <= c <= '9' || c == '_'
  }

  lemma {:induction false} PiecesAscii(s: string)
    requires forall i :: 0 <= i < |s| ==> IsAscii(s[i]) && !IsUpper(s[i])
    ensures forall i :: 0 <= i < |Pieces(s)| ==> IsSlugChar(Pieces(s)[i])
  {
    if s != [] {
      PiecesAscii(s[1..]);
    }
  }

  /** For a plain-ASCII room name the slug is made of a-z, 0-9 and `_` only. */
  lemma SlugAscii(name: string)
    requires forall i :: 0 <= i < |name| ==> IsAscii(name[i])
    ensures forall i :: 0 <= i < |SlugOf(name)| ==> IsSlugChar(SlugOf(name)[i])
  {
    var t := Strip(name);
    var k := |name| - |StripLeft(name)|;
    StripInfix(name);
    assert forall i :: 0 <= i < |t| ==> t[i] == name[k + i];
    LowerStrAt(t);
    forall i | 0 <= i < |t| ensures IsAscii(LowerStr(t)[i]) && !IsUpper(LowerStr(t)[i]) {
      LowerFacts(t[i]);
    }
    PiecesAscii(LowerStr(t));
  }

  lemma {:induction false} LowerStrAppend(a: string, b: string)
    ensures LowerStr(a + b) == LowerStr(a) + LowerStr(b)
  {
    if a == [] {
      assert a + b == b;
    } else {
      assert (a + b)[1..] == a[1..] + b;
      LowerStrAppend(a[1..], b);
    }
  }

  lemma {:induction false} PiecesAppend(a: string, b: string)
    ensures Pieces(a + b) == Pieces(a) + Pieces(b)
  {
    if a == [] {
      assert a + b == b;
    } else {
      assert (a + b)[1..] == a[1..] + b;
      PiecesAppend(a[1..], b);
    }
  }

  /** Lower-casing then slugging distributes over concatenation. */
  lemma SlugPartsAppend(a: string, b: string)
    ensures Pieces(LowerStr(a + b)) == Pieces(LowerStr(a)) + Pieces(LowerStr(b))
  {
    LowerStrAppend(a, b);
    PiecesAppend(LowerStr(a), LowerStr(b));
  }

  /** A name made only of lower-case ASCII letters and digits is its own slug. */
  lemma {:induction false} PlainSlug(s: string)
    requires forall i :: 0 <= i < |s| ==> 'a' <= s[i] <= 'z' || '0' <= s[i] <= '9'
    ensures SlugOf(s) == s
  {
    assert Strip(s) == s by {
      if s != [] {
        var first, last := s[0], s[|s| - 1];
        assert 'a' <= first <= 'z' || '0' <= first <= '9';
        assert 'a' <= last <= 'z' || '0' <= last <= '9';
      }
      StripUnchanged(s);
    }
    PlainParts(s);
  }

  lemma {:induction false} PlainParts(s: string)
    requires forall i :: 0 <= i < |s| ==> 'a' <= s[i] <= 'z' || '0' <= s[i] <= '9'
    ensures Pieces(LowerStr(s)) == s
  {
    if s != [] {
      PlainParts(s[1..]);
      assert s == [s[0]] + s[1..];
      SlugPartsAppend([s[0]], s[1..]);
    }
  }

  // The worked examples are evaluated at most three characters at a time.
  lemma SlugGro() ensures Pieces(LowerStr("Gro")) == "gro" {}
  lemma SlugSharpE() ensures Pieces(LowerStr("ße")) == "sse" {}
  lemma SlugSpaceKUmlaut() ensures Pieces(LowerStr(" Kü")) == "_kue" {}
  lemma SlugChe() ensures Pieces(LowerStr("che")) == "che" {}
  lemma SlugAu() ensures Pieces(LowerStr("Au")) == "au" {}
  lemma SlugSharpEn() ensures Pieces(LowerStr("ßen")) == "ssen" {}
  lemma SlugPlainGrosse() ensures Pieces(LowerStr("grosse")) == "grosse" { PlainParts("grosse"); }
  lemma SlugPlainKueche() ensures Pieces(LowerStr("kueche")) == "kueche" { PlainParts("kueche"); }
  lemma SlugUnderscore() ensures Pieces(LowerStr("_")) == "" {}

  lemma SlugW() ensures Pieces(LowerStr("W")) == "w" {}
  lemma SlugOhn() ensures Pieces(LowerStr("ohn")) == "ohn" {}
  lemma SlugZimmer() ensures Pieces(LowerStr("zimmer")) == "zimmer" { PlainParts("zimmer"); }

  /** A plain name is only lower-cased. */
  lemma SlugWohnzimmer()
    ensures SlugOf("Wohnzimmer") == "wohnzimmer"
  {
    StripUnchanged("Wohnzimmer");
    assert "Wohnzimmer" == "W" + ("ohn" + "zimmer");
    assert "w" + ("ohn" + "zimmer") == "wohnzimmer";
    SlugPartsAppend("W", "ohn" + "zimmer");
    SlugPartsAppend("ohn", "zimmer");
    SlugW();
    SlugOhn();
    SlugZimmer();
  }

  /** Sharp s expands to "ss". */
  lemma SlugAussen()
    ensures SlugOf("Außen") == "aussen"
  {
    StripUnchanged("Außen");
    assert "Außen" == "Au" + "ßen";
    assert "au" + "ssen" == "aussen";
    SlugPartsAppend("Au", "ßen");
    SlugAu();
    SlugSharpEn();
  }

  /** Umlauts expand to two letters and the space becomes an underscore. */
  lemma SlugGrosseKueche()
    ensures SlugOf("Große Küche") == "grosse_kueche"
  {
    StripUnchanged("Große Küche");
    assert "Große Küche" == "Gro" + ("ße" + (" Kü" + "che"));
    assert "gro" + ("sse" + ("_kue" + "che")) == "grosse_kueche";
    SlugPartsAppend("Gro", "ße" + (" Kü" + "che"));
    SlugPartsAppend("ße", " Kü" + "che");
    SlugPartsAppend(" Kü", "che");
    SlugGro();
    SlugSharpE();
    SlugSpaceKUmlaut();
    SlugChe();
  }

  /**
   * Slugging is not idempotent: `_` is not alphanumeric, so a second pass
   * drops the underscores the first pass produced.
   */
  lemma SlugNotIdempotent()
    ensures SlugOf(SlugOf("Große Küche")) == "grossekueche" != SlugOf("Große Küche")
  {
    SlugGrosseKueche();
    SlugUnderscoreDropped();
  }

  lemma SlugUnderscoreDropped()
    ensures SlugOf("grosse_kueche") == "grossekueche"
  {
    StripUnchanged("grosse_kueche");
    assert "grosse_kueche" == "grosse" + ("_" + "kueche");
    assert "grosse" + ("" + "kueche") == "grossekueche";
    SlugPartsAppend("grosse", "_" + "kueche");
    SlugPartsAppend("_", "kueche");
    SlugPlainGrosse();
    SlugPlainKueche();
    SlugUnderscore();
  }

  lemma {:induction false} CaseFoldAppend(a: string, b: string)
    ensures CaseFold(a + b) == CaseFold(a) + CaseFold(b)
  {
    if a != [] {
      assert (a + b)[1..] == a[1..] + b;
      CaseFoldAppend(a[1..], b);
    } else {
      assert a + b == b;
    }
  }

  lemma {:induction false} CaseFoldTwice(s: string)
    ensures CaseFold(CaseFold(s)) == CaseFold(s)
  {
    if s != [] {
      var c, rest := s[0], s[1..];
      CaseFoldTwice(rest);
      CaseFoldAppend(FoldChar(c), CaseFold(rest));
      LowerFacts(c);
      assert CaseFold(FoldChar(c)) == FoldChar(c);
    }
  }

  /** Case folding keeps a string free of whitespace at its ends. */
  lemma {:induction false} CaseFoldEdges(s: string)
    requires s == [] || (!IsSpace(s[0]) && !IsSpace(s[|s| - 1]))
    ensures CaseFold(s) == [] || (!IsSpace(CaseFold(s)[0]) && !IsSpace(CaseFold(s)[|CaseFold(s)| - 1]))
  {
    if s != [] {
      var p := s[..|s| - 1];
      CaseFoldAppend(p, [s[|s| - 1]]);
      assert p + [s[|s| - 1]] == s;
    }
  }

  lemma {:induction false} StripUnchanged(s: string)
    requires s == [] || (!IsSpace(s[0]) && !IsSpace(s[|s| - 1]))
    ensures Strip(s) == s
  {
  }

  /** Normalising twice gives the same key as normalising once. */
  lemma NormaliseIdempotent(value: string)
    ensures NormaliseRoom(NormaliseRoom(value)) == NormaliseRoom(value)
  {
    var t := Strip(value);
    CaseFoldEdges(t);
    StripUnchanged(CaseFold(t));
    CaseFoldTwice(t);
  }

  lemma FoldSal() ensures CaseFold("Sal") == "sal" && CaseFold("sal") == "sal" {}
  lemma FoldOon() ensures CaseFold("oon") == "oon" {}
  lemma FoldStr() ensures CaseFold("STR") == "str" && CaseFold("Str") == "str" {}
  lemma FoldAss() ensures CaseFold("ASS") == "ass" && CaseFold("aß") == "ass" {}
  lemma FoldE() ensures CaseFold("E") == "e" && CaseFold("e") == "e" {}

  /** Room names compare with surrounding whitespace trimmed and case ignored. */
  lemma NormaliseTrimsAndFolds()
    ensures NormaliseRoom(" Saloon") == NormaliseRoom("saloon")
  {
    StripUnchanged("Saloon");
    StripUnchanged("saloon");
    assert " Saloon"[1..] == "Saloon";
    assert Strip(" Saloon") == "Saloon";
    assert "Saloon" == "Sal" + "oon" && "saloon" == "sal" + "oon";
    CaseFoldAppend("Sal", "oon");
    CaseFoldAppend("sal", "oon");
    FoldSal();
    FoldOon();
  }

  /** A name that does not start with whitespace has a key starting with its folded first letter. */
  lemma KeyFirst(s: string)
    requires s != [] && !IsSpace(s[0])
    ensures NormaliseRoom(s) != [] && NormaliseRoom(s)[0] == FoldChar(s[0])[0]
  {
    StripInfix(s);
    var t := Strip(s);
    assert |s| - |StripLeft(s)| == 0;
    assert t != [];
    assert t[0] == s[0];
  }

  /** The two rooms of the idempotence scenario get different keys. */
  lemma SaloonNotWohnzimmer()
    ensures NormaliseRoom("Saloon") != NormaliseRoom("Wohnzimmer")
  {
    KeyFirst("Saloon");
    KeyFirst("Wohnzimmer");
    assert FoldChar('S')[0] == 's' && FoldChar('W')[0] == 'w';
  }

  /** Case folding, unlike lower-casing, matches ß with "SS". */
  lemma NormaliseFoldsSharpS()
    ensures NormaliseRoom("STRASSE") == NormaliseRoom("Straße")
  {
    StripUnchanged("STRASSE");
    StripUnchanged("Straße");
    assert "STRASSE" == "STR" + ("ASS" + "E") && "Straße" == "Str" + ("aß" + "e");
    CaseFoldAppend("STR", "ASS" + "E");
    CaseFoldAppend("ASS", "E");
    CaseFoldAppend("Str", "aß" + "e");
    CaseFoldAppend("aß", "e");
    FoldStr();
    FoldAss();
    FoldE();
  }
}
