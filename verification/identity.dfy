/**
 * The participant identifier a video call derives from the display name:
 * every UTF-16 code unit outside [a-zA-Z0-9] is replaced by '_' and the
 * result is lower-cased.
 *
 * Names are strings of Unicode scalar values here, while a JavaScript string
 * is a sequence of UTF-16 code units.  A character outside the Basic
 * Multilingual Plane ("astral") is two code units (a surrogate pair), and
 * the regular expression, which has no `u` flag, replaces each of them, so
 * such a character becomes two underscores.  Every other character is one
 * code unit and becomes one character of the identifier.
 */
module Identity {

  predicate IsAsciiAlnum(c: char) {
    'a' <= c <= 'z' || 'A' <= c <= 'Z' || '0' <= c <= '9'
  }

  /** The characters an identifier may contain: [a-z0-9_]. */
  predicate IsIdChar(c: char) {
    'a' <= c <= 'z' || '0' <= c <= '9' || c == '_'
  }

  /** A character outside the Basic Multilingual Plane: two UTF-16 code units. */
  predicate IsAstral(c: char) {
    c as int >= 0x1_0000
  }

  /** Every character of `s` is a single UTF-16 code unit. */
  predicate InBmp(s: string) {
    forall i :: 0 <= i < |s| ==> !IsAstral(s[i])
  }

  /** The number of UTF-16 code units of `s`: its JavaScript `length`. */
  function Utf16Length(s: string): nat {
    if s == [] then 0 else (if IsAstral(s[0]) then 2 else 1) + Utf16Length(s[1..])
  }

  /** Lower-cases one ASCII capital and leaves every other character alone. */
  function LowerChar(c: char): (d: char)
    ensures 'A' <= c <= 'Z' ==> d as int == c as int + 32 && 'a' <= d <= 'z'
    ensures !('A' <= c <= 'Z') ==> d == c
  {
    if 'A' <= c <= 'Z' then (c as int - 'A' as int + 'a' as int) as char else c
  }

  /** What the replacement makes of one character: itself, or one '_' per code unit. */
  function ReplaceChar(c: char): string {
    if IsAsciiAlnum(c) then [c] else if IsAstral(c) then "__" else "_"
  }

  /** The global regular-expression replacement of [^a-zA-Z0-9] by "_". */
  function ReplaceNonAlnum(s: string): (r: string)
    ensures |r| == Utf16Length(s)
    ensures forall i :: 0 <= i < |r| ==> IsAsciiAlnum(r[i]) || r[i] == '_'
  {
    if s == [] then [] else ReplaceChar(s[0]) + ReplaceNonAlnum(s[1..])
  }

  /**
   * Lower-casing of the replaced name.  Only ASCII letters, digits and '_'
   * reach it, and on those the full Unicode lower-casing of the platform
   * agrees with the ASCII one written here.
   */
  function ToLower(s: string): (r: string)
    ensures |r| == |s|
  {
    if s == [] then [] else [LowerChar(s[0])] + ToLower(s[1..])
  }

  /** The userId of a participant with display name `name`. */
  function NormalizeUserId(name: string): string {
    ToLower(ReplaceNonAlnum(name))
  }

  /** What normalisation does to one code unit of the BMP. */
  function NormalizeUnit(c: char): char {
    if IsAsciiAlnum(c) then LowerChar(c) else '_'
  }

  /** What normalisation does to one character: an astral one is two unmatched code units. */
  function NormalizeChar(c: char): string {
    if IsAstral(c) then "__" else [NormalizeUnit(c)]
  }

  lemma {:induction false} ReplaceNonAlnumAppend(a: string, b: string)
    ensures ReplaceNonAlnum(a + b) == ReplaceNonAlnum(a) + ReplaceNonAlnum(b)
  {
    if a == [] {
      assert a + b == b;
    } else {
      assert (a + b)[0] == a[0] && (a + b)[1..] == a[1..] + b;
      ReplaceNonAlnumAppend(a[1..], b);
    }
  }

  lemma {:induction false} ToLowerAppend(a: string, b: string)
    ensures ToLower(a + b) == ToLower(a) + ToLower(b)
  {
    if a == [] {
      assert a + b == b;
    } else {
      assert (a + b)[0] == a[0] && (a + b)[1..] == a[1..] + b;
      ToLowerAppend(a[1..], b);
    }
  }

  lemma {:induction false} ToLowerAt(s: string, i: nat)
    requires i < |s|
    ensures |ToLower(s)| == |s| && ToLower(s)[i] == LowerChar(s[i])
  {
    if i > 0 {
      ToLowerAt(s[1..], i - 1);
    }
  }

  /** Normalisation works character by character: the identifier of a concatenation is the concatenation of the identifiers. */
  lemma NormalizeAppend(a: string, b: string)
    ensures NormalizeUserId(a + b) == NormalizeUserId(a) + NormalizeUserId(b)
  {
    ReplaceNonAlnumAppend(a, b);
    ToLowerAppend(ReplaceNonAlnum(a), ReplaceNonAlnum(b));
  }

  /** A single character normalises to its image under `NormalizeChar`. */
  lemma NormalizeSingle(c: char)
    ensures NormalizeUserId([c]) == NormalizeChar(c)
  {
    assert [c][1..] == [];
    assert ReplaceNonAlnum([c]) == ReplaceChar(c) + [];
    if IsAstral(c) {
      assert "__"[1..] == "_" && "_"[1..] == [];
      assert ReplaceChar(c) + [] == "__";
      assert ToLower("__") == "__";
    } else {
      var u := if IsAsciiAlnum(c) then c else '_';
      assert ReplaceChar(c) == [u] && [u][1..] == [];
      assert ToLower([u]) == [LowerChar(u)];
    }
  }

  /**
   * The identifier has one character per UTF-16 code unit of the name, and
   * the image of `name[i]` sits at the code-unit offset of `name[i]`.
   */
  lemma NormalizeAt(name: string, i: nat)
    requires i < |name|
    ensures var lo, hi := Utf16Length(name[..i]), Utf16Length(name[..i + 1]);
      && |NormalizeUserId(name)| == Utf16Length(name)
      && lo <= hi <= |NormalizeUserId(name)|
      && NormalizeUserId(name)[lo..hi] == NormalizeChar(name[i])
  {
    var pre, c, post := name[..i], name[i], name[i + 1..];
    assert name[..i + 1] == pre + [c];
    assert name == pre + [c] + post;
    NormalizeAppend(pre + [c], post);
    NormalizeAppend(pre, [c]);
    NormalizeSingle(c);
  }

  /** The identifier has one character per UTF-16 code unit of the name, each in [a-z0-9_]. */
  lemma NormalizeShape(name: string)
    ensures |NormalizeUserId(name)| == Utf16Length(name)
    ensures forall j :: 0 <= j < |NormalizeUserId(name)| ==> IsIdChar(NormalizeUserId(name)[j])
  {
    var r := ReplaceNonAlnum(name);
    forall j | 0 <= j < |NormalizeUserId(name)|
      ensures IsIdChar(NormalizeUserId(name)[j])
    {
      ToLowerAt(r, j);
    }
  }

  /** A string made of identifier characters is its own identifier. */
  lemma {:induction false} IdIsFixed(id: string)
    requires forall j :: 0 <= j < |id| ==> IsIdChar(id[j])
    ensures NormalizeUserId(id) == id
  {
    if id != [] {
      assert id == [id[0]] + id[1..];
      NormalizeAppend([id[0]], id[1..]);
      NormalizeSingle(id[0]);
      IdIsFixed(id[1..]);
    }
  }

  /** Normalising an identifier again changes nothing. */
  lemma NormalizeIdempotent(name: string)
    ensures NormalizeUserId(NormalizeUserId(name)) == NormalizeUserId(name)
  {
    NormalizeShape(name);
    IdIsFixed(NormalizeUserId(name));
  }

  lemma {:induction false} BmpLength(s: string)
    requires InBmp(s)
    ensures Utf16Length(s) == |s|
  {
    if s != [] {
      assert !IsAstral(s[0]);
      BmpLength(s[1..]);
    }
  }

  /** For a name within the BMP, position i of the identifier is `name[i]` normalised. */
  lemma NormalizeBmpAt(name: string, i: nat)
    requires InBmp(name) && i < |name|
    ensures |NormalizeUserId(name)| == |name|
    ensures NormalizeUserId(name)[i] == NormalizeUnit(name[i])
  {
    NormalizeAt(name, i);
    BmpLength(name);
    BmpLength(name[..i]);
    BmpLength(name[..i + 1]);
  }

  /**
   * Two names within the BMP get the same identifier exactly when they agree
   * character by character after normalisation.
   */
  lemma NormalizeCollision(a: string, b: string)
    requires InBmp(a) && InBmp(b)
    ensures NormalizeUserId(a) == NormalizeUserId(b) <==>
      |a| == |b| && forall i :: 0 <= i < |a| ==> NormalizeUnit(a[i]) == NormalizeUnit(b[i])
  {
    BmpLength(a);
    BmpLength(b);
    if |a| == |b| {
      forall i | 0 <= i < |a|
        ensures NormalizeUserId(a)[i] == NormalizeUnit(a[i])
        ensures NormalizeUserId(b)[i] == NormalizeUnit(b[i])
      {
        NormalizeBmpAt(a, i);
        NormalizeBmpAt(b, i);
      }
    }
  }

  /** For a name within the BMP, a string is its identifier exactly when it agrees with it position by position. */
  lemma NormalizeCharacterised(name: string, id: string)
    requires InBmp(name)
    ensures NormalizeUserId(name) == id <==>
      |id| == |name| && forall i :: 0 <= i < |name| ==> id[i] == NormalizeUnit(name[i])
  {
    BmpLength(name);
    forall i | 0 <= i < |name|
      ensures NormalizeUserId(name)[i] == NormalizeUnit(name[i])
    {
      NormalizeBmpAt(name, i);
    }
  }

  /** The display name "Jane Doe" gives the identifier "jane_doe". */
  lemma JaneDoe()
    ensures NormalizeUserId("Jane Doe") == "jane_doe"
  {
    var name, id := "Jane Doe", "jane_doe";
    assert forall i :: 0 <= i < |name| ==> id[i] == NormalizeUnit(name[i]);
    NormalizeCharacterised(name, id);
  }

  /** Punctuation is replaced, not stripped: "Dr. O'Neil" gives "dr__o_neil". */
  lemma PunctuationIsReplaced()
    ensures NormalizeUserId("Dr. O'Neil") == "dr__o_neil"
  {
    var name := "Dr. O'Neil";
    forall i | 0 <= i < |name|
      ensures "dr__o_neil"[i] == NormalizeUnit(name[i])
    {
    }
    NormalizeCharacterised(name, "dr__o_neil");
  }

  /**
   * An astral character becomes two underscores, so "a" followed by an emoji
   * and the name "a__" share the identifier "a__".
   */
  lemma AstralCollision(emoji: char)
    requires IsAstral(emoji)
    ensures NormalizeUserId(['a', emoji]) == "a__"
    ensures NormalizeUserId("a__") == "a__"
  {
    assert ['a', emoji] == ['a'] + [emoji];
    NormalizeAppend(['a'], [emoji]);
    NormalizeSingle('a');
    NormalizeSingle(emoji);
    IdIsFixed("a__");
  }
}
