/** The string operations the table renderer and the search box use: lowering
    (ASCII letters only), substring search, the eight-character ID prefix, the a-z
    letter filter of the type badge and the apostrophe escaping of names. */
module Text {
  import Seqs

  predicate IsUpper(c: char) { 'A' <= c <= 'Z' }

  predicate IsLowerLetter(c: char) { 'a' <= c <= 'z' }

  function LowerChar(c: char): char
  {
    if IsUpper(c) then (c as int - 'A' as int + 'a' as int) as char else c
  }

  /** `toLowerCase`: each upper-case ASCII letter becomes its lower-case form, every
      other character is kept. */
  function ToLower(s: string): (r: string)
    ensures |r| == |s|
    ensures forall i :: 0 <= i < |s| ==> r[i] == LowerChar(s[i])
    ensures forall i :: 0 <= i < |r| ==> !IsUpper(r[i])
  {
    if s == [] then [] else [LowerChar(s[0])] + ToLower(s[1..])
  }

  lemma {:induction false} ToLowerIdempotent(s: string)
    ensures ToLower(ToLower(s)) == ToLower(s)
  {
    var r := ToLower(s);
    assert forall i :: 0 <= i < |r| ==> LowerChar(r[i]) == r[i];
  }

  /** `t` occurs in `s` at offset `i`. */
  predicate OccursAt(s: string, t: string, i: int)
  {
    0 <= i && i + |t| <= |s| && s[i..i + |t|] == t
  }

  /** `includes`, written as a scan over the start positions of `s`. */
  predicate Contains(s: string, t: string)
    ensures t == [] ==> Contains(s, t)
    ensures Contains(s, t) ==> |t| <= |s|
    ensures t <= s ==> Contains(s, t)
    decreases |s|
  {
    t <= s || (s != [] && Contains(s[1..], t))
  }

  /** The scan finds `t` exactly when `t` occurs somewhere in `s`. */
  lemma {:induction false} ContainsIff(s: string, t: string)
    ensures Contains(s, t) <==> exists i :: OccursAt(s, t, i)
    decreases |s|
  {
    if t <= s {
      assert OccursAt(s, t, 0);
    } else if s == [] {
    } else {
      ContainsIff(s[1..], t);
      if exists i :: OccursAt(s[1..], t, i) {
        var i :| OccursAt(s[1..], t, i);
        assert s[i + 1..i + 1 + |t|] == s[1..][i..i + |t|];
        assert OccursAt(s, t, i + 1);
      }
      if exists i :: OccursAt(s, t, i) {
        var i :| OccursAt(s, t, i);
        if i == 0 {
          assert false;
        }
        assert s[1..][i - 1..i - 1 + |t|] == s[i..i + |t|];
        assert OccursAt(s[1..], t, i - 1);
      }
    }
  }

  /** A term with a character that no character of `s` lowers to is not found in the
      lowered `s`. */
  lemma NoMatchWithoutCharacter(s: string, term: string, k: int)
    requires 0 <= k < |term|
    requires forall i :: 0 <= i < |s| ==> LowerChar(s[i]) != term[k]
    ensures !Contains(ToLower(s), term)
  {
    ContainsIff(ToLower(s), term);
  }

  /** The ID shown in a row: the first eight characters, or all of a shorter key. */
  function IdPrefix(key: string): (r: string)
    ensures |r| == if |key| < 8 then |key| else 8
    ensures r <= key
  {
    if |key| <= 8 then key else key[..8]
  }

  /** Removes every character outside a to z. */
  function KeepLetters(s: string): string
  {
    Seqs.Filter(IsLowerLetter, s)
  }

  /** The class of a type badge: `badge-` and the a-z characters of the lowered type. */
  function TypeClass(tipo: string): (r: string)
    ensures |r| >= 6 && r[..6] == "badge-"
    ensures forall i :: 6 <= i < |r| ==> IsLowerLetter(r[i])
    ensures Seqs.IsSubsequence(r[6..], ToLower(tipo))
    ensures forall c :: IsLowerLetter(c) ==> multiset(r[6..])[c] == multiset(ToLower(tipo))[c]
  {
    var letters := KeepLetters(ToLower(tipo));
    Seqs.FilterIsSubsequence(IsLowerLetter, ToLower(tipo));
    forall c | IsLowerLetter(c)
      ensures multiset(letters)[c] == multiset(ToLower(tipo))[c]
    {
      Seqs.FilterMultiplicity(IsLowerLetter, ToLower(tipo), c);
    }
    assert ("badge-" + letters)[6..] == letters;
    "badge-" + letters
  }

  /** Number of occurrences of `c` in `s`. */
  function CountOf(s: string, c: char): nat
  {
    if s == [] then 0 else (if s[0] == c then 1 else 0) + CountOf(s[1..], c)
  }

  /** A backslash goes before every apostrophe; every other character is copied. */
  function EscapeQuotes(s: string): (r: string)
    ensures |r| == |s| + CountOf(s, '\'')
    ensures forall i :: 0 <= i < |r| && r[i] == '\'' ==> 0 < i && r[i - 1] == '\\'
  {
    if s == [] then []
    else
      var head := if s[0] == '\'' then "\\'" else [s[0]];
      var rest := EscapeQuotes(s[1..]);
      assert forall i :: |head| <= i < |head| + |rest| ==> (head + rest)[i] == rest[i - |head|];
      head + rest
  }

  /** The reading that undoes `EscapeQuotes`: a backslash followed by an apostrophe
      stands for the apostrophe. */
  function UnescapeQuotes(s: string): string
  {
    if s == [] then []
    else if "\\'" <= s then "'" + UnescapeQuotes(s[2..])
    else [s[0]] + UnescapeQuotes(s[1..])
  }

  /** The escaped text never starts with a bare apostrophe. */
  lemma EscapeDoesNotStartWithQuote(s: string)
    ensures EscapeQuotes(s) == [] || EscapeQuotes(s)[0] != '\''
  {
  }

  /** Escaping loses nothing: the escaped name reads back as the original name. */
  lemma {:induction false} EscapeRoundTrip(s: string)
    ensures UnescapeQuotes(EscapeQuotes(s)) == s
    decreases |s|
  {
    if s != [] {
      var rest := EscapeQuotes(s[1..]);
      EscapeRoundTrip(s[1..]);
      if s[0] == '\'' {
        assert EscapeQuotes(s) == "\\'" + rest;
        assert ("\\'" + rest)[2..] == rest;
      } else {
        assert EscapeQuotes(s) == [s[0]] + rest;
        EscapeDoesNotStartWithQuote(s[1..]);
        var x := [s[0]] + rest;
        assert |x| < 2 || x[0] != '\\' || x[1] != '\'';
        assert !("\\'" <= x);
        assert ([s[0]] + rest)[1..] == rest;
      }
      assert s == [s[0]] + s[1..];
    }
  }

  /** A name without apostrophes is copied unchanged. */
  lemma {:induction false} EscapeWithoutQuotes(s: string)
    requires CountOf(s, '\'') == 0
    ensures EscapeQuotes(s) == s
    decreases |s|
  {
    if s != [] {
      EscapeWithoutQuotes(s[1..]);
      assert s == [s[0]] + s[1..];
    }
  }
}
