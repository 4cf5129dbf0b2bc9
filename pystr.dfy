/** The few Python `str` operations the plate formatter relies on, restricted to
    ASCII: `str.upper`, `str.replace(" ", "")`, `str.isdigit` and `str.isalpha`. */
module PyStr {

  /** `c.isdigit()` for an ASCII character: a character whose decimal value `c - '0'` is 0 to 9. */
  predicate IsDigit(c: char): (b: bool)
    ensures b <==> 0 <= c as int - '0' as int < 10
  {
    '0' <= c <= '9'
  }

  /** `c.isalpha()` for an ASCII character: a Latin letter, so neither a digit nor a blank. */
  predicate IsAlpha(c: char): (b: bool)
    ensures b ==> !IsDigit(c) && c != ' '
  {
    'A' <= c <= 'Z' || 'a' <= c <= 'z'
  }

  /** `s.isdigit()`: a non-empty string of digits (false on the empty string, as in Python). */
  predicate AllDigits(s: seq<char>): (b: bool)
    ensures b <==> s != [] && forall c :: c in s ==> IsDigit(c)
    ensures b ==> !AllAlpha(s)
  {
    assert AllAlpha(s) ==> IsAlpha(s[0]);
    |s| > 0 && forall i :: 0 <= i < |s| ==> IsDigit(s[i])
  }

  /** `s.isalpha()`: a non-empty string of letters (false on the empty string, as in Python). */
  predicate AllAlpha(s: seq<char>): (b: bool)
    ensures b <==> s != [] && forall c :: c in s ==> IsAlpha(c)
    ensures b ==> ' ' !in s
  {
    |s| > 0 && forall i :: 0 <= i < |s| ==> IsAlpha(s[i])
  }

  /** `c.upper()` on ASCII: lower-case letters move to upper case, every other
      character stays as it is. */
  function ToUpper(c: char): (u: char)
    ensures 'a' <= c <= 'z' ==> u != c && IsAlpha(u) && u as int == c as int - 32
    ensures !('a' <= c <= 'z') ==> u == c
    ensures IsDigit(u) <==> IsDigit(c)
    ensures IsAlpha(u) <==> IsAlpha(c)
    ensures u == ' ' <==> c == ' '
    ensures !('a' <= u <= 'z')
  {
    if 'a' <= c <= 'z' then (c as int - 32) as char else c
  }

  /** `s.upper()`: the upper-case map applied to every character. */
  function Upper(s: seq<char>): (r: seq<char>)
    ensures |r| == |s|
    ensures forall i :: 0 <= i < |s| ==> r[i] == ToUpper(s[i])
  {
    seq(|s|, i requires 0 <= i < |s| => ToUpper(s[i]))
  }

  /** `"09aeu143".upper()` is `"09AEU143"`: letters change case, digits stay. */
  lemma ExampleUpper()
    ensures Upper("09aeu143") == "09AEU143"
  {
  }

  /** A string that `upper()` leaves unchanged. */
  predicate IsUpper(s: seq<char>) {
    forall i :: 0 <= i < |s| ==> !('a' <= s[i] <= 'z')
  }

  /** `upper()` returns an upper-case string, and on an upper-case string it is the identity. */
  lemma UpperFixesUpper(s: seq<char>)
    ensures IsUpper(Upper(s))
    ensures IsUpper(s) <==> Upper(s) == s
  {
  }

  /** `s.replace(" ", "")`: every blank is deleted, every other character is kept in order. */
  function RemoveSpaces(s: seq<char>): (r: seq<char>)
    ensures ' ' !in r
    ensures |r| <= |s|
    ensures ' ' !in s ==> r == s
    ensures |r| == |s| ==> r == s
  {
    if s == [] then []
    else if s[0] == ' ' then RemoveSpaces(s[1..])
    else [s[0]] + RemoveSpaces(s[1..])
  }

  /** Deleting blanks distributes over concatenation. */
  lemma {:induction false} RemoveSpacesConcat(a: seq<char>, b: seq<char>)
    ensures RemoveSpaces(a + b) == RemoveSpaces(a) + RemoveSpaces(b)
  {
    if a == [] {
      assert a + b == b;
    } else {
      assert (a + b)[0] == a[0];
      assert (a + b)[1..] == a[1..] + b;
      RemoveSpacesConcat(a[1..], b);
    }
  }

  /** Upper-casing distributes over concatenation. */
  lemma UpperConcat(a: seq<char>, b: seq<char>)
    ensures Upper(a + b) == Upper(a) + Upper(b)
  {
  }

  /** Upper-casing and deleting blanks can be done in either order. */
  lemma {:induction false} UpperRemoveSpacesCommute(s: seq<char>)
    ensures Upper(RemoveSpaces(s)) == RemoveSpaces(Upper(s))
  {
    if s != [] {
      var head, tail := s[..1], s[1..];
      assert s == head + tail;
      UpperRemoveSpacesCommute(tail);
      UpperConcat(head, tail);
      RemoveSpacesConcat(head, tail);
      RemoveSpacesConcat(Upper(head), Upper(tail));
      UpperConcat(RemoveSpaces(head), RemoveSpaces(tail));
      assert Upper(RemoveSpaces(head)) == RemoveSpaces(Upper(head)) by {
        assert Upper(head) == [ToUpper(s[0])];
        assert RemoveSpaces(head) == if s[0] == ' ' then [] else head;
        assert RemoveSpaces(Upper(head)) == if s[0] == ' ' then [] else [ToUpper(s[0])];
      }
    }
  }
}
