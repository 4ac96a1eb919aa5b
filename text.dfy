/** The string operations the introspection uses: `str.lower()`, `str.title()`,
    `str.replace()` and Django's `capfirst`, for ASCII letters. Every other
    character is uncased and passes through unchanged. */
module Text {

  predicate IsUpper(c: char) { 'A' <= c <= 'Z' }
  predicate IsLower(c: char) { 'a' <= c <= 'z' }
  predicate IsCased(c: char) { IsUpper(c) || IsLower(c) }

  function UpperChar(c: char): (r: char)
    ensures !IsLower(r) && IsCased(r) == IsCased(c)
    ensures !IsLower(c) ==> r == c
  {
    if IsLower(c) then (c as int - 'a' as int + 'A' as int) as char else c
  }

  function LowerChar(c: char): (r: char)
    ensures !IsUpper(r) && IsCased(r) == IsCased(c)
    ensures !IsUpper(c) ==> r == c
  {
    if IsUpper(c) then (c as int - 'A' as int + 'a' as int) as char else c
  }

  /** `s.lower()`. */
  function Lower(s: string): (r: string)
    ensures |r| == |s|
    ensures forall i :: 0 <= i < |s| ==> r[i] == LowerChar(s[i])
  {
    if s == "" then "" else [LowerChar(s[0])] + Lower(s[1..])
  }

  /** `str.title()` on the rest of a string whose previous character was cased
      (`afterCased`) or not: a letter is upper-cased when it begins a word, that
      is when the character before it is not a letter, and lower-cased otherwise. */
  function TitleFrom(s: string, afterCased: bool): (r: string)
    ensures |r| == |s|
    ensures |s| > 0 ==> r[0] == if afterCased then LowerChar(s[0]) else UpperChar(s[0])
    ensures forall i :: 0 < i < |s| ==>
              r[i] == if IsCased(s[i - 1]) then LowerChar(s[i]) else UpperChar(s[i])
  {
    if s == "" then ""
    else
      var c := if afterCased then LowerChar(s[0]) else UpperChar(s[0]);
      [c] + TitleFrom(s[1..], IsCased(s[0]))
  }

  /** `s.title()`. */
  function Title(s: string): string {
    TitleFrom(s, false)
  }

  /** `s.replace(from, to)` for single characters. */
  function ReplaceChar(s: string, from: char, to: char): (r: string)
    ensures |r| == |s|
    ensures forall i :: 0 <= i < |s| ==> r[i] == if s[i] == from then to else s[i]
  {
    if s == "" then "" else [if s[0] == from then to else s[0]] + ReplaceChar(s[1..], from, to)
  }

  /** Django's `capfirst`: the first character upper-cased, the rest as is. */
  function CapFirst(s: string): (r: string)
    ensures |r| == |s|
    ensures |s| > 0 ==> r[0] == UpperChar(s[0])
    ensures forall i :: 0 < i < |s| ==> r[i] == s[i]
  {
    if s == "" then "" else [UpperChar(s[0])] + s[1..]
  }

  /** The label derived from a field name: `name.title().replace('_', ' ')`. */
  function FieldLabel(name: string): string {
    ReplaceChar(Title(name), '_', ' ')
  }

  /** A field label keeps the name's length, has no underscore left, and
      every letter that begins a word is upper-case. */
  lemma {:induction false} FieldLabelShape(name: string)
    ensures |FieldLabel(name)| == |name|
    ensures forall i :: 0 <= i < |name| ==> FieldLabel(name)[i] != '_'
    ensures forall i :: 0 <= i < |name| && IsCased(name[i]) && (i == 0 || !IsCased(name[i - 1])) ==>
              IsUpper(FieldLabel(name)[i])
  {
    var t := Title(name);
    forall i | 0 <= i < |name| && IsCased(name[i]) && (i == 0 || !IsCased(name[i - 1]))
      ensures IsUpper(FieldLabel(name)[i])
    {
      assert t[i] == UpperChar(name[i]);
    }
  }

  /** A title-cased string is its own title: `s.title().title() == s.title()`. */
  lemma {:induction false} TitleIdempotent(s: string)
    ensures Title(Title(s)) == Title(s)
  {
    var t := Title(s);
    var tt := Title(t);
    forall i | 0 <= i < |s| ensures tt[i] == t[i] {
      if i == 1 {
        assert t[0] == UpperChar(s[0]);
      } else if i > 1 {
        assert t[i - 1] == if IsCased(s[i - 2]) then LowerChar(s[i - 1]) else UpperChar(s[i - 1]);
      }
    }
  }

  /** The text `action_kwargs` derives from a function name,
      `capfirst(name.lower())`, keeps the length, capitalises the first letter
      and leaves no capital after it. */
  lemma {:induction false} ActionTextShape(name: string)
    ensures |CapFirst(Lower(name))| == |name|
    ensures |name| > 0 ==> CapFirst(Lower(name))[0] == UpperChar(name[0])
    ensures forall i :: 0 < i < |name| ==> CapFirst(Lower(name))[i] == LowerChar(name[i])
  {
    var l := Lower(name);
    if |name| > 0 {
      assert l[0] == LowerChar(name[0]);
    }
  }
}
