/** `str.strip` and `str.upper` on ASCII text have the properties that normalisation uses. */
module Ascii {
  import opened Json
  import opened Metrics

  predicate Space(c: char) {
    c == ' ' || '\t' <= c <= '\r' || '\U{1C}' <= c <= '\U{1F}'
  }

  function Strip(s: string): string
    decreases |s|
  {
    if s != "" && Space(s[0]) then Strip(s[1..])
    else if s != "" && Space(s[|s| - 1]) then Strip(s[..|s| - 1])
    else s
  }

  function Capital(c: char): char {
    if 'a' <= c <= 'z' then c - 'a' + 'A' else c
  }

  function Upper(s: string): string {
    seq(|s|, i requires 0 <= i < |s| => Capital(s[i]))
  }

  lemma {:induction false} StripIdempotent(s: string)
    ensures Strip(Strip(s)) == Strip(s)
    decreases |s|
  {
    if s != "" && Space(s[0]) {
      StripIdempotent(s[1..]);
    } else if s != "" && Space(s[|s| - 1]) {
      StripIdempotent(s[..|s| - 1]);
    }
  }

  lemma AsciiIsSound(py: Python)
    requires forall s :: py.strip(s) == Strip(s) && py.upper(s) == Upper(s)
    ensures Sound(py)
  {
    forall s
      ensures py.strip(py.strip(s)) == py.strip(s) && py.upper(py.upper(s)) == py.upper(s)
    {
      StripIdempotent(s);
    }
    forall o
      ensures py.upper(py.strip(Spelling(o))) == Spelling(o)
    {
      var word := Spelling(o);
      assert forall i :: 0 <= i < |word| ==> 'A' <= word[i] <= 'Z';
      assert Strip(word) == word;
      assert Upper(word) == word;
    }
  }
}
