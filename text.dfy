/** The two Kotlin string tests the app relies on, `contains` and `startsWith` (the
    latter is Dafny's prefix test `p <= s`), and a split at the first separator that
    reads an error message back into its parts. */
module Text {
  import opened Optional

  /** The pattern occurs in the text at some position: the meaning of `contains`. */
  ghost predicate Occurs(text: string, pat: string) {
    exists i :: 0 <= i <= |text| && pat <= text[i..]
  }

  /** `text.contains(pat)`: tries each starting position from the left. */
  function Contains(text: string, pat: string): bool
    decreases |text|
  {
    if pat <= text then true
    else if text == [] then false
    else Contains(text[1..], pat)
  }

  lemma {:induction false} ContainsIsOccurs(text: string, pat: string)
    ensures Contains(text, pat) <==> Occurs(text, pat)
    decreases |text|
  {
    if pat <= text {
      assert text[0..] == text;
    } else if text == [] {
      forall i | 0 <= i <= |text|
        ensures !(pat <= text[i..])
      {
        assert text[i..] == text;
      }
    } else {
      var tail := text[1..];
      assert text[0..] == text;
      ContainsIsOccurs(tail, pat);
      if Occurs(tail, pat) {
        var j :| 0 <= j <= |tail| && pat <= tail[j..];
        assert text[j + 1..] == tail[j..];
      }
      if Occurs(text, pat) {
        var i :| 0 <= i <= |text| && pat <= text[i..];
        assert tail[i - 1..] == text[i..];
      }
    }
  }

  /** Splits at the first occurrence of sep: the part before it and the part after it. */
  function SplitAtFirst(s: string, sep: char): Option<(string, string)> {
    if s == [] then None
    else if s[0] == sep then Some(([], s[1..]))
    else
      match SplitAtFirst(s[1..], sep)
      case Some((before, after)) => Some(([s[0]] + before, after))
      case None => None
  }

  lemma {:induction false} SplitAtFirstJoin(before: string, sep: char, after: string)
    requires sep !in before
    ensures SplitAtFirst(before + [sep] + after, sep) == Some((before, after))
  {
    var s := before + [sep] + after;
    if before == [] {
      assert s[1..] == after;
    } else {
      assert s[1..] == before[1..] + [sep] + after;
      SplitAtFirstJoin(before[1..], sep, after);
      assert [before[0]] + before[1..] == before;
    }
  }

  /** Whatever SplitAtFirst returns, the input is the two parts joined by the separator,
      and the first part does not contain it. */
  lemma {:induction false} SplitAtFirstParts(s: string, sep: char, before: string, after: string)
    requires SplitAtFirst(s, sep) == Some((before, after))
    ensures s == before + [sep] + after && sep !in before
  {
    if s[0] != sep {
      var (b, a) := SplitAtFirst(s[1..], sep).value;
      SplitAtFirstParts(s[1..], sep, b, a);
      assert before == [s[0]] + b;
    }
  }
}
