/** The two functions of Go's `strings` package that the server relies on,
    over strings as sequences of characters. */
module Strings {

  /** `strings.HasPrefix(s, prefix)`: s begins with prefix. */
  predicate HasPrefix(s: string, prefix: string)
  {
    |prefix| <= |s| && s[..|prefix|] == prefix
  }

  /** HasPrefix holds exactly when s is prefix followed by something. */
  lemma HasPrefixIffConcat(s: string, prefix: string)
    ensures HasPrefix(s, prefix) <==> exists rest :: s == prefix + rest
  {
    if HasPrefix(s, prefix) {
      assert s == prefix + s[|prefix|..];
    }
    forall rest | s == prefix + rest ensures HasPrefix(s, prefix) {
      assert s[..|prefix|] == prefix;
    }
  }

  /** Two strings that differ at some position inside the shorter one are
      never prefixes of one another. */
  lemma NotPrefixWhenDiffer(s: string, prefix: string, i: nat)
    requires i < |s| && i < |prefix| && s[i] != prefix[i]
    ensures !HasPrefix(s, prefix)
  {
    assert |prefix| <= |s| ==> s[..|prefix|][i] == s[i];
  }

  /** `strings.TrimPrefix(s, prefix)`: s without its leading prefix, or s
      unchanged when it does not begin with prefix. */
  function TrimPrefix(s: string, prefix: string): (r: string)
    ensures HasPrefix(s, prefix) ==> prefix + r == s
    ensures !HasPrefix(s, prefix) ==> r == s
  {
    if HasPrefix(s, prefix) then s[|prefix|..] else s
  }

  /** Trimming a prefix that was just prepended gives back the rest. */
  lemma TrimPrefixOfConcat(prefix: string, rest: string)
    ensures HasPrefix(prefix + rest, prefix)
    ensures TrimPrefix(prefix + rest, prefix) == rest
  {
    assert (prefix + rest)[..|prefix|] == prefix;
    assert (prefix + rest)[|prefix|..] == rest;
  }
}
