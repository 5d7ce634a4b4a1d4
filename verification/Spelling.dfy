/** Where one sequence stands inside another. */
module Spelling {
  /** `word` stands at position `i` of `s`. */
  predicate Spells<T(==)>(s: seq<T>, i: nat, word: seq<T>) {
    i + |word| <= |s| && s[i..i + |word|] == word
  }

  lemma SpellsJoin<T>(s: seq<T>, i: nat, first: seq<T>, second: seq<T>)
    ensures Spells(s, i, first + second) <==> Spells(s, i, first) && Spells(s, i + |first|, second)
  {
    if i + |first + second| <= |s| {
      var m := i + |first|;
      assert s[i..m + |second|] == s[i..m] + s[m..m + |second|];
      if Spells(s, i, first + second) {
        assert first == (first + second)[..|first|] == s[i..m];
        assert second == (first + second)[|first|..] == s[m..m + |second|];
      }
    }
  }

  lemma SpellsAt<T>(s: seq<T>, i: nat, word: seq<T>, k: nat)
    requires Spells(s, i, word) && k < |word|
    ensures s[i + k] == word[k]
  {
  }

  lemma SpellsWithin<T>(s: seq<T>, i: nat, word: seq<T>)
    requires Spells(s, i, word)
    ensures i + |word| <= |s|
  {
  }
}
