/** The space-separated scope claim: JavaScript's split(' '), and which scopes it grants. */
module Scopes {

  function FirstSpace(s: string): (k: nat)
    ensures k <= |s| && (forall j :: 0 <= j < k ==> s[j] != ' ') && (k < |s| ==> s[k] == ' ')
  {
    if s == "" || s[0] == ' ' then 0 else FirstSpace(s[1..]) + 1
  }

  function Split(s: string): (words: seq<string>)
    ensures words != []
  {
    var k := FirstSpace(s);
    if k == |s| then [s] else [s[..k]] + Split(s[k + 1..])
  }

  /** `word` fills `s` from position `i` to the next space or the end, with no space inside. */
  ghost predicate WordAt(s: string, i: nat, word: string) {
    && i + |word| <= |s| && (forall j :: 0 <= j < |word| ==> word[j] == s[i + j] && word[j] != ' ')
    && (i == 0 || s[i - 1] == ' ') && (i + |word| == |s| || s[i + |word|] == ' ')
  }

  lemma FirstIsWord(s: string)
    ensures WordAt(s, 0, s[..FirstSpace(s)])
    ensures FirstSpace(s) == |s| ==> s[..|s|] == s
  {
    assert forall j :: 0 <= j < FirstSpace(s) ==> s[..FirstSpace(s)][j] == s[j];
  }

  /** The words of `rest` are words of s, further on. */
  ghost predicate Behind(s: string, k: nat, rest: string, word: string) {
    forall j: nat {:trigger WordAt(rest, j, word)} :: WordAt(rest, j, word) ==> WordAt(s, k + 1 + j, word)
  }

  /** A word is the first one, or a word of what comes after the first space. */
  lemma FirstOrRest(s: string, word: string) returns (k: nat, rest: string)
    requires word in Split(s)
    ensures WordAt(s, 0, word) || (|rest| < |s| && word in Split(rest) && Behind(s, k, rest, word))
  {
    k := FirstSpace(s);
    rest := if k < |s| then s[k + 1..] else "";
    FirstIsWord(s);
    if k < |s| {
      forall j: nat
        ensures WordAt(rest, j, word) ==> WordAt(s, k + 1 + j, word)
      {
        WordShifted(s, k, j, word);
      }
    }
  }

  lemma {:induction false} WordOfSplit(s: string, word: string) returns (i: nat)
    requires word in Split(s)
    ensures WordAt(s, i, word)
    decreases |s|
  {
    var k, rest := FirstOrRest(s, word);
    if WordAt(s, 0, word) {
      i := 0;
    } else {
      var j := WordOfSplit(rest, word);
      i := k + 1 + j;
    }
  }

  lemma {:induction false} SplitHasWord(s: string, i: nat, word: string)
    requires WordAt(s, i, word)
    ensures word in Split(s)
  {
    var k := FirstSpace(s);
    if i == 0 {
      FirstWord(s, word);
      assert Split(s)[0] == word;
    } else {
      assert k < i;
      WordShifted(s, k, i - k - 1, word);
      SplitHasWord(s[k + 1..], i - k - 1, word);
    }
  }

  /** The words of a scope claim are exactly the stretches between its spaces, the empty ones included. */
  lemma SplitMeaning(s: string, word: string)
    ensures word in Split(s) <==> exists i: nat :: WordAt(s, i, word)
  {
    if word in Split(s) {
      var i := WordOfSplit(s, word);
    }
    if i: nat :| WordAt(s, i, word) {
      SplitHasWord(s, i, word);
    }
  }

  lemma WordShifted(s: string, k: nat, i: nat, word: string)
    requires k < |s| && s[k] == ' '
    ensures WordAt(s[k + 1..], i, word) <==> WordAt(s, k + 1 + i, word)
  {
    assert forall j :: k + 1 <= j < |s| ==> s[k + 1..][j - k - 1] == s[j];
  }

  lemma FirstWord(s: string, word: string)
    requires WordAt(s, 0, word)
    ensures word == s[..FirstSpace(s)]
  {
    var k := FirstSpace(s);
    assert forall j :: 0 <= j < |word| ==> s[j] == word[j];
  }
}
