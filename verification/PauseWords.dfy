/** What a pause key may say: the words that stop the risk engine and the runner, told letter by
    letter. */
module PauseWords {
  import opened Common
  import opened Pipeline

  /** Nothing but white space: the space, what controls lines and separates fields, and the spaces
      beyond ASCII. */
  predicate Blank(s: string) {
    forall i :: 0 <= i < |s| ==> IsBlank(s[i])
  }

  lemma {:induction false} CommonBlanks()
    ensures Blank(" \t\n\r") && forall c :: '!' <= c <= '~' ==> !IsBlank(c)
  {}

  /** The text is the word, in capitals or not. */
  predicate Spells(s: string, word: string) {
    |s| == |word|
    && forall i :: 0 <= i < |s| ==> s[i] == word[i] || ('A' <= s[i] <= 'Z' && s[i] as int + 32 == word[i] as int)
  }

  ghost predicate SpellsPause(w: string) { Spells(w, "true") || Spells(w, "1") || Spells(w, "yes") }

  lemma {:induction false} LowerSpells(s: string, word: string)
    requires forall c :: c in word ==> !('A' <= c <= 'Z')
    ensures Lower(s) == word <==> Spells(s, word)
  {
    if |s| == |word| {
      assert forall i :: 0 <= i < |s| ==> word[i] in word;
      assert (forall i :: 0 <= i < |s| ==> Lower(s)[i] == word[i]) <==> Lower(s) == word;
    }
  }

  /** The runner stops at the bare words "true" and "1". */
  lemma {:induction false} RunnerPausedIff(v: string)
    ensures RunnerPaused(Some(v)) <==> Spells(v, "true") || Spells(v, "1")
  {
    LowerSpells(v, "true");
    LowerSpells(v, "1");
    hide Lower, Spells;
  }

  lemma {:induction false} StripLeftSplits(s: string) returns (a: string)
    ensures s == a + StripLeft(s) && Blank(a)
  {
    if s != [] && IsBlank(s[0]) {
      var rest := StripLeftSplits(s[1..]);
      a := [s[0]] + rest;
    } else {
      a := [];
    }
  }

  lemma {:induction false} StripRightSplits(s: string) returns (b: string)
    ensures s == StripRight(s) + b && Blank(b)
  {
    if s != [] && IsBlank(s[|s| - 1]) {
      var rest := StripRightSplits(s[..|s| - 1]);
      b := rest + [s[|s| - 1]];
    } else {
      b := [];
    }
  }

  lemma {:induction false} StripLeftDrops(a: string, s: string)
    requires Blank(a) && s != "" && !IsBlank(s[0])
    ensures StripLeft(a + s) == s
  {
    if a == [] {
      assert a + s == s;
    } else {
      assert (a + s)[1..] == a[1..] + s;
      StripLeftDrops(a[1..], s);
    }
  }

  lemma {:induction false} StripRightDrops(s: string, b: string)
    requires Blank(b) && s != "" && !IsBlank(s[|s| - 1])
    ensures StripRight(s + b) == s
    decreases |b|
  {
    if b == [] {
      assert s + b == s;
    } else {
      var n := |b| - 1;
      assert (s + b)[..|s + b| - 1] == s + b[..n];
      StripRightDrops(s, b[..n]);
    }
  }

  lemma {:induction false} WordsAreSolid(w: string)
    requires SpellsPause(w)
    ensures w != "" && !IsBlank(w[0]) && !IsBlank(w[|w| - 1])
  {}

  lemma {:induction false} StripDrops(a: string, w: string, b: string)
    requires Blank(a) && Blank(b) && SpellsPause(w)
    ensures StripRight(StripLeft(a + w + b)) == w
  {
    WordsAreSolid(w);
    hide SpellsPause, Blank, IsBlank;
    assert a + w + b == a + (w + b);
    assert (w + b)[0] == w[0];
    StripLeftDrops(a, w + b);
    StripRightDrops(w, b);
  }

  lemma {:induction false} CoreSpells(v: string)
    ensures RiskPaused(Some(v)) <==> SpellsPause(StripRight(StripLeft(v)))
  {
    var core := StripRight(StripLeft(v));
    LowerSpells(core, "true");
    LowerSpells(core, "1");
    LowerSpells(core, "yes");
    hide Spells, Lower, StripLeft, StripRight;
  }

  /** The risk engine stops at "true", "1" and "yes", with any capitals and blanks around them. */
  lemma {:induction false} RiskPausedIff(v: string)
    ensures RiskPaused(Some(v)) <==> exists a, w, b :: v == a + w + b && Blank(a) && Blank(b) && SpellsPause(w)
  {
    CoreSpells(v);
    hide RiskPaused, SpellsPause, Blank, StripLeft, StripRight;
    if SpellsPause(StripRight(StripLeft(v))) {
      var a := StripLeftSplits(v);
      var b := StripRightSplits(StripLeft(v));
      assert v == a + StripRight(StripLeft(v)) + b;
    }
    forall a, w, b | v == a + w + b && Blank(a) && Blank(b) && SpellsPause(w)
      ensures StripRight(StripLeft(v)) == w
    {
      StripDrops(a, w, b);
    }
  }
}
