/**
 The permissive yes/no parse applied to a model reply (ollama_import.py lines 30
 and 73): the reply counts as "yes" iff its lower-cased text contains "true"
 anywhere. Lower-casing is modelled for ASCII letters only.
 */
module ReplyParse {

  /** ASCII case folding of one character. */
  function LowerChar(c: char): char {
    if 'A' <= c <= 'Z' then (c as int - 'A' as int + 'a' as int) as char else c
  }

  /** `s.lower()` restricted to ASCII: every character is folded, nothing else changes. */
  function Lower(s: string): (r: string)
    ensures |r| == |s|
    ensures forall i :: 0 <= i < |s| ==> r[i] == LowerChar(s[i])
  {
    if s == [] then [] else [LowerChar(s[0])] + Lower(s[1..])
  }

  /** `pat` occurs in `s` starting at position `i`. */
  predicate OccursAt(s: string, pat: string, i: nat) {
    i + |pat| <= |s| && s[i..i + |pat|] == pat
  }

  /** Python's `pat in s` on strings, as a left-to-right search. */
  function Contains(s: string, pat: string): bool
    decreases |s|
  {
    if |pat| <= |s| && s[..|pat|] == pat then true
    else if s == [] then false
    else Contains(s[1..], pat)
  }

  /** Dropping the first character shifts every occurrence one place to the left. */
  lemma OccursShift(s: string, pat: string, i: nat)
    requires s != []
    ensures OccursAt(s[1..], pat, i) <==> OccursAt(s, pat, i + 1)
  {
    if i + 1 + |pat| <= |s| {
      assert s[1..][i..i + |pat|] == s[i + 1..i + 1 + |pat|];
    }
  }

  /** The search finds `pat` iff it occurs at some position of `s`. */
  lemma {:induction false} ContainsIff(s: string, pat: string)
    ensures Contains(s, pat) <==> exists i: nat :: OccursAt(s, pat, i)
    decreases |s|
  {
    if |pat| <= |s| && s[..|pat|] == pat {
      assert OccursAt(s, pat, 0);
    } else if s == [] {
      forall i: nat ensures !OccursAt(s, pat, i) {}
    } else {
      ContainsIff(s[1..], pat);
      assert !OccursAt(s, pat, 0);
      if i: nat :| OccursAt(s[1..], pat, i) {
        OccursShift(s, pat, i);
      }
      if i: nat :| OccursAt(s, pat, i) {
        OccursShift(s, pat, i - 1);
      }
    }
  }

  const TrueToken := "true"

  /** The reply parse of `search_or_not` and `contains_relevant_data`: yes iff "true", in any
      mix of cases, occurs anywhere in the reply. */
  predicate SaysTrue(reply: string) {
    Contains(Lower(reply), TrueToken)
  }

  /** An independent description: the four characters at `i` spell "true" in any mix of cases. */
  predicate TrueAt(reply: string, i: nat) {
    i + 4 <= |reply| &&
    reply[i] in "tT" && reply[i + 1] in "rR" && reply[i + 2] in "uU" && reply[i + 3] in "eE"
  }

  lemma LowerCharIs(c: char, lo: char, up: char)
    requires 'a' <= lo <= 'z' && up as int == lo as int - 32
    ensures LowerChar(c) == lo <==> c == lo || c == up
  {
  }

  lemma TokenAt(reply: string, i: nat)
    ensures OccursAt(Lower(reply), TrueToken, i) <==> TrueAt(reply, i)
  {
    if i + 4 <= |reply| {
      var w := Lower(reply)[i..i + 4];
      LowerCharIs(reply[i], 't', 'T');
      LowerCharIs(reply[i + 1], 'r', 'R');
      LowerCharIs(reply[i + 2], 'u', 'U');
      LowerCharIs(reply[i + 3], 'e', 'E');
      assert w == TrueToken <==> w[0] == 't' && w[1] == 'r' && w[2] == 'u' && w[3] == 'e';
    }
  }

  /** The parse says yes iff "true", in any case mix, occurs anywhere in the reply. */
  lemma SaysTrueIff(reply: string)
    ensures SaysTrue(reply) <==> exists i: nat :: TrueAt(reply, i)
  {
    ContainsIff(Lower(reply), TrueToken);
    forall i: nat ensures OccursAt(Lower(reply), TrueToken, i) <==> TrueAt(reply, i) {
      TokenAt(reply, i);
    }
  }

  lemma SaysTrueAt(reply: string, i: nat)
    requires TrueAt(reply, i)
    ensures SaysTrue(reply)
  {
    SaysTrueIff(reply);
  }

  /** Sample replies that say yes: the token is found whatever its case and position. */
  lemma YesCapitalised()
    ensures SaysTrue("True.")
  {
    SaysTrueAt("True.", 0);
  }

  lemma YesUpperCaseAtEnd()
    ensures SaysTrue("the answer is TRUE")
  {
    SaysTrueAt("the answer is TRUE", 14);
  }

  /** The known false positive: a negated "true" still parses as yes. */
  lemma YesEvenWhenNegated()
    ensures SaysTrue("that's not true")
  {
    SaysTrueAt("that's not true", 11);
  }

  /** Sample replies that say no. */
  lemma NoForFalse()
    ensures !SaysTrue("false")
  {
    SaysTrueIff("false");
    forall i: nat ensures !TrueAt("false", i) {
      if i + 4 <= 5 { assert i == 0 || i == 1; }
    }
  }

  lemma NoForUnclear()
    ensures !SaysTrue("unclear")
  {
    SaysTrueIff("unclear");
    forall i: nat ensures !TrueAt("unclear", i) {
      if i + 4 <= 7 { assert i <= 3; }
    }
  }
}
