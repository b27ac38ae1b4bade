/** The two string operations the keyword routers use: String.prototype
    .toLowerCase (on ASCII letters) and String.prototype.includes. */
module Text {

  predicate IsUpper(c: char)
  {
    'A' <= c <= 'Z'
  }

  /** toLowerCase on one character: ASCII capitals become small letters,
      everything else is kept. */
  function LowerChar(c: char): (d: char)
    ensures !IsUpper(d)
    ensures IsUpper(c) ==> d as int == c as int + 32
    ensures !IsUpper(c) ==> d == c
  {
    if IsUpper(c) then (c as int - 'A' as int + 'a' as int) as char else c
  }

  /** toLowerCase on a whole string, character by character. */
  function Lower(s: string): (t: string)
    ensures |t| == |s|
    ensures forall i :: 0 <= i < |s| ==> t[i] == LowerChar(s[i])
  {
    seq(|s|, i requires 0 <= i < |s| => LowerChar(s[i]))
  }

  /** No character of s is an ASCII capital. Stated by membership so that
      it can be decided for a string literal. */
  predicate NoUpper(s: string)
  {
    forall c :: c in s ==> !IsUpper(c)
  }

  lemma LowerNoUpper(s: string)
    requires NoUpper(s)
    ensures Lower(s) == s
  {
    forall i | 0 <= i < |s|
      ensures Lower(s)[i] == s[i]
    {
      assert s[i] in s;
    }
  }

  /** Lowercasing twice is lowercasing once. */
  lemma LowerIdempotent(s: string)
    ensures Lower(Lower(s)) == Lower(s)
  {
    forall i | 0 <= i < |s|
      ensures Lower(Lower(s))[i] == Lower(s)[i]
    {
      assert !IsUpper(Lower(s)[i]);
    }
  }

  lemma LowerAppend(a: string, b: string)
    ensures Lower(a + b) == Lower(a) + Lower(b)
  {
  }

  lemma LowerAppend3(a: string, b: string, c: string)
    ensures Lower(a + b + c) == Lower(a) + Lower(b) + Lower(c)
  {
    LowerAppend(a + b, c);
    LowerAppend(a, b);
  }

  /** A capitalised word: only its first letter changes. */
  lemma LowerCapitalised(c: char, rest: string)
    requires NoUpper(rest)
    ensures Lower([c] + rest) == [LowerChar(c)] + rest
  {
    LowerAppend([c], rest);
    LowerNoUpper(rest);
  }

  /** t occurs in s starting at index i. */
  predicate OccursAt(s: string, t: string, i: int)
  {
    0 <= i && i + |t| <= |s| && s[i..i + |t|] == t
  }

  /** A word between two others occurs right after the first. */
  lemma OccursBetween(a: string, t: string, b: string)
    ensures OccursAt(a + t + b, t, |a|)
  {
    assert (a + t + b)[|a|..|a| + |t|] == t;
  }

  /** s.includes(t): some index of s starts an occurrence of t (the empty
      string occurs everywhere). */
  function Contains(s: string, t: string): (b: bool)
    ensures b <==> exists i :: OccursAt(s, t, i)
  {
    if |s| < |t| then false
    else if s[..|t|] == t then assert OccursAt(s, t, 0); true
    else
      var b := Contains(s[1..], t);
      assert b ==> exists i :: OccursAt(s, t, i) by {
        if b {
          var i :| OccursAt(s[1..], t, i);
          assert s[1..][i..i + |t|] == s[i + 1..i + 1 + |t|];
          assert OccursAt(s, t, i + 1);
        }
      }
      assert (exists i :: OccursAt(s, t, i)) ==> b by {
        if exists i :: OccursAt(s, t, i) {
          var i :| OccursAt(s, t, i);
          assert i != 0;
          assert s[1..][i - 1..i - 1 + |t|] == s[i..i + |t|];
          assert OccursAt(s[1..], t, i - 1);
        }
      }
      b
  }

  /** A character missing from three words is missing from their
      concatenation. */
  lemma AbsentFromWords(c: char, a: string, b: string, d: string)
    requires c !in a && c !in b && c !in d
    ensures c !in a + b + d
  {
  }

  /** t cannot occur in s when one of its characters is missing from s. */
  lemma AbsentChar(s: string, t: string, j: int)
    requires 0 <= j < |t| && t[j] !in s
    ensures !Contains(s, t)
  {
  }

  /** t cannot start at or after index k when its first character does
      not appear from k on, so only the first k starts need checking. */
  lemma HeadAbsentAfter(s: string, t: string, k: int)
    requires |t| > 0 && 0 <= k <= |s| && t[0] !in s[k..]
    requires forall i :: 0 <= i < k ==> !OccursAt(s, t, i)
    ensures !Contains(s, t)
  {
  }
}
