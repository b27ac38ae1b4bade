/** The first-match keyword routing shared by the three chat responders:
    a message is matched against groups of keywords in a fixed order, and
    the first group with a keyword contained in the message decides. This
    table-driven reading is the reference the responders' if-chains are
    proved equal to. */
module Routing {
  import opened Text

  /** One rule of a router: a group of keywords and what it selects. */
  datatype Rule<T> = Rule(keywords: seq<string>, target: T)

  /** Some keyword of the group is contained in s
      (k1 in s || k2 in s || ...). */
  function AnyKeyword(s: string, keywords: seq<string>): (b: bool)
    ensures b <==> exists k :: k in keywords && Contains(s, k)
  {
    if keywords == [] then false
    else
      assert keywords[0] in keywords;
      assert forall k :: k in keywords <==> k == keywords[0] || k in keywords[1..];
      Contains(s, keywords[0]) || AnyKeyword(s, keywords[1..])
  }

  /** The index of the first rule whose group matches s, or |rules| when
      none does. */
  function FirstMatch<T>(s: string, rules: seq<Rule<T>>): (i: nat)
    ensures i <= |rules|
    ensures i < |rules| ==> AnyKeyword(s, rules[i].keywords)
    ensures forall j :: 0 <= j < i ==> !AnyKeyword(s, rules[j].keywords)
  {
    if rules == [] then 0
    else if AnyKeyword(s, rules[0].keywords) then 0
    else
      var i := FirstMatch(s, rules[1..]);
      assert forall j :: 1 <= j < i + 1 ==> rules[j] == rules[1..][j - 1];
      i + 1
  }

  /** The router's answer: the first matching rule's target, or the
      fallback when no group matches. */
  function Route<T>(s: string, rules: seq<Rule<T>>, fallback: T): (t: T)
    ensures (forall j :: 0 <= j < |rules| ==> !AnyKeyword(s, rules[j].keywords)) ==> t == fallback
    ensures forall i :: 0 <= i < |rules| && AnyKeyword(s, rules[i].keywords)
              && (forall j :: 0 <= j < i ==> !AnyKeyword(s, rules[j].keywords))
              ==> t == rules[i].target
  {
    var i := FirstMatch(s, rules);
    if i < |rules| then rules[i].target else fallback
  }

  /** Routing over a non-empty table: the head rule is tried first. */
  lemma RouteStep<T>(s: string, rules: seq<Rule<T>>, fallback: T)
    requires |rules| > 0
    ensures Route(s, rules, fallback)
            == if AnyKeyword(s, rules[0].keywords) then rules[0].target else Route(s, rules[1..], fallback)
  {
  }

  /** Routing over a table that starts with three given rules. */
  lemma RoutePrefix<T>(s: string, a: Rule<T>, b: Rule<T>, c: Rule<T>, rest: seq<Rule<T>>, fallback: T)
    ensures Route(s, [a, b, c] + rest, fallback)
            == if AnyKeyword(s, a.keywords) then a.target
               else if AnyKeyword(s, b.keywords) then b.target
               else if AnyKeyword(s, c.keywords) then c.target
               else Route(s, rest, fallback)
  {
    RouteStep(s, [a, b, c] + rest, fallback);
    assert ([a, b, c] + rest)[1..] == [b, c] + rest;
    RouteStep(s, [b, c] + rest, fallback);
    assert ([b, c] + rest)[1..] == [c] + rest;
    RouteStep(s, [c] + rest, fallback);
    assert ([c] + rest)[1..] == rest;
  }

  /** Routing over a table of one rule. */
  lemma RouteOne<T>(s: string, a: Rule<T>, fallback: T)
    ensures Route(s, [a], fallback) == if AnyKeyword(s, a.keywords) then a.target else fallback
  {
    RouteStep(s, [a], fallback);
    assert [a][1..] == [];
  }

  lemma AnyOfTwo(s: string, a: string, b: string)
    ensures AnyKeyword(s, [a, b]) == (Contains(s, a) || Contains(s, b))
  {
    assert [a, b][1..] == [b];
    assert [b][1..] == [];
  }

  lemma AnyOfThree(s: string, a: string, b: string, c: string)
    ensures AnyKeyword(s, [a, b, c]) == (Contains(s, a) || Contains(s, b) || Contains(s, c))
  {
    assert [a, b, c][1..] == [b, c];
    AnyOfTwo(s, b, c);
  }
}
