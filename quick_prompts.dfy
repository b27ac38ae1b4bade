/** Facts about the four quick prompts of the chat panel
    (src/components/dashboard/ChatAgent.tsx): each prompt lowercased word
    by word, and which keywords its lowercase form does or does not
    contain. Every fact about a literal is proved from the literal split
    into three words, each step in a lemma of its own. */
module QuickPrompts {
  import opened Text

  // "Probability Fed cuts by 2026-03-31"

  lemma FedPromptWords(m: string)
    requires m == "Probability Fed cuts by 2026-03-31"
    ensures m == "Probability " + "Fed cuts" + " by 2026-03-31"
  {
  }

  lemma FedPromptLowerWords(n: string)
    requires n == "probability fed cuts by 2026-03-31"
    ensures n == "probability " + "fed cuts" + " by 2026-03-31"
  {
  }

  lemma FedPromptFirstWord()
    ensures Lower("Probability ") == "probability "
  {
    assert "Probability " == ['P'] + "robability ";
    LowerCapitalised('P', "robability ");
  }

  lemma FedPromptSecondWord()
    ensures Lower("Fed cuts") == "fed cuts"
  {
    assert "Fed cuts" == ['F'] + "ed cuts";
    LowerCapitalised('F', "ed cuts");
  }

  lemma FedPromptLower()
    ensures Lower("Probability Fed cuts by 2026-03-31") == "probability fed cuts by 2026-03-31"
  {
    FedPromptWords("Probability Fed cuts by 2026-03-31");
    LowerAppend3("Probability ", "Fed cuts", " by 2026-03-31");
    FedPromptFirstWord();
    FedPromptSecondWord();
    LowerNoUpper(" by 2026-03-31");
    FedPromptLowerWords("probability fed cuts by 2026-03-31");
  }

  lemma FedPromptHasFedCuts(n: string)
    requires n == "probability fed cuts by 2026-03-31"
    ensures Contains(n, "fed cuts")
  {
    FedPromptLowerWords(n);
    OccursBetween("probability ", "fed cuts", " by 2026-03-31");
  }

  // "Find mispriced markets"

  lemma MispricedPromptWords(m: string)
    requires m == "Find mispriced markets"
    ensures m == "Find " + "mispriced" + " markets"
  {
  }

  lemma MispricedPromptLowerWords(n: string)
    requires n == "find mispriced markets"
    ensures n == "find " + "mispriced" + " markets"
    ensures n[1..] == "ind " + "mispriced" + " markets"
  {
  }

  lemma MispricedPromptFirstWord()
    ensures Lower("Find ") == "find "
  {
    assert "Find " == ['F'] + "ind ";
    LowerCapitalised('F', "ind ");
  }

  lemma MispricedPromptLower()
    ensures Lower("Find mispriced markets") == "find mispriced markets"
  {
    MispricedPromptWords("Find mispriced markets");
    LowerAppend3("Find ", "mispriced", " markets");
    MispricedPromptFirstWord();
    LowerNoUpper("mispriced");
    LowerNoUpper(" markets");
    MispricedPromptLowerWords("find mispriced markets");
  }

  /** The lowercased second prompt has no 'u', so it cannot contain
      "fed cuts"; its only 'f' is its first letter. */
  lemma MispricedPromptLetters(n: string)
    requires n == "find mispriced markets"
    ensures 'u' !in n && 'f' !in n[1..]
  {
    MispricedPromptLowerWords(n);
    AbsentFromWords('u', "find ", "mispriced", " markets");
    AbsentFromWords('f', "ind ", "mispriced", " markets");
  }

  lemma MispricedPromptNoFed(n: string)
    requires n == "find mispriced markets"
    ensures !Contains(n, "fed cuts") && !Contains(n, "fed rate")
  {
    MispricedPromptLetters(n);
    AbsentChar(n, "fed cuts", 5);
    assert n[1] == 'i';
    assert !OccursAt(n, "fed rate", 0);
    HeadAbsentAfter(n, "fed rate", 1);
  }

  lemma MispricedPromptHasMispriced(n: string)
    requires n == "find mispriced markets"
    ensures Contains(n, "mispriced")
  {
    MispricedPromptLowerWords(n);
    OccursBetween("find ", "mispriced", " markets");
  }

  // "Current regime status"

  lemma RegimePromptWords(m: string)
    requires m == "Current regime status"
    ensures m == "Current " + "regime" + " status"
  {
  }

  lemma RegimePromptLowerWords(n: string)
    requires n == "current regime status"
    ensures n == "current " + "regime" + " status"
  {
  }

  lemma RegimePromptFirstWord()
    ensures Lower("Current ") == "current "
  {
    assert "Current " == ['C'] + "urrent ";
    LowerCapitalised('C', "urrent ");
  }

  lemma RegimePromptLower()
    ensures Lower("Current regime status") == "current regime status"
  {
    RegimePromptWords("Current regime status");
    LowerAppend3("Current ", "regime", " status");
    RegimePromptFirstWord();
    LowerNoUpper("regime");
    LowerNoUpper(" status");
    RegimePromptLowerWords("current regime status");
  }

  /** The lowercased third prompt has no 'f', 'p' or 'o'. */
  lemma RegimePromptLetters(n: string)
    requires n == "current regime status"
    ensures 'f' !in n && 'p' !in n && 'o' !in n
  {
    RegimePromptLowerWords(n);
    AbsentFromWords('f', "current ", "regime", " status");
    AbsentFromWords('p', "current ", "regime", " status");
    AbsentFromWords('o', "current ", "regime", " status");
  }

  lemma RegimePromptNoFed(n: string)
    requires n == "current regime status"
    ensures !Contains(n, "fed cuts") && !Contains(n, "fed rate")
  {
    RegimePromptLetters(n);
    AbsentChar(n, "fed cuts", 0);
    AbsentChar(n, "fed rate", 0);
  }

  lemma RegimePromptNoMispriced(n: string)
    requires n == "current regime status"
    ensures !Contains(n, "mispriced") && !Contains(n, "opportunity")
  {
    RegimePromptLetters(n);
    AbsentChar(n, "mispriced", 3);
    AbsentChar(n, "opportunity", 0);
  }

  lemma RegimePromptHasRegime(n: string)
    requires n == "current regime status"
    ensures Contains(n, "regime")
  {
    RegimePromptLowerWords(n);
    OccursBetween("current ", "regime", " status");
  }

  // "Energy shock analysis"

  lemma EnergyPromptWords(m: string)
    requires m == "Energy shock analysis"
    ensures m == "" + "Energy" + " shock analysis"
  {
  }

  lemma EnergyPromptLowerWords(n: string)
    requires n == "energy shock analysis"
    ensures n == "" + "energy" + " shock analysis"
  {
  }

  lemma EnergyPromptFirstWord()
    ensures Lower("Energy") == "energy"
  {
    assert "Energy" == ['E'] + "nergy";
    LowerCapitalised('E', "nergy");
  }

  lemma EnergyPromptLower()
    ensures Lower("Energy shock analysis") == "energy shock analysis"
  {
    EnergyPromptWords("Energy shock analysis");
    LowerAppend3("", "Energy", " shock analysis");
    EnergyPromptFirstWord();
    LowerNoUpper("");
    LowerNoUpper(" shock analysis");
    EnergyPromptLowerWords("energy shock analysis");
  }

  /** The lowercased fourth prompt has no 'f', 'm', 'p' or 'u'. */
  lemma EnergyPromptLetters(n: string)
    requires n == "energy shock analysis"
    ensures 'f' !in n && 'm' !in n && 'p' !in n && 'u' !in n
  {
    EnergyPromptLowerWords(n);
    AbsentFromWords('f', "", "energy", " shock analysis");
    AbsentFromWords('m', "", "energy", " shock analysis");
    AbsentFromWords('p', "", "energy", " shock analysis");
    AbsentFromWords('u', "", "energy", " shock analysis");
  }

  lemma EnergyPromptNoFed(n: string)
    requires n == "energy shock analysis"
    ensures !Contains(n, "fed cuts") && !Contains(n, "fed rate")
  {
    EnergyPromptLetters(n);
    AbsentChar(n, "fed cuts", 0);
    AbsentChar(n, "fed rate", 0);
  }

  lemma EnergyPromptNoMispriced(n: string)
    requires n == "energy shock analysis"
    ensures !Contains(n, "mispriced") && !Contains(n, "opportunity")
  {
    EnergyPromptLetters(n);
    AbsentChar(n, "mispriced", 0);
    AbsentChar(n, "opportunity", 1);
  }

  lemma EnergyPromptNoRegime(n: string)
    requires n == "energy shock analysis"
    ensures !Contains(n, "regime") && !Contains(n, "current")
  {
    EnergyPromptLetters(n);
    AbsentChar(n, "regime", 4);
    AbsentChar(n, "current", 1);
  }

  lemma EnergyPromptHasEnergy(n: string)
    requires n == "energy shock analysis"
    ensures Contains(n, "energy")
  {
    EnergyPromptLowerWords(n);
    OccursBetween("", "energy", " shock analysis");
  }
}
