/**
 * Concrete names run through both normalisations.  Each word is computed
 * one stage at a time, and the words are put together with the run and
 * append lemmas of module Names.  The literal pieces are passed in as
 * parameters (`requires x == "My"`) rather than written into the ensures:
 * a concatenation of string literals inside one equation makes the solver
 * unfold every recursive definition along the whole string.
 */
module NameExamples {
  import opened Names

  lemma CollapseMy() ensures CollapseWhitespace("My") == "My" { }
  lemma LowerMy() ensures LowerCase("My") == "my" { }
  lemma KeepMy() ensures KeepSlugChars("my") == "my" { }

  lemma SlugOfMy(s: string) requires s == "My" ensures Slug(s) == "my" {
    CollapseMy();
    LowerMy();
    KeepMy();
  }

  lemma CollapseMod() ensures CollapseWhitespace("Mod") == "Mod" { }
  lemma LowerMod() ensures LowerCase("Mod") == "mod" { }
  lemma KeepMod() ensures KeepSlugChars("mod") == "mod" { }

  lemma SlugOfMod(s: string) requires s == "Mod" ensures Slug(s) == "mod" {
    CollapseMod();
    LowerMod();
    KeepMod();
  }

  lemma CollapseTwo() ensures CollapseWhitespace("2!") == "2!" { }
  lemma LowerTwo() ensures LowerCase("2!") == "2!" { }
  lemma KeepTwo() ensures KeepSlugChars("2!") == "" { }

  lemma SlugOfTwo(s: string) requires s == "2!" ensures Slug(s) == "" {
    CollapseTwo();
    LowerTwo();
    KeepTwo();
  }

  lemma SlugOfModTwo(a: string, w: string, b: string)
    requires a == "Mod" && w == " " && b == "2!"
    ensures Slug(a + w + b) == "mod_"
  {
    SlugOfRun(a, w, b);
    SlugOfMod(a);
    SlugOfTwo(b);
  }

  lemma SlugOfMyMod(a: string, w: string, b: string)
    requires a == "My" && w == " " && b == "Mod 2!"
    ensures Slug(a + w + b) == "my_mod_"
  {
    SlugOfRun(a, w, b);
    SlugOfMy(a);
    SlugOfModTwo("Mod", " ", "2!");
    assert "Mod" + " " + "2!" == b;
  }

  /** Digits and punctuation are dropped after whitespace became `_`, leaving a dangling `_`. */
  lemma SlugExampleMyMod()
    ensures Slug("My Mod 2!") == "my_mod_"
  {
    SlugOfMyMod("My", " ", "Mod 2!");
    assert "My" + " " + "Mod 2!" == "My Mod 2!";
  }

  lemma CollapseEpic() ensures CollapseWhitespace("Epic") == "Epic" { }
  lemma LowerEpic() ensures LowerCase("Epic") == "epic" { }
  lemma KeepEpic() ensures KeepSlugChars("epic") == "epic" { }

  lemma SlugOfEpic(s: string) requires s == "Epic" ensures Slug(s) == "epic" {
    CollapseEpic();
    LowerEpic();
    KeepEpic();
  }

  lemma CollapseLoot() ensures CollapseWhitespace("Loot!") == "Loot!" { }
  lemma LowerLoot() ensures LowerCase("Loot!") == "loot!" { }
  lemma KeepLoot() ensures KeepSlugChars("loot!") == "loot" { }

  lemma SlugOfLoot(s: string) requires s == "Loot!" ensures Slug(s) == "loot" {
    CollapseLoot();
    LowerLoot();
    KeepLoot();
  }

  lemma SlugOfEpicLoot(a: string, w: string, b: string)
    requires a == "Epic" && w == " " && b == "Loot!"
    ensures Slug(a + w + b) == "epic_loot"
  {
    SlugOfRun(a, w, b);
    SlugOfEpic(a);
    SlugOfLoot(b);
  }

  lemma SlugExampleEpicLoot()
    ensures Slug("Epic Loot!") == "epic_loot"
  {
    SlugOfEpicLoot("Epic", " ", "Loot!");
    assert "Epic" + " " + "Loot!" == "Epic Loot!";
  }

  lemma CollapseDigits() ensures CollapseWhitespace("123") == "123" { }
  lemma LowerDigits() ensures LowerCase("123") == "123" { }
  lemma KeepDigits() ensures KeepSlugChars("123") == "" { }

  /** A name with no letter gives the empty slug; nothing rejects it. */
  lemma SlugExampleNoLetters()
    ensures Slug("123") == ""
    ensures Slug("") == ""
  {
    CollapseDigits();
    LowerDigits();
    KeepDigits();
  }

  lemma ScanTest() ensures ClassScan("test", true) == "Test" && !StartAfter("test", true) { }
  lemma ScanModDigits() ensures ClassScan("_mod_42", false) == "mod" { }

  lemma ScanTestMod(x: string, y: string)
    requires x == "test" && y == "_mod_42"
    ensures ClassScan(x + y, true) == "Testmod"
  {
    ScanAppend(x, y, true);
    ScanTest();
    ScanModDigits();
  }

  lemma ClassOfTestMod(s: string)
    requires s == "test_mod_42"
    ensures ClassName(s) == "Testmod"
  {
    ClassNameIsScan(s);
    ScanTestMod("test", "_mod_42");
    assert "test" + "_mod_42" == s;
  }

  /** Underscores are deleted before the split, so they do not separate words. */
  lemma ClassExampleTestMod()
    ensures ClassName("test_mod_42") == "Testmod"
  {
    ClassOfTestMod("test_mod_42");
  }

  lemma ScanMy() ensures ClassScan("my", true) == "My" { }
  lemma ScanCool() ensures ClassScan("cool", true) == "Cool" { }
  lemma ScanModWord() ensures ClassScan("mod", true) == "Mod" { }

  lemma ScanCoolMod(x: string, w: string, y: string)
    requires x == "cool" && w == " " && y == "mod"
    ensures ClassScan(x + w + y, true) == "CoolMod"
  {
    ScanAcrossRun(x, w, y);
    ScanCool();
    ScanModWord();
  }

  lemma ScanMyCoolMod(x: string, w: string, y: string)
    requires x == "my" && w == " " && y == "cool mod"
    ensures ClassScan(x + w + y, true) == "MyCoolMod"
  {
    ScanAcrossRun(x, w, y);
    ScanMy();
    ScanCoolMod("cool", " ", "mod");
    assert "cool" + " " + "mod" == y;
  }

  lemma ClassOfMyCoolMod(s: string)
    requires s == "my cool mod"
    ensures ClassName(s) == "MyCoolMod"
  {
    ClassNameIsScan(s);
    ScanMyCoolMod("my", " ", "cool mod");
    assert "my" + " " + "cool mod" == s;
  }

  lemma ClassExampleMyCoolMod()
    ensures ClassName("my cool mod") == "MyCoolMod"
  {
    ClassOfMyCoolMod("my cool mod");
  }

  lemma ScanEpic() ensures ClassScan("Epic", true) == "Epic" { }
  lemma ScanLoot() ensures ClassScan("Loot!", true) == "Loot" { }

  lemma ScanEpicLoot(x: string, w: string, y: string)
    requires x == "Epic" && w == " " && y == "Loot!"
    ensures ClassScan(x + w + y, true) == "EpicLoot"
  {
    ScanAcrossRun(x, w, y);
    ScanEpic();
    ScanLoot();
  }

  lemma ClassOfEpicLoot(s: string)
    requires s == "Epic Loot!"
    ensures ClassName(s) == "EpicLoot"
  {
    ClassNameIsScan(s);
    ScanEpicLoot("Epic", " ", "Loot!");
    assert "Epic" + " " + "Loot!" == s;
  }

  lemma ClassExampleEpicLoot()
    ensures ClassName("Epic Loot!") == "EpicLoot"
  {
    ClassOfEpicLoot("Epic Loot!");
  }
}
