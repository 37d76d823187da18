/**
 * The licence classifier `fieldFn` of src/utils/licenseUtils.js: which referee
 * licence a game needs, read off the league name by a first-match cascade of
 * substring tests.
 */
module License {
  import opened Wrappers
  import opened Strings

  const LSE: string := "LSE"
  const LSD: string := "LSD"
  /** The label `fieldFn` gives the upper leagues. */
  const UpperLabel: string := "LSE+,LSD"

  /** The league fields `fieldFn` reads from a game record. */
  datatype LeagueData = LeagueData(liganame: Option<string>, ligaName: Option<string>)

  /** A JavaScript string field is truthy when it is present and not empty. */
  predicate Truthy(o: Option<string>) {
    o.Some? && o.value != ""
  }

  /** `liganame || ligaName || ''`. */
  function LeagueName(d: LeagueData): (r: string)
    ensures Truthy(d.liganame) ==> r == d.liganame.value
    ensures !Truthy(d.liganame) && Truthy(d.ligaName) ==> r == d.ligaName.value
    ensures !Truthy(d.liganame) && !Truthy(d.ligaName) ==> r == ""
  {
    if Truthy(d.liganame) then d.liganame.value
    else if Truthy(d.ligaName) then d.ligaName.value
    else ""
  }

  /**
   * The rule cascade shared by `fieldFn` and the older `lizenzstufe`; the two
   * differ only in the label of the Oberliga/Playoffs case, `upper`.
   */
  function Cascade(name: string, upper: string): (r: string)
    ensures r == LSE || r == LSD || r == upper
  {
    if Contains(name, "Herren") then
      if Contains(name, "Kreisliga") then LSE else LSD
    else if Contains(name, "Damen") then
      if Contains(name, "Bezirksliga") then LSE
      else if Contains(name, "Landesliga") then LSE
      else LSD
    else if Contains(name, "Oberliga") then upper
    else if Contains(name, "Playoffs") then upper
    else LSE
  }

  /** `fieldFn(data)`. */
  function FieldFn(d: LeagueData): (r: string)
    ensures r == LSE || r == LSD || r == UpperLabel
  {
    Cascade(LeagueName(d), UpperLabel)
  }

  // ---- the cascade as a rule table ----------------------------------------

  /** A rule fires when the name contains every one of its words. */
  datatype Rule = Rule(words: seq<string>, outcome: string)

  predicate Fires(r: Rule, name: string) {
    ContainsAll(name, r.words)
  }

  predicate ContainsAll(name: string, words: seq<string>)
    decreases |words|
  {
    words == [] || (Contains(name, words[0]) && ContainsAll(name, words[1..]))
  }

  /** The label of the first rule that fires, `LSE` when none does. */
  function FirstMatch(rules: seq<Rule>, name: string): string
    decreases |rules|
  {
    if rules == [] then LSE
    else if Fires(rules[0], name) then rules[0].outcome
    else FirstMatch(rules[1..], name)
  }

  /** The nested conditionals of `fieldFn`, flattened into an ordered table. */
  function Rules(upper: string): seq<Rule> {
    [ Rule(["Herren", "Kreisliga"], LSE),
      Rule(["Herren"], LSD),
      Rule(["Damen", "Bezirksliga"], LSE),
      Rule(["Damen", "Landesliga"], LSE),
      Rule(["Damen"], LSD),
      Rule(["Oberliga"], upper),
      Rule(["Playoffs"], upper) ]
  }

  /** The cascade is exactly first-match evaluation of the rule table. */
  lemma CascadeIsFirstMatch(name: string, upper: string)
    ensures Cascade(name, upper) == FirstMatch(Rules(upper), name)
  {
    var rs := Rules(upper);
    assert Fires(rs[0], name) <==> Contains(name, "Herren") && Contains(name, "Kreisliga") by {
      assert rs[0].words == ["Herren", "Kreisliga"];
    }
    assert Fires(rs[1], name) <==> Contains(name, "Herren") by {
      assert rs[1].words == ["Herren"];
    }
    assert Fires(rs[2], name) <==> Contains(name, "Damen") && Contains(name, "Bezirksliga") by {
      assert rs[2].words == ["Damen", "Bezirksliga"];
    }
    assert Fires(rs[3], name) <==> Contains(name, "Damen") && Contains(name, "Landesliga") by {
      assert rs[3].words == ["Damen", "Landesliga"];
    }
    assert Fires(rs[4], name) <==> Contains(name, "Damen") by {
      assert rs[4].words == ["Damen"];
    }
    assert Fires(rs[5], name) <==> Contains(name, "Oberliga") by {
      assert rs[5].words == ["Oberliga"];
    }
    assert Fires(rs[6], name) <==> Contains(name, "Playoffs") by {
      assert rs[6].words == ["Playoffs"];
    }
    assert FirstMatch(rs[6..], name) == if Contains(name, "Playoffs") then upper else LSE by {
      assert rs[6..][1..] == [];
    }
    assert FirstMatch(rs[5..], name) == if Contains(name, "Oberliga") then upper else FirstMatch(rs[6..], name) by {
      assert rs[5..][1..] == rs[6..];
    }
    assert FirstMatch(rs[4..], name) == if Contains(name, "Damen") then LSD else FirstMatch(rs[5..], name) by {
      assert rs[4..][1..] == rs[5..];
    }
    assert FirstMatch(rs[3..], name) == if Fires(rs[3], name) then LSE else FirstMatch(rs[4..], name) by {
      assert rs[3..][1..] == rs[4..];
    }
    assert FirstMatch(rs[2..], name) == if Fires(rs[2], name) then LSE else FirstMatch(rs[3..], name) by {
      assert rs[2..][1..] == rs[3..];
    }
    assert FirstMatch(rs[1..], name) == if Contains(name, "Herren") then LSD else FirstMatch(rs[2..], name) by {
      assert rs[1..][1..] == rs[2..];
    }
  }

  // ---- the rules one by one -----------------------------------------------

  /** "Herren" is tested first: Kreisliga gives LSE, anything else LSD. */
  lemma HerrenRule(name: string, upper: string)
    requires Contains(name, "Herren")
    ensures Cascade(name, upper) == (if Contains(name, "Kreisliga") then LSE else LSD)
  {
  }

  /** Then "Damen": Bezirksliga or Landesliga gives LSE, anything else LSD. */
  lemma DamenRule(name: string, upper: string)
    requires !Contains(name, "Herren") && Contains(name, "Damen")
    ensures Cascade(name, upper) ==
      (if Contains(name, "Bezirksliga") || Contains(name, "Landesliga") then LSE else LSD)
  {
  }

  /** Then Oberliga or Playoffs gives the upper label. */
  lemma UpperRule(name: string, upper: string)
    requires !Contains(name, "Herren") && !Contains(name, "Damen")
    requires Contains(name, "Oberliga") || Contains(name, "Playoffs")
    ensures Cascade(name, upper) == upper
  {
  }

  /** Any other name gives LSE. */
  lemma DefaultRule(name: string, upper: string)
    requires !Contains(name, "Herren") && !Contains(name, "Damen")
    requires !Contains(name, "Oberliga") && !Contains(name, "Playoffs")
    ensures Cascade(name, upper) == LSE
  {
  }

  /** A record without a league name needs LSE. */
  lemma {:induction false} NoNameIsLse(d: LeagueData)
    requires !Truthy(d.liganame) && !Truthy(d.ligaName)
    ensures FieldFn(d) == LSE
  {
    NotContainsFirstChar("", "Herren");
    NotContainsFirstChar("", "Damen");
    NotContainsFirstChar("", "Oberliga");
    NotContainsFirstChar("", "Playoffs");
  }

  // ---- concrete cases ------------------------------------------------------

  function Named(name: string): LeagueData {
    LeagueData(Some(name), None)
  }

  /** A "Herren..." name without a 'K' cannot contain "Kreisliga". */
  lemma HerrenLsd(n: string)
    requires |n| >= 6 && n[..6] == "Herren" && 'K' !in n
    ensures FieldFn(Named(n)) == LSD
  {
    ContainsAt(n, "Herren", 0);
    NotContainsFirstChar(n, "Kreisliga");
    HerrenRule(n, UpperLabel);
  }

  /** A name none of whose rule words can start in it matches no rule. */
  lemma NoRuleWord(n: string)
    requires 'H' !in n && 'D' !in n && 'O' !in n && 'P' !in n
    ensures FieldFn(Named(n)) == LSE
  {
    assert LeagueName(Named(n)) == n;
    NotContainsFirstChar(n, "Herren");
    NotContainsFirstChar(n, "Damen");
    NotContainsFirstChar(n, "Oberliga");
    NotContainsFirstChar(n, "Playoffs");
    DefaultRule(n, UpperLabel);
  }

  lemma DamenLse(n: string, i: nat)
    requires |n| >= 5 && n[..5] == "Damen" && 'H' !in n
    requires i + 11 <= |n| && n[i..i + 11] == "Bezirksliga"
    ensures FieldFn(Named(n)) == LSE
  {
    NotContainsFirstChar(n, "Herren");
    ContainsAt(n, "Damen", 0);
    ContainsAt(n, "Bezirksliga", i);
    DamenRule(n, UpperLabel);
  }

  lemma DamenLsd(n: string)
    requires |n| >= 5 && n[..5] == "Damen" && 'H' !in n && 'B' !in n && 'L' !in n
    ensures FieldFn(Named(n)) == LSD
  {
    NotContainsFirstChar(n, "Herren");
    ContainsAt(n, "Damen", 0);
    NotContainsFirstChar(n, "Bezirksliga");
    NotContainsFirstChar(n, "Landesliga");
    DamenRule(n, UpperLabel);
  }

  /** The Herren rule is tested before the Oberliga rule. */
  lemma HerrenOberliga()
    ensures FieldFn(Named("Herren Oberliga")) == LSD
  {
    HerrenLsd("Herren Oberliga");
  }

  /** A Kreisliga is LSE only for Herren: for Damen it is LSD. */
  lemma DamenKreisliga()
    ensures FieldFn(Named("Damen Kreisliga X")) == LSD
  {
    DamenLsd("Damen Kreisliga X");
  }

  lemma Playoffs()
    ensures FieldFn(Named("Playoffs")) == UpperLabel
  {
    NotContainsFirstChar("Playoffs", "Herren");
    NotContainsFirstChar("Playoffs", "Damen");
    NotContainsFirstChar("Playoffs", "Oberliga");
    ContainsAt("Playoffs", "Playoffs", 0);
  }

  /** `ligaName` is read only when `liganame` is missing or empty. */
  lemma FallbackName()
    ensures FieldFn(LeagueData(Some(""), Some("Playoffs"))) == UpperLabel
  {
    Playoffs();
  }
}
