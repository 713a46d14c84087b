/** The group greetings: the welcome posted for each new member
    (`handle_new_member`) and the rules text (`rules_command`), both filled
    in with `str.replace`. */
module Welcome {
  import opened Text
  import opened Settings
  import Responder

  datatype NewMember = NewMember(firstName: string, isBot: bool)

  /** The configured welcome with `{website}` replaced first and `{name}`
      second, so a `{website}` inside the member's name stays as typed. */
  function RenderWelcome(template: string, name: string): string {
    Replace(Replace(template, "{website}", Responder.WebsiteUrl), "{name}", name)
  }

  /** The message posted for one new member. */
  function WelcomeText(template: string, name: string): string {
    "👋 Welcome " + name + "!\n\n" + RenderWelcome(template, name)
  }

  /** The rules with `{website}` replaced. */
  function RulesText(rules: string): string {
    Replace(rules, "{website}", Responder.WebsiteUrl)
  }

  /** The members that get a welcome: every one that is not a bot, in order. */
  function Humans(members: seq<NewMember>): (r: seq<NewMember>)
    ensures |r| <= |members|
  {
    if members == [] then []
    else (if members[0].isBot then [] else [members[0]]) + Humans(members[1..])
  }

  /** The members welcomed are exactly the new members that are not bots. */
  lemma {:induction false} HumansAreTheNonBots(members: seq<NewMember>)
    ensures forall m :: m in Humans(members) <==> m in members && !m.isBot
    decreases |members|
  {
    if members != [] {
      HumansAreTheNonBots(members[1..]);
      assert members == [members[0]] + members[1..];
    }
  }

  /** The welcome messages for a batch of new members. */
  function WelcomeTexts(template: string, members: seq<NewMember>): (r: seq<string>)
    ensures |r| == |Humans(members)|
    ensures forall i :: 0 <= i < |r| ==> r[i] == WelcomeText(template, Humans(members)[i].firstName)
  {
    var h := Humans(members);
    seq(|h|, i requires 0 <= i < |h| => WelcomeText(template, h[i].firstName))
  }

  /** Humans of a batch grown by one member: that member is added unless
      it is a bot. */
  lemma {:induction false} HumansAppend(members: seq<NewMember>, m: NewMember)
    ensures Humans(members + [m]) == Humans(members) + (if m.isBot then [] else [m])
    decreases |members|
  {
    if members == [] {
      assert members + [m] == [m];
      assert [m][1..] == [];
    } else {
      var grown := members + [m];
      assert grown[0] == members[0];
      assert grown[1..] == members[1..] + [m];
      HumansAppend(members[1..], m);
      assert Humans(grown) == (if members[0].isBot then [] else [members[0]]) + Humans(grown[1..]);
    }
  }

  /** The welcomes for a batch grown by one member: one more welcome
      unless that member is a bot. */
  lemma WelcomeTextsAppend(template: string, members: seq<NewMember>, m: NewMember)
    ensures WelcomeTexts(template, members + [m])
            == WelcomeTexts(template, members) + (if m.isBot then [] else [WelcomeText(template, m.firstName)])
  {
    HumansAppend(members, m);
    var a := WelcomeTexts(template, members);
    var b := WelcomeTexts(template, members + [m]);
    var extra := if m.isBot then [] else [WelcomeText(template, m.firstName)];
    assert |b| == |a + extra|;
    forall i | 0 <= i < |b| ensures b[i] == (a + extra)[i] {
      if i < |a| {
        assert Humans(members + [m])[i] == Humans(members)[i];
      }
    }
  }

  /** A replacement whose pattern starts with a character absent from the
      text changes nothing. */
  lemma {:induction false} ReplaceWithoutFirstChar(s: string, pat: string, rep: string)
    requires pat != [] && pat[0] !in s
    ensures Replace(s, pat, rep) == s
    decreases |s|
  {
    NotContainsFirstChar(s, pat);
    ReplaceAbsent(s, pat, rep);
  }

  /** The default welcome points at the website and mentions no name. */
  lemma DefaultWelcome(name: string)
    ensures RenderWelcome(Defaults.welcomeMessage, name) == WelcomeLead + Responder.WebsiteUrl
  {
    assert '{' !in "👋 Welcome " && '{' !in "to EarnQuest! " && '{' !in "Earn money " && '{' !in "completing tasks at ";
    assert Defaults.welcomeMessage == WelcomeLead + "{website}" + [];
    NoOccurrenceBeforeFirstChar(WelcomeLead, "{website}", []);
    ReplaceFirst(WelcomeLead, "{website}", [], Responder.WebsiteUrl);
    assert Replace([], "{website}", Responder.WebsiteUrl) == [];
    var filled := WelcomeLead + Responder.WebsiteUrl;
    assert Replace(Defaults.welcomeMessage, "{website}", Responder.WebsiteUrl) == filled;
    assert '{' !in Responder.WebsiteUrl;
    ReplaceWithoutFirstChar(filled, "{name}", name);
  }

  /** The default rules contain no placeholder and are posted as written. */
  lemma DefaultRulesUnchanged()
    ensures RulesText(Defaults.rulesMessage) == Defaults.rulesMessage
  {
    assert '{' !in "📜 **Group Rules:**\n" && '{' !in "1. No spam\n" && '{' !in "2. No links\n";
    assert '{' !in "3. Be respectful\n" && '{' !in "4. English only";
    ReplaceWithoutFirstChar(Defaults.rulesMessage, "{website}", Responder.WebsiteUrl);
  }
}
