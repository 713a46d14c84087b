/** The bot object: the per-user moderation ledgers, the moderation
    settings and the logged-in sessions it keeps in its fields, and the
    handlers that update them. Each handler is tied to the functions that
    specify it; the Bot API calls it makes are returned as effects and the
    replies it sends as strings. */
module GroupBot {
  import opened Text
  import opened Wrappers
  import opened Settings
  import opened RateWindow
  import opened WarningLedger
  import opened Moderation
  import Responder
  import Welcome
  import Conversation
  import Api

  /** The bot is addressed when the message replies to one of its own
      messages or mentions `@<its user name>`, compared in lower case. */
  predicate Addressed(text: string, repliesToBot: bool, botUsername: string) {
    repliesToBot || Contains(text, Lower("@" + botUsername))
  }

  /** The scan of `handle_group_message` for a message that does not
      address the bot: the first knowledge-base key, in order, that occurs in
      the text while the text asks a question. */
  method UnaddressedScan(kb: Responder.KnowledgeBase, text: string) returns (reply: Option<string>)
    ensures reply == Responder.UnaddressedReply(kb, text)
  {
    var i := 0;
    while i < |kb|
      invariant 0 <= i <= |kb|
      invariant forall j :: 0 <= j < i ==> !(Contains(text, kb[j].0) && Responder.HasQuestionMarker(text))
    {
      if Contains(text, kb[i].0) && Responder.HasQuestionMarker(text) {
        assert Responder.FirstKeyIn(kb, text) == Some(i);
        return Some(Responder.Answer(kb[i].1));
      }
      i := i + 1;
    }
    if Responder.HasQuestionMarker(text) {
      assert Responder.FirstKeyIn(kb, text) == None;
    }
    return None;
  }

  class Bot {
    var messageCounts: map<int, seq<int>>
    var warnedUsers: map<int, int>
    var settings: ModSettings
    var userSessions: map<int, Api.UserSession>

    /** The stored windows are non-empty and the stored warning counts
        are below the ban threshold. */
    ghost predicate Valid()
      reads this
    {
      LedgersValid(Ledgers(messageCounts, warnedUsers))
    }

    constructor()
      ensures messageCounts == map[] && warnedUsers == map[] && userSessions == map[]
      ensures settings == Defaults
      ensures Valid()
    {
      messageCounts := map[];
      warnedUsers := map[];
      settings := Defaults;
      userSessions := map[];
    }

    /** `check_spam`: clean the sender's window, append `now`, and report
        whether the window now holds more messages than allowed. */
    method CheckSpam(user: int, now: int) returns (spam: bool)
      requires Valid()
      modifies this`messageCounts
      ensures Valid()
      ensures messageCounts == old(messageCounts)[user := Record(SecondsAttribute, WindowOf(Ledgers(old(messageCounts), warnedUsers), user), now)]
      ensures spam <==> |messageCounts[user]| > settings.maxMessagesPerMinute
    {
      var w := if user in messageCounts then messageCounts[user] else [];
      var kept := [];
      for i := 0 to |w|
        invariant kept == Prune(SecondsAttribute, w[..i], now)
      {
        assert w[..i + 1][..i] == w[..i];
        if (now - w[i]) % SecondsPerDay < WindowSeconds {
          kept := kept + [w[i]];
        }
      }
      assert w[..|w|] == w;
      messageCounts := messageCounts[user := kept + [now]];
      spam := |kept| + 1 > settings.maxMessagesPerMinute;
    }

    /** `warn_user_internal`: count the warning, and ban on the third. */
    method WarnUser(user: int) returns (effects: seq<Effect>)
      requires Valid()
      modifies this`warnedUsers
      ensures warnedUsers == Warn(old(warnedUsers), user).ledger
      ensures effects == WarnEffects(Warn(old(warnedUsers), user))
      ensures Valid()
    {
      WarnKeepsBounded(warnedUsers, user);
      if user !in warnedUsers {
        warnedUsers := warnedUsers[user := 0];
      }
      warnedUsers := warnedUsers[user := warnedUsers[user] + 1];
      var count := warnedUsers[user];
      if count >= BanThreshold {
        effects := [BanUser, SendNotice(BannedAfterWarnings), Report(UserBanned(count))];
        warnedUsers := warnedUsers - {user};
      } else {
        effects := [Report(UserWarned(count))];
      }
    }

    /** `moderate_message`: the checks in order, stopping at the first that
        removes the message. */
    method Moderate(kind: ChatKind, lookup: Option<MemberStatus>, user: int, msg: Message, now: int)
      returns (deleted: bool, effects: seq<Effect>)
      requires Valid()
      modifies this`messageCounts, this`warnedUsers
      ensures var d := Decide(settings, kind, lookup, user, msg, now, Ledgers(old(messageCounts), old(warnedUsers)));
              && deleted == d.verdict.Removed?
              && effects == d.effects
              && messageCounts == d.after.windows
              && warnedUsers == d.after.warnings
      ensures Valid()
    {
      DecideKeepsValid(settings, kind, lookup, user, msg, now, Ledgers(messageCounts, warnedUsers));
      if !IsGroup(kind) || IsPrivileged(lookup) {
        return false, [];
      }
      var text := if msg.text != [] then msg.text else msg.caption;
      if !settings.allowLinks && HasLink(text) {
        var warned := WarnUser(user);
        return true, LinkEffects + warned;
      }
      var spam := CheckSpam(user, now);
      if spam {
        return true, SpamEffects;
      }
      if msg.forwarded && !settings.allowForwards {
        return true, [DeleteMessage];
      }
      return false, [];
    }

    /** `fetch_mod_settings`: merge the fetched settings only on a 200
        answer. */
    method SyncSettings(fetch: SettingsFetch)
      modifies this`settings
      ensures settings == if fetch.Fetched? && fetch.status == 200 then Merge(old(settings), fetch.patch) else old(settings)
    {
      if fetch.Fetched? && fetch.status == 200 {
        settings := Merge(settings, fetch.patch);
      }
    }

    /** `handle_group_message`: moderate first; a message that stays is
        answered from the knowledge base when it asks something without
        addressing the bot, and by the keyword scoring when it addresses
        the bot. */
    method HandleGroupMessage(kind: ChatKind, lookup: Option<MemberStatus>, user: int, msg: Message, now: int,
                              repliesToBot: bool, botUsername: string)
      returns (deleted: bool, effects: seq<Effect>, reply: Option<string>)
      requires Valid()
      modifies this`messageCounts, this`warnedUsers
      ensures var d := Decide(settings, kind, lookup, user, msg, now, Ledgers(old(messageCounts), old(warnedUsers)));
              && deleted == d.verdict.Removed?
              && effects == d.effects
              && messageCounts == d.after.windows
              && warnedUsers == d.after.warnings
      ensures Valid()
      ensures deleted ==> reply == None
      ensures !deleted && !Addressed(Lower(msg.text), repliesToBot, botUsername) ==>
                reply == Responder.UnaddressedReply(Responder.DefaultKnowledgeBase, Lower(msg.text))
      ensures !deleted && Addressed(Lower(msg.text), repliesToBot, botUsername) ==>
                exists best :: Responder.IsBestTopic(Responder.Keywords, Lower(msg.text), best)
                               && reply == Some(Responder.AddressedReply(Responder.DefaultKnowledgeBase, best))
    {
      deleted, effects := Moderate(kind, lookup, user, msg, now);
      if deleted {
        return deleted, effects, None;
      }
      var text := Lower(msg.text);
      if !Addressed(text, repliesToBot, botUsername) {
        reply := UnaddressedScan(Responder.DefaultKnowledgeBase, text);
        return;
      }
      var best := Responder.BestTopic(Responder.Keywords, text);
      reply := Some(Responder.AddressedReply(Responder.DefaultKnowledgeBase, best));
    }

    /** `handle_new_member`: one welcome per new member that is not a bot,
        in order. */
    method WelcomeNewMembers(members: seq<Welcome.NewMember>) returns (sent: seq<string>)
      ensures sent == Welcome.WelcomeTexts(settings.welcomeMessage, members)
    {
      var template := settings.welcomeMessage;
      sent := [];
      assert members[..0] == [];
      for i := 0 to |members|
        invariant sent == Welcome.WelcomeTexts(template, members[..i])
      {
        var m := members[i];
        Welcome.WelcomeTextsAppend(template, members[..i], m);
        assert members[..i + 1] == members[..i] + [m];
        if m.isBot {
          continue;
        }
        sent := sent + [Welcome.WelcomeText(template, m.firstName)];
      }
      assert members[..|members|] == members;
    }

    /** `receive_password` together with the session it stores: after a
        successful login the user's token is the one the backend returned. */
    method ReceivePassword(telegramId: int, c: Conversation.Conv, password: string, answer: Conversation.Answer)
      returns (step: Conversation.Step)
      modifies this`userSessions
      ensures step == Conversation.ReceivePassword(c, password, answer)
      ensures userSessions == if step.session.Some? then old(userSessions)[telegramId := step.session.value] else old(userSessions)
      ensures answer.Answered? && answer.status == 200 ==> Api.GetUserToken(userSessions, telegramId) == answer.token
      ensures !(answer.Answered? && answer.status == 200) ==>
                forall id :: Api.GetUserToken(userSessions, id) == Api.GetUserToken(old(userSessions), id)
    {
      step := Conversation.ReceivePassword(c, password, answer);
      if step.session.Some? {
        userSessions := userSessions[telegramId := step.session.value];
      }
    }
  }

  /** A message that mentions the bot by name is a link in the sense of the
      link check, so while links are disallowed it is deleted before the bot
      can answer it, unless the sender is exempt. */
  lemma MentioningTheBotIsRemoved(s: ModSettings, kind: ChatKind, lookup: Option<MemberStatus>,
                                  user: int, msg: Message, now: int, st: Ledgers, botUsername: string)
    requires botUsername != [] && IsWordChar(botUsername[0])
    requires msg.text != [] && Contains(Lower(msg.text), Lower("@" + botUsername))
    requires Moderated(kind, lookup) && !s.allowLinks
    ensures Decide(s, kind, lookup, user, msg, now, st).verdict == Removed(LinkPosted)
  {
    MentionIsLink(msg.text, botUsername);
  }
}
