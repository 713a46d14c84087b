/** The decision `moderate_message` takes on one group message, as a function
    of the settings, the sender's role, the message, the current time and
    the two per-user ledgers (the rate windows of `check_spam` and the
    warning counts of `warn_user_internal`).

    The checks run in a fixed order: chats other than groups and supergroups
    are ignored, owners and administrators are exempt, then (when links are
    disallowed) the link check, then the rate check, then the forward check.
    The first check that fires removes the message; the Bot API calls and
    backend reports it makes are returned as an ordered list of effects. */
module Moderation {
  import opened Text
  import opened Wrappers
  import opened Settings
  import opened RateWindow
  import opened WarningLedger

  datatype ChatKind = Private | Group | Supergroup | Channel

  datatype MemberStatus = Owner | Administrator | Member | Restricted | Left | Banned

  /** A group message: its text and caption (the empty string when absent)
      and whether it was forwarded (has a `forward_date`). */
  datatype Message = Message(text: string, caption: string, forwarded: bool)

  /** The notices the bot posts in the group. */
  datatype Notice = LinksNotAllowed | MutedForSpam | BannedAfterWarnings

  /** The events reported to the backend, with the count or duration they carry. */
  datatype Event = MessageDeleted | UserMuted(minutes: int) | UserWarned(count: int) | UserBanned(count: int)

  datatype Effect =
    | DeleteMessage
    | SendNotice(notice: Notice)
    | MuteUser(minutes: int)
    | BanUser
    | Report(event: Event)

  datatype Reason = LinkPosted | Spam | ForwardBlocked

  /** `Removed` is the handler's `True` (the message was deleted). */
  datatype Verdict = Pass | Removed(reason: Reason)

  /** The per-user state: `message_counts` and `warned_users`. */
  datatype Ledgers = Ledgers(windows: map<int, seq<int>>, warnings: map<int, int>)

  datatype Decision = Decision(verdict: Verdict, effects: seq<Effect>, after: Ledgers)

  /** The spam mute is always five minutes; the configured
      `mute_duration_minutes` is not consulted. */
  const SpamMuteMinutes := 5

  predicate IsGroup(kind: ChatKind) { kind == Group || kind == Supergroup }

  /** Owners and administrators are exempt. `None` is a role lookup that
      failed, which exempts nobody. */
  predicate IsPrivileged(lookup: Option<MemberStatus>) {
    lookup == Some(Owner) || lookup == Some(Administrator)
  }

  predicate Moderated(kind: ChatKind, lookup: Option<MemberStatus>) {
    IsGroup(kind) && !IsPrivileged(lookup)
  }

  /** `message.text or message.caption or ''` */
  function ModeratedText(m: Message): string {
    if m.text != [] then m.text else m.caption
  }

  ghost predicate MentionAt(t: string, i: int) {
    0 <= i && i + 1 < |t| && t[i] == '@' && IsWordChar(t[i + 1])
  }

  /** The `@\w+` alternative of the link pattern: an '@' followed by a word
      character somewhere in the text. */
  predicate HasMention(t: string)
    decreases |t|
  {
    |t| >= 2 && ((t[0] == '@' && IsWordChar(t[1])) || HasMention(t[1..]))
  }

  lemma {:induction false} HasMentionIff(t: string)
    ensures HasMention(t) <==> exists i :: MentionAt(t, i)
    decreases |t|
  {
    if |t| >= 2 {
      if t[0] == '@' && IsWordChar(t[1]) {
        assert MentionAt(t, 0);
      } else {
        HasMentionIff(t[1..]);
        if HasMention(t[1..]) {
          var i :| MentionAt(t[1..], i);
          assert MentionAt(t, i + 1);
        } else {
          forall i | MentionAt(t, i) ensures false {
            if i > 0 {
              assert MentionAt(t[1..], i - 1);
            }
          }
        }
      }
    }
  }

  /** `re.search(r'(https?://|www\.|t\.me/|@\w+)', text, re.IGNORECASE)` */
  predicate HasLink(t: string) {
    var l := Lower(t);
    Contains(l, "http://") || Contains(l, "https://") || Contains(l, "www.")
    || Contains(l, "t.me/") || HasMention(t)
  }

  predicate LinkBlocked(s: ModSettings, m: Message) {
    !s.allowLinks && HasLink(ModeratedText(m))
  }

  function WindowOf(st: Ledgers, user: int): seq<int> {
    if user in st.windows then st.windows[user] else []
  }

  /** What `warn_user_internal` does after incrementing the count: a ban, the
      ban notice and a `user_banned` report, or only a `user_warned` report. */
  function WarnEffects(w: WarnOutcome): (r: seq<Effect>)
    ensures w.banned <==> BanUser in r
    ensures w.banned <==> Report(UserBanned(w.count)) in r
    ensures !w.banned <==> r == [Report(UserWarned(w.count))]
    ensures w.banned ==> forall c :: Report(UserWarned(c)) !in r
  {
    if w.banned then [BanUser, SendNotice(BannedAfterWarnings), Report(UserBanned(w.count))]
    else [Report(UserWarned(w.count))]
  }

  const LinkEffects := [DeleteMessage, SendNotice(LinksNotAllowed), Report(MessageDeleted)]

  const SpamEffects :=
    [DeleteMessage, MuteUser(SpamMuteMinutes), SendNotice(MutedForSpam), Report(UserMuted(SpamMuteMinutes))]

  /** One call of `moderate_message`. */
  function Decide(s: ModSettings, kind: ChatKind, lookup: Option<MemberStatus>,
                  user: int, msg: Message, now: int, st: Ledgers): (r: Decision)
    // ignored chats and exempt senders: nothing happens and no state changes
    ensures !Moderated(kind, lookup) ==> r == Decision(Pass, [], st)
    // a message is deleted exactly when some effect was produced, and deletion comes first
    ensures r.verdict.Pass? <==> r.effects == []
    ensures r.verdict.Removed? ==> r.effects[0] == DeleteMessage
    // the link check comes first and records no timestamp
    ensures r.verdict == Removed(LinkPosted) <==> Moderated(kind, lookup) && LinkBlocked(s, msg)
    ensures r.verdict == Removed(LinkPosted) ==> r.after.windows == st.windows
    // only a link warns, and the warning goes through the ledger
    ensures r.after.warnings == (if r.verdict == Removed(LinkPosted) then Warn(st.warnings, user).ledger else st.warnings)
    // a ban happens only on the third warning
    ensures BanUser in r.effects <==> r.verdict == Removed(LinkPosted) && Warn(st.warnings, user).banned
    // every other moderated message passes through the rate window
    ensures Moderated(kind, lookup) && !LinkBlocked(s, msg) ==>
              r.after.windows == st.windows[user := Record(SecondsAttribute, WindowOf(st, user), now)]
    // then the rate check: spam when the window exceeds the limit
    ensures r.verdict == Removed(Spam) <==>
              Moderated(kind, lookup) && !LinkBlocked(s, msg)
              && |Record(SecondsAttribute, WindowOf(st, user), now)| > s.maxMessagesPerMinute
    // then the forward check, only for messages within the limit
    ensures r.verdict == Removed(ForwardBlocked) <==>
              Moderated(kind, lookup) && !LinkBlocked(s, msg)
              && |Record(SecondsAttribute, WindowOf(st, user), now)| <= s.maxMessagesPerMinute
              && msg.forwarded && !s.allowForwards
    // what each removal does
    ensures r.verdict == Removed(LinkPosted) ==> r.effects == LinkEffects + WarnEffects(Warn(st.warnings, user))
    ensures r.verdict == Removed(Spam) ==> r.effects == SpamEffects
    ensures r.verdict == Removed(ForwardBlocked) ==> r.effects == [DeleteMessage]
  {
    if !Moderated(kind, lookup) then Decision(Pass, [], st)
    else if LinkBlocked(s, msg) then
      var w := Warn(st.warnings, user);
      Decision(Removed(LinkPosted), LinkEffects + WarnEffects(w), Ledgers(st.windows, w.ledger))
    else
      var window := Record(SecondsAttribute, WindowOf(st, user), now);
      var after := Ledgers(st.windows[user := window], st.warnings);
      if |window| > s.maxMessagesPerMinute then Decision(Removed(Spam), SpamEffects, after)
      else if msg.forwarded && !s.allowForwards then Decision(Removed(ForwardBlocked), [DeleteMessage], after)
      else Decision(Pass, [], after)
  }

  /** Every stored window holds at least the message that created it, and
      every stored warning count is below the ban threshold. */
  ghost predicate LedgersValid(st: Ledgers) {
    (forall u :: u in st.windows ==> st.windows[u] != [])
    && Bounded(st.warnings)
  }

  /** Moderation keeps the ledgers valid. */
  lemma DecideKeepsValid(s: ModSettings, kind: ChatKind, lookup: Option<MemberStatus>,
                         user: int, msg: Message, now: int, st: Ledgers)
    requires LedgersValid(st)
    ensures LedgersValid(Decide(s, kind, lookup, user, msg, now, st).after)
  {
    WarnKeepsBounded(st.warnings, user);
  }

  /** A failed role lookup is treated exactly like an ordinary member. */
  lemma FailedLookupIsModerated(s: ModSettings, kind: ChatKind, user: int, msg: Message, now: int, st: Ledgers)
    ensures Decide(s, kind, None, user, msg, now, st) == Decide(s, kind, Some(Member), user, msg, now, st)
  {
  }

  /** When a message is removed for a link, whether it was forwarded and how
      many messages the sender sent recently make no difference. */
  lemma LinkCheckComesFirst(s: ModSettings, kind: ChatKind, lookup: Option<MemberStatus>,
                            user: int, msg: Message, now: int, st: Ledgers, windows: map<int, seq<int>>)
    requires Moderated(kind, lookup) && LinkBlocked(s, msg)
    ensures var d := Decide(s, kind, lookup, user, msg, now, st);
            var e := Decide(s, kind, lookup, user, msg.(forwarded := !msg.forwarded), now, st.(windows := windows));
            && d.verdict == e.verdict == Removed(LinkPosted)
            && d.effects == e.effects
            && d.after.warnings == e.after.warnings
  {
  }

  /** Three link messages in a row from a sender without warnings: the first
      two are deleted with a warning (counts 1 and 2), the third is deleted
      and the sender is banned with count 3 and leaves the warning ledger. */
  lemma ThirdLinkBans(s: ModSettings, kind: ChatKind, lookup: Option<MemberStatus>,
                      user: int, m1: Message, m2: Message, m3: Message, t1: int, t2: int, t3: int, st: Ledgers)
    requires Moderated(kind, lookup)
    requires LinkBlocked(s, m1) && LinkBlocked(s, m2) && LinkBlocked(s, m3)
    requires user !in st.warnings
    ensures var d1 := Decide(s, kind, lookup, user, m1, t1, st);
            var d2 := Decide(s, kind, lookup, user, m2, t2, d1.after);
            var d3 := Decide(s, kind, lookup, user, m3, t3, d2.after);
            && d1.effects == LinkEffects + [Report(UserWarned(1))]
            && d2.effects == LinkEffects + [Report(UserWarned(2))]
            && d3.effects == LinkEffects + [BanUser, SendNotice(BannedAfterWarnings), Report(UserBanned(3))]
            && d3.after == st
  {
    ThirdWarningBans(st.warnings, user);
  }

  /** Rate limiting as the bot configures it: when the sender's stored window
      is the history `prev`, and `prev` followed by the current message spans
      less than a minute with `max_messages_per_minute + 1` messages, a message
      that is not removed for a link is removed as spam, with a five-minute
      mute. */
  lemma BurstIsMuted(s: ModSettings, kind: ChatKind, lookup: Option<MemberStatus>,
                     user: int, msg: Message, prev: seq<int>, now: int, st: Ledgers)
    requires Moderated(kind, lookup) && !LinkBlocked(s, msg)
    requires s.maxMessagesPerMinute >= 0 && |prev| == s.maxMessagesPerMinute
    requires WindowOf(st, user) == Replay(SecondsAttribute, [], prev)
    requires Sorted(prev + [now]) && now - (prev + [now])[0] < WindowSeconds
    ensures Decide(s, kind, lookup, user, msg, now, st).verdict == Removed(Spam)
    ensures Decide(s, kind, lookup, user, msg, now, st).effects == SpamEffects
  {
    var times := prev + [now];
    assert times[..|times| - 1] == prev;
    BurstOverLimitIsSpam(SecondsAttribute, times, s.maxMessagesPerMinute);
  }

  /** A text that mentions a user name starting with a word character (every
      Telegram user name, the bot's own included) contains a link in the
      sense of the link check. */
  lemma MentionIsLink(text: string, name: string)
    requires name != [] && IsWordChar(name[0])
    requires Contains(Lower(text), Lower("@" + name))
    ensures HasLink(text)
  {
    var l := Lower(text);
    var p := Lower("@" + name);
    ContainsIff(l, p);
    var i :| OccursAt(l, p, i);
    assert l[i] == p[0] && l[i + 1] == p[1];
    LowerCharClass(text[i]);
    LowerCharClass(text[i + 1]);
    LowerCharClass(name[0]);
    assert MentionAt(text, i);
    HasMentionIff(text);
  }
}
