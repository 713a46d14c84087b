/** The bot's answers in groups: the keyword scan for messages that do not
    address the bot (`handle_group_message`) and the scored topic match for
    messages that do (`intelligent_response`). Both work on the lowercased
    message text, and both depend on the insertion order of the knowledge
    base and the keyword table, so those are sequences of pairs here. */
module Responder {
  import opened Text
  import opened Wrappers
  import opened Templates

  const WebsiteUrl := "https://earnquestapp.com"
  const SupportEmail := "support@earnquestapp.com"

  type KnowledgeBase = seq<(string, Template)>

  /** The FAQ answers, keyed by topic, in insertion order. */
  const DefaultKnowledgeBase: KnowledgeBase := [
      ("withdraw", [Lit("💰 **Withdrawals** are done on our website: "), WebsiteField, Lit("/withdraw\n\nMinimum varies by method. You need $1.00 in qualifying earnings (tasks/surveys - referral & faucet don't count).")]),
      ("faucet", [Lit("🚿 **Faucet** lets you claim free rewards every few minutes!\n\nVisit: "), WebsiteField, Lit("/rewards")]),
      ("referral", [Lit("👥 **Referral Program**\n\n• Earn 10% of all your referrals' earnings!\n• Both get $0.10 signup bonus\n\nGet your link: Use /referral or visit "), WebsiteField, Lit("/rewards")]),
      ("task", [Lit("📝 **Tasks** are available at "), WebsiteField, Lit("/tasks\n\nComplete tasks, submit proof, and earn money!\n\nUse /tasks to see available tasks!")]),
      ("survey", [Lit("📊 **Surveys** are on our offerwalls: "), WebsiteField, Lit("/offerwalls\n\nMultiple providers = more opportunities!\n\nUse /surveys or /offerwalls to see options!")]),
      ("offerwall", [Lit("🎯 **Offerwalls** let you earn by:\n\n• Completing surveys\n• Downloading apps\n• Signing up for services\n• Watching videos\n\nUse /offerwalls to browse!\n\nVisit: "), WebsiteField, Lit("/offerwalls")]),
      ("offer", [Lit("🎯 **Offers & Surveys**\n\nEarn money completing offers on our offerwalls!\n\nUse /offerwalls to see all providers\nVisit: "), WebsiteField, Lit("/offerwalls")]),
      ("payment", [Lit("💳 We support: PayPal, USDT, Litecoin, Skrill, and more!\n\nCheck methods at: "), WebsiteField, Lit("/withdraw")]),
      ("help", [Lit("🆘 Need help?\n\n• Use /support in private chat\n• Email: "), EmailField, Lit("\n• Visit: "), WebsiteField, Lit("/help")]),
      ("earn", [Lit("💵 **Ways to Earn:**\n\n1. 🎯 Offerwalls - /offerwalls\n2. 📝 Tasks - /tasks\n3. 👥 Referrals - /referral\n4. 🚿 Faucet - "), WebsiteField, Lit("/rewards\n5. 🎁 Bonus codes\n\nStart at: "), WebsiteField]),
      ("minimum", [Lit("📊 **Withdrawal Minimum**\n\nYou need $1.00 in qualifying earnings.\n\n⚠️ Referral & faucet earnings don't count!\nOnly tasks, surveys, and offerwalls count.")]),
      ("balance", [Lit("💰 Check your balance:\n\n• Use /balance in private chat\n• Visit: "), WebsiteField, Lit("/dashboard")]),
      ("login", [Lit("🔐 To login:\n\n• Use /login in private chat\n• Or visit: "), WebsiteField, Lit("/signin")]),
      ("register", [Lit("📝 To register:\n\n• Use /register in private chat\n• Or visit: "), WebsiteField, Lit("/register")]),
      ("start", [Lit("🚀 **Getting Started:**\n\n1. /register or /login\n2. /offerwalls to earn\n3. /tasks for quick tasks\n4. /referral to invite friends\n5. /balance to check earnings")])
    ]

  type KeywordTable = seq<(string, seq<string>)>

  /** The keyword phrases of each topic, in insertion order. */
  const Keywords: KeywordTable := [
      ("withdraw", ["withdraw", "payout", "cash out", "payment", "get money", "get paid"]),
      ("faucet", ["faucet", "free", "claim"]),
      ("referral", ["referral", "refer", "invite", "friend", "commission"]),
      ("task", ["task", "job", "work", "complete"]),
      ("survey", ["survey", "offerwall", "offer"]),
      ("payment", ["paypal", "usdt", "crypto", "litecoin", "skrill"]),
      ("help", ["help", "support", "problem", "issue", "contact"]),
      ("earn", ["earn", "money", "make money", "how to", "start"]),
      ("minimum", ["minimum", "min", "requirement", "need", "qualifying"]),
      ("balance", ["balance", "check", "how much"]),
      ("login", ["login", "sign in", "log in", "access"]),
      ("register", ["register", "sign up", "create account", "join"])
    ]

  /** The answer when no topic matches at all. */
  const CapabilitySummary :=
    "🤖 Hi! I can help with:\n\n"
    + "• /balance - Check your balance\n"
    + "• /referral - Get referral link\n"
    + "• /support - Get help\n\n"
    + "Or ask me about: withdrawals, tasks, surveys, referrals, faucet\n\n"
    + "🌐 Full features at: " + WebsiteUrl

  /** An answer as `str.format(website=..., email=...)` produces it. */
  function Answer(t: Template): string {
    Render(t, WebsiteUrl, SupportEmail)
  }

  predicate HasQuestionMarker(text: string) {
    Contains(text, "?") || Contains(text, "how") || Contains(text, "what") || Contains(text, "where")
  }

  /** The position of the first knowledge-base key that occurs in `text`. */
  function FirstKeyIn(kb: KnowledgeBase, text: string): (r: Option<nat>)
    ensures r.Some? ==> r.value < |kb| && Contains(text, kb[r.value].0)
    ensures r.Some? ==> forall j :: 0 <= j < r.value ==> !Contains(text, kb[j].0)
    ensures r.None? <==> forall j :: 0 <= j < |kb| ==> !Contains(text, kb[j].0)
  {
    if kb == [] then None
    else if Contains(text, kb[0].0) then Some(0)
    else match FirstKeyIn(kb[1..], text)
      case None => None
      case Some(i) => Some(i + 1)
  }

  /** The reply to a lowercased group message that does not address the bot:
      the answer of the first key occurring in the text, provided the text
      also asks a question; otherwise nothing is sent. */
  function UnaddressedReply(kb: KnowledgeBase, text: string): Option<string> {
    if !HasQuestionMarker(text) then None
    else match FirstKeyIn(kb, text)
      case None => None
      case Some(i) => Some(Answer(kb[i].1))
  }

  /** The positions of the phrases occurring in `text`. */
  ghost function Matching(phrases: seq<string>, text: string): set<int> {
    set k | 0 <= k < |phrases| && Contains(text, phrases[k])
  }

  /** `sum(1 for kw in keywords if kw in text)`: the number of phrases
      occurring in `text`, counted once per position in the list. */
  function Score(phrases: seq<string>, text: string): (r: nat)
    ensures r == |Matching(phrases, text)|
    ensures r <= |phrases|
    ensures r == 0 <==> forall k :: 0 <= k < |phrases| ==> !Contains(text, phrases[k])
  {
    if phrases == [] then 0
    else
      var n := |phrases| - 1;
      var init := phrases[..n];
      var before := Score(init, text);
      var hit := Contains(text, phrases[n]);
      assert Matching(phrases, text) == Matching(init, text) + (if hit then {n} else {}) by {
        forall k | 0 <= k < n ensures phrases[k] == init[k] { }
      }
      assert n !in Matching(init, text);
      before + (if hit then 1 else 0)
  }

  function TopicScore(table: KeywordTable, text: string, j: int): nat
    requires 0 <= j < |table|
  {
    Score(table[j].1, text)
  }

  /** Topic `j` has a positive score, no topic scores higher, and every
      earlier topic scores strictly lower: the topic the running strict
      maximum settles on. */
  ghost predicate BestIndex(table: KeywordTable, text: string, j: int) {
    0 <= j < |table| && TopicScore(table, text, j) > 0
    && (forall l :: 0 <= l < |table| ==> TopicScore(table, text, l) <= TopicScore(table, text, j))
    && (forall l :: 0 <= l < j ==> TopicScore(table, text, l) < TopicScore(table, text, j))
  }

  /** The outcome of the scoring loop: no topic when every score is zero,
      otherwise the key of the best-scoring topic. */
  ghost predicate IsBestTopic(table: KeywordTable, text: string, best: Option<string>) {
    match best
    case None => forall l :: 0 <= l < |table| ==> TopicScore(table, text, l) == 0
    case Some(key) => exists j :: BestIndex(table, text, j) && table[j].0 == key
  }

  /** A best topic exists exactly when some topic has a positive score. */
  lemma BestIsPositive(table: KeywordTable, text: string, best: Option<string>)
    requires IsBestTopic(table, text, best)
    ensures best.Some? <==> exists l :: 0 <= l < |table| && TopicScore(table, text, l) > 0
  {
    if best.Some? {
      var j :| BestIndex(table, text, j) && table[j].0 == best.value;
      assert TopicScore(table, text, j) > 0;
    }
  }

  /** The best topic is determined by the table and the text alone. */
  lemma BestTopicUnique(table: KeywordTable, text: string, a: Option<string>, b: Option<string>)
    requires IsBestTopic(table, text, a) && IsBestTopic(table, text, b)
    ensures a == b
  {
    BestIsPositive(table, text, a);
    BestIsPositive(table, text, b);
    if a.Some? && b.Some? {
      var i :| BestIndex(table, text, i) && table[i].0 == a.value;
      var j :| BestIndex(table, text, j) && table[j].0 == b.value;
      assert i == j;
    }
  }

  /** The loop of `intelligent_response`: a running best score starting at 0
      and a topic replaced only on a strictly higher score. */
  method BestTopic(table: KeywordTable, text: string) returns (best: Option<string>)
    ensures IsBestTopic(table, text, best)
  {
    best := None;
    var bestScore := 0;
    ghost var bestIndex := -1;
    var i := 0;
    while i < |table|
      invariant 0 <= i <= |table|
      invariant bestIndex == -1 <==> best.None?
      invariant best.None? ==> bestScore == 0 && forall l :: 0 <= l < i ==> TopicScore(table, text, l) == 0
      invariant best.Some? ==> 0 <= bestIndex < i && table[bestIndex].0 == best.value
      invariant best.Some? ==> bestScore == TopicScore(table, text, bestIndex) > 0
      invariant forall l :: 0 <= l < i ==> TopicScore(table, text, l) <= bestScore
      invariant best.Some? ==> forall l :: 0 <= l < bestIndex ==> TopicScore(table, text, l) < bestScore
    {
      var score := Score(table[i].1, text);
      if score > bestScore {
        bestScore := score;
        best := Some(table[i].0);
        bestIndex := i;
      }
      i := i + 1;
    }
    if best.Some? {
      assert BestIndex(table, text, bestIndex);
    }
  }

  /** The first entry of the knowledge base under `key`. */
  function LookupKey(kb: KnowledgeBase, key: string): (r: Option<Template>)
    ensures r.Some? <==> exists j :: 0 <= j < |kb| && kb[j].0 == key
    ensures r.Some? ==> exists j :: 0 <= j < |kb| && kb[j] == (key, r.value)
  {
    if kb == [] then None
    else if kb[0].0 == key then Some(kb[0].1)
    else LookupKey(kb[1..], key)
  }

  /** Whether the reply to an addressed message falls back to the capability
      summary: no topic, an empty key, or a key without an answer. */
  predicate FallsBack(kb: KnowledgeBase, best: Option<string>) {
    !(best.Some? && best.value != [] && LookupKey(kb, best.value).Some?)
  }

  /** The reply to a message that addresses the bot, given the best topic. */
  function AddressedReply(kb: KnowledgeBase, best: Option<string>): string {
    if FallsBack(kb, best) then CapabilitySummary
    else Answer(LookupKey(kb, best.value).value)
  }

  /** Every topic of the keyword table has an answer in the knowledge base. */
  lemma KeywordTopicsAnswered()
    ensures forall j :: 0 <= j < |Keywords| ==> Keywords[j].0 != [] && LookupKey(DefaultKnowledgeBase, Keywords[j].0).Some?
  {
    forall j | 0 <= j < |Keywords|
      ensures Keywords[j].0 != [] && LookupKey(DefaultKnowledgeBase, Keywords[j].0).Some?
    {
      var key := Keywords[j].0;
      var k := if j < 5 then j else j + 2;
      assert DefaultKnowledgeBase[k].0 == key;
    }
  }

  /** With the bot's tables, an addressed message gets the capability summary
      exactly when none of the keyword phrases occurs in it. */
  lemma SummaryIffNoKeyword(text: string, best: Option<string>)
    requires IsBestTopic(Keywords, text, best)
    ensures FallsBack(DefaultKnowledgeBase, best) <==>
              forall j, k :: 0 <= j < |Keywords| && 0 <= k < |Keywords[j].1| ==> !Contains(text, Keywords[j].1[k])
  {
    KeywordTopicsAnswered();
    if best.Some? {
      var j :| BestIndex(Keywords, text, j) && Keywords[j].0 == best.value;
      assert Score(Keywords[j].1, text) > 0;
    } else {
      forall j | 0 <= j < |Keywords| ensures Score(Keywords[j].1, text) == 0 {
        assert TopicScore(Keywords, text, j) == 0;
      }
    }
  }

  /** A question naming several topics is answered with the topic that comes
      first in the knowledge base: "minimum" occurs too, but "withdraw" wins. */
  lemma FirstKeyWins()
    ensures UnaddressedReply(DefaultKnowledgeBase, "what is the minimum to withdraw?")
            == Some(Answer(DefaultKnowledgeBase[0].1))
  {
    var text := "what is the minimum to withdraw?";
    assert OccursAt(text, "withdraw", 23);
    ContainsAt(text, "withdraw", 23);
    assert IsPrefix("what", text);
  }

  /** Without a question marker nothing is sent, whichever keys occur. */
  lemma NoQuestionNoReply(kb: KnowledgeBase, text: string)
    requires !HasQuestionMarker(text)
    ensures UnaddressedReply(kb, text) == None
  {
  }

  /** The message "faucet" is itself a key of the bot's knowledge base, yet
      it asks no question and gets no reply. */
  lemma BareKeyGetsNoReply()
    ensures FirstKeyIn(DefaultKnowledgeBase, "faucet") == Some(1)
    ensures UnaddressedReply(DefaultKnowledgeBase, "faucet") == None
  {
    var text := "faucet";
    assert IsPrefix("faucet", text);
    assert !Contains(text, "withdraw") by {
      NotContainsFirstChar(text, "withdraw");
    }
    NotContainsFirstChar(text, "?");
    NotContainsFirstChar(text, "how");
    NotContainsFirstChar(text, "what");
    NotContainsFirstChar(text, "where");
    NoQuestionNoReply(DefaultKnowledgeBase, text);
  }
}
