/** Scheduled posts: `fetch_scheduled_posts` runs every post the backend
    returns, and `execute_scheduled_post` sends one post to each of its
    target groups in turn, reports one event per target and finally marks
    the post executed. The Bot API sends are an oracle: target `i` of a post
    is delivered exactly when the oracle says so. */
module Broadcast {
  import opened Text
  import opened Wrappers
  import Responder

  /** A target group as the backend lists it: a numeric chat id or a
      string (a `@name`, or digits in a string). */
  datatype ChatRef = ChatNumber(id: int) | ChatName(name: string)

  datatype Post = Post(id: int, postType: string, content: string, imageUrl: Option<string>, targets: seq<ChatRef>)

  /** The Bot API call made for one target. */
  datatype Delivery =
    | SendPhoto(chat: ChatRef, photo: string, caption: string)
    | SendText(chat: ChatRef, text: string)

  /** The event reported for one target: `post_sent` (with the chat id
      when the target reads as an integer) or `error`. */
  datatype PostEvent =
    | PostSent(postId: int, postType: string, hasImage: bool, chatId: Option<int>)
    | PostError(postId: int, target: ChatRef)

  /** The external calls of one run, in order. */
  datatype Call = Attempt(delivery: Delivery) | Reported(event: PostEvent) | MarkExecuted(postId: int)

  /** `int(group_id) if str(group_id).lstrip('-').isdigit() else None`:
      not numeric, numeric with that value, or numeric-looking but rejected
      by `int` (more than one leading '-'), which raises. */
  datatype ChatIdParse = NotNumeric | Numeric(value: int) | Unparsable

  predicate AllDigits(s: string) {
    forall k :: 0 <= k < |s| ==> IsDigit(s[k])
  }

  /** The value of a string of decimal digits. */
  function DigitsValue(s: string): nat
    requires AllDigits(s)
  {
    if s == [] then 0
    else DigitsValue(s[..|s| - 1]) * 10 + (s[|s| - 1] as int - '0' as int)
  }

  function DigitChar(d: nat): char
    requires d < 10
  {
    ('0' as int + d) as char
  }

  /** The decimal digits of `n`, most significant first, as `str` writes them. */
  function NatDigits(n: nat): (r: string)
    ensures r != [] && AllDigits(r) && r[0] != '-'
    decreases n
  {
    if n < 10 then [DigitChar(n)] else NatDigits(n / 10) + [DigitChar(n % 10)]
  }

  /** `str(n)` for an integer. */
  function IntToString(n: int): string {
    if n < 0 then "-" + NatDigits(-n) else NatDigits(n)
  }

  /** Reading back the digits `str` wrote gives the number again. */
  lemma {:induction false} NatDigitsRoundTrip(n: nat)
    ensures DigitsValue(NatDigits(n)) == n
    decreases n
  {
    if n >= 10 {
      NatDigitsRoundTrip(n / 10);
      var s := NatDigits(n);
      assert s[..|s| - 1] == NatDigits(n / 10);
    }
  }

  /** How a target string reads as a chat id. */
  function ParseChatName(s: string): ChatIdParse {
    var t := LStrip(s, '-');
    if t == [] || !AllDigits(t) then NotNumeric
    else if |s| - |t| > 1 then Unparsable
    else if |s| == |t| then Numeric(DigitsValue(t))
    else Numeric(-(DigitsValue(t) as int))
  }

  function ChatIdOf(target: ChatRef): ChatIdParse {
    match target
    case ChatNumber(n) => Numeric(n)
    case ChatName(s) => ParseChatName(s)
  }

  /** A target given as the string form of a chat id reads as that id. */
  lemma NumericNameRoundTrip(n: int)
    ensures ChatIdOf(ChatName(IntToString(n))) == Numeric(n)
  {
    var s := IntToString(n);
    var d := NatDigits(if n < 0 then -n else n);
    NatDigitsRoundTrip(if n < 0 then -n else n);
    if n < 0 {
      assert s == "-" + d;
      assert s[1..] == d;
    }
    assert LStrip(s, '-') == d;
  }

  /** A name with two leading minus signs passes the digit test, so `int`
      raises after the post was already sent, and the target is logged as a
      failure. */
  lemma DoubleMinusSentIsLoggedAsError(post: Post)
    ensures EventFor(post, ChatName("--5"), true) == PostError(post.id, ChatName("--5"))
  {
    assert LStrip("--5", '-') == "5";
  }

  const WebsiteField := "{website}"

  /** The post text: only `{website}` is filled in. */
  function Caption(post: Post): string {
    Replace(post.content, WebsiteField, Responder.WebsiteUrl)
  }

  /** Content without a `{website}` field is sent as written, whatever other
      fields (`{email}`, `{name}`) or braces it holds. */
  lemma CaptionWithoutField(post: Post)
    requires !Contains(post.content, WebsiteField)
    ensures Caption(post) == post.content
  {
    ReplaceAbsent(post.content, WebsiteField, Responder.WebsiteUrl);
  }

  /** The first `{website}` field becomes the site URL; the text before it is
      sent as written and the text after it is filled in the same way. */
  lemma CaptionFillsField(post: Post, before: string, after: string)
    requires post.content == before + WebsiteField + after
    requires forall k :: 0 <= k < |before| ==> !OccursAt(post.content, WebsiteField, k)
    ensures Caption(post) == before + Responder.WebsiteUrl + Caption(post.(content := after))
  {
    ReplaceFirst(before, WebsiteField, after, Responder.WebsiteUrl);
  }

  /** In particular an `{email}` field is not filled in: unlike the answers
      of the knowledge base, a post is not passed through `str.format`. In
      content without `{website}`, the sent text holds an `{email}` field
      exactly when the content does. */
  lemma EmailFieldKept(post: Post)
    requires !Contains(post.content, WebsiteField)
    ensures Contains(Caption(post), "{email}") <==> Contains(post.content, "{email}")
  {
    CaptionWithoutField(post);
  }

  /** An `{email}` field before the first `{website}` is sent as written. */
  lemma EmailFieldBeforeWebsiteKept(post: Post, before: string, after: string)
    requires post.content == before + WebsiteField + after
    requires forall k :: 0 <= k < |before| ==> !OccursAt(post.content, WebsiteField, k)
    requires Contains(before, "{email}")
    ensures Contains(Caption(post), "{email}")
  {
    ReplaceKeepsPrefixText(before, WebsiteField, after, Responder.WebsiteUrl, "{email}");
  }

  /** A photo post when the image URL is truthy, a text post otherwise. */
  function DeliveryFor(post: Post, target: ChatRef): (d: Delivery)
    ensures d.chat == target
    ensures d.SendPhoto? <==> post.imageUrl.Some? && post.imageUrl.value != []
    ensures d.SendPhoto? ==> d.photo == post.imageUrl.value && d.caption == Caption(post)
    ensures d.SendText? ==> d.text == Caption(post)
  {
    if post.imageUrl.Some? && post.imageUrl.value != [] then SendPhoto(target, post.imageUrl.value, Caption(post))
    else SendText(target, Caption(post))
  }

  /** The event for one target given whether its send succeeded. */
  function EventFor(post: Post, target: ChatRef, sent: bool): (e: PostEvent)
    ensures e.postId == post.id
    ensures !sent ==> e == PostError(post.id, target)
    ensures e.PostSent? <==> sent && !ChatIdOf(target).Unparsable?
    ensures e.PostSent? ==> e.chatId == (if ChatIdOf(target).Numeric? then Some(ChatIdOf(target).value) else None)
    ensures e.PostSent? ==> e.postType == post.postType && e.hasImage == (post.imageUrl.Some? && post.imageUrl.value != [])
    ensures !e.PostSent? ==> e == PostError(post.id, target)
  {
    if !sent then PostError(post.id, target)
    else match ChatIdOf(target)
      case Unparsable => PostError(post.id, target)
      case Numeric(n) => PostSent(post.id, post.postType, post.imageUrl.Some? && post.imageUrl.value != [], Some(n))
      case NotNumeric => PostSent(post.id, post.postType, post.imageUrl.Some? && post.imageUrl.value != [], None)
  }

  /** Whether the send to target `i` succeeds, by the oracle. */
  predicate Succeeds(sendOk: seq<bool>, i: nat) {
    i < |sendOk| && sendOk[i]
  }

  /** The calls made for the first `n` targets. */
  function FanOut(post: Post, sendOk: seq<bool>, n: nat): (r: seq<Call>)
    requires n <= |post.targets|
    ensures |r| == 2 * n
  {
    if n == 0 then []
    else
      var t := post.targets[n - 1];
      FanOut(post, sendOk, n - 1)
        + [Attempt(DeliveryFor(post, t)), Reported(EventFor(post, t, Succeeds(sendOk, n - 1)))]
  }

  /** All calls of `execute_scheduled_post`: every target, then one mark. */
  function PostLog(post: Post, sendOk: seq<bool>): seq<Call> {
    FanOut(post, sendOk, |post.targets|) + [MarkExecuted(post.id)]
  }

  /** Target `i` gets exactly one delivery attempt and one event, at
      positions `2i` and `2i + 1`, whatever happened to the other targets. */
  lemma {:induction false} FanOutShape(post: Post, sendOk: seq<bool>, n: nat)
    requires n <= |post.targets|
    ensures forall i :: 0 <= i < n ==>
              FanOut(post, sendOk, n)[2 * i] == Attempt(DeliveryFor(post, post.targets[i]))
              && FanOut(post, sendOk, n)[2 * i + 1] == Reported(EventFor(post, post.targets[i], Succeeds(sendOk, i)))
    decreases n
  {
    if n > 0 {
      FanOutShape(post, sendOk, n - 1);
    }
  }

  /** The post is marked executed exactly once, as the last call, also when
      it has no targets. */
  lemma MarkedOnceAtEnd(post: Post, sendOk: seq<bool>)
    ensures var log := PostLog(post, sendOk);
            && |log| == 2 * |post.targets| + 1
            && log[|log| - 1] == MarkExecuted(post.id)
            && forall k :: 0 <= k < |log| - 1 ==> !log[k].MarkExecuted?
  {
    var n := |post.targets|;
    FanOutShape(post, sendOk, n);
    var log := PostLog(post, sendOk);
    forall k | 0 <= k < |log| - 1 ensures !log[k].MarkExecuted? {
      assert log[k] == FanOut(post, sendOk, n)[k];
      var i := k / 2;
      if k == 2 * i {
        assert FanOut(post, sendOk, n)[2 * i] == Attempt(DeliveryFor(post, post.targets[i]));
      } else {
        assert k == 2 * i + 1;
        assert FanOut(post, sendOk, n)[2 * i + 1] == Reported(EventFor(post, post.targets[i], Succeeds(sendOk, i)));
      }
    }
  }

  /** A failed send does not stop later targets: the calls for target `i`
      depend only on whether target `i` itself was delivered. */
  lemma FailureIsolated(post: Post, sendOk: seq<bool>, other: seq<bool>, i: nat)
    requires i < |post.targets|
    requires Succeeds(sendOk, i) == Succeeds(other, i)
    ensures PostLog(post, sendOk)[2 * i] == PostLog(post, other)[2 * i]
    ensures PostLog(post, sendOk)[2 * i + 1] == PostLog(post, other)[2 * i + 1]
  {
    FanOutShape(post, sendOk, |post.targets|);
    FanOutShape(post, other, |post.targets|);
  }

  /** `execute_scheduled_post`: one pass over the targets, then the mark. */
  method ExecuteScheduledPost(post: Post, sendOk: seq<bool>) returns (log: seq<Call>)
    ensures log == PostLog(post, sendOk)
  {
    log := [];
    for i := 0 to |post.targets|
      invariant log == FanOut(post, sendOk, i)
    {
      var target := post.targets[i];
      log := log + [Attempt(DeliveryFor(post, target))];
      log := log + [Reported(EventFor(post, target, Succeeds(sendOk, i)))];
    }
    log := log + [MarkExecuted(post.id)];
  }

  /** The backend answer to the scheduled-posts request. */
  datatype PostsFetch = FetchFailed | Fetched(status: int, posts: seq<Post>)

  /** The posts that are run: those of a 200 answer, none otherwise. */
  function DuePosts(fetch: PostsFetch): (r: seq<Post>)
    ensures fetch.Fetched? && fetch.status == 200 ==> r == fetch.posts
    ensures r != [] ==> fetch.Fetched? && fetch.status == 200
  {
    if fetch.Fetched? && fetch.status == 200 then fetch.posts else []
  }

  /** The send outcomes of post `k`'s targets. */
  function OutcomesOf(sendOk: seq<seq<bool>>, k: nat): seq<bool> {
    if k < |sendOk| then sendOk[k] else []
  }

  /** The calls for the first `n` posts, each run to completion in order. */
  function RunLog(posts: seq<Post>, sendOk: seq<seq<bool>>, n: nat): seq<Call>
    requires n <= |posts|
  {
    if n == 0 then [] else RunLog(posts, sendOk, n - 1) + PostLog(posts[n - 1], OutcomesOf(sendOk, n - 1))
  }

  /** Counts the mark-executed calls in a log. */
  function Marks(log: seq<Call>): nat {
    if log == [] then 0 else Marks(log[..|log| - 1]) + (if log[|log| - 1].MarkExecuted? then 1 else 0)
  }

  lemma {:induction false} MarksAppend(a: seq<Call>, b: seq<Call>)
    ensures Marks(a + b) == Marks(a) + Marks(b)
    decreases |b|
  {
    if b == [] {
      assert a + b == a;
    } else {
      assert (a + b)[..|a + b| - 1] == a + b[..|b| - 1];
      MarksAppend(a, b[..|b| - 1]);
    }
  }

  lemma {:induction false} FanOutHasNoMarks(post: Post, sendOk: seq<bool>, n: nat)
    requires n <= |post.targets|
    ensures Marks(FanOut(post, sendOk, n)) == 0
    decreases n
  {
    if n > 0 {
      var t := post.targets[n - 1];
      var pair := [Attempt(DeliveryFor(post, t)), Reported(EventFor(post, t, Succeeds(sendOk, n - 1)))];
      FanOutHasNoMarks(post, sendOk, n - 1);
      MarksAppend(FanOut(post, sendOk, n - 1), pair);
      assert pair[..|pair| - 1] == [pair[0]] && [pair[0]][..0] == [];
      assert Marks([pair[0]]) == 0;
      assert Marks(pair) == 0;
    }
  }

  /** Each run post is marked executed exactly once. */
  lemma {:induction false} OneMarkPerPost(posts: seq<Post>, sendOk: seq<seq<bool>>, n: nat)
    requires n <= |posts|
    ensures Marks(RunLog(posts, sendOk, n)) == n
    decreases n
  {
    if n > 0 {
      var post := posts[n - 1];
      var outcomes := OutcomesOf(sendOk, n - 1);
      OneMarkPerPost(posts, sendOk, n - 1);
      FanOutHasNoMarks(post, outcomes, |post.targets|);
      MarksAppend(FanOut(post, outcomes, |post.targets|), [MarkExecuted(post.id)]);
      MarksAppend(RunLog(posts, sendOk, n - 1), PostLog(post, outcomes));
      assert [MarkExecuted(post.id)][..0] == [];
    }
  }

  /** `fetch_scheduled_posts`: nothing happens unless the backend answered
      200; otherwise every post is executed in order. */
  method FetchScheduledPosts(fetch: PostsFetch, sendOk: seq<seq<bool>>) returns (log: seq<Call>)
    ensures log == RunLog(DuePosts(fetch), sendOk, |DuePosts(fetch)|)
    ensures Marks(log) == |DuePosts(fetch)|
    ensures !(fetch.Fetched? && fetch.status == 200) ==> log == []
  {
    var posts := DuePosts(fetch);
    log := [];
    for k := 0 to |posts|
      invariant log == RunLog(posts, sendOk, k)
    {
      var calls := ExecuteScheduledPost(posts[k], OutcomesOf(sendOk, k));
      log := log + calls;
    }
    OneMarkPerPost(posts, sendOk, |posts|);
  }
}
