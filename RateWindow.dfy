/** The per-user message window behind `check_spam`, as functions on values.
    Timestamps are whole seconds supplied by the caller. Each call drops the
    stored timestamps that are no longer within the last minute, appends the
    current time, and the sender is spamming when the window then holds more
    messages than the configured limit. */
module RateWindow {

  const SecondsPerDay := 86400
  const WindowSeconds := 60

  /** How the age of a stored timestamp is measured. The bot reads the
      `seconds` attribute of the `timedelta` `now - ts`, which is the age
      reduced modulo one day (Python normalises a `timedelta` to days plus
      0 <= seconds < 86400); `TotalSeconds` is `total_seconds()`, the age
      itself. */
  datatype AgeMeasure = SecondsAttribute | TotalSeconds

  function Age(m: AgeMeasure, now: int, ts: int): int {
    match m
    case SecondsAttribute => (now - ts) % SecondsPerDay
    case TotalSeconds => now - ts
  }

  /** A stored timestamp survives the clean-up when its age is under a minute. */
  predicate Kept(m: AgeMeasure, now: int, ts: int) {
    Age(m, now, ts) < WindowSeconds
  }

  /** `r` is obtained from `w` by deleting some entries, the rest kept in
      their order. */
  predicate Subsequence(r: seq<int>, w: seq<int>)
    decreases |w|
  {
    r == [] ||
    (w != [] &&
     ((r[|r| - 1] == w[|w| - 1] && Subsequence(r[..|r| - 1], w[..|w| - 1]))
      || Subsequence(r, w[..|w| - 1])))
  }

  /** The list comprehension that cleans the window: the kept timestamps, in
      their stored order (see `PruneIsFilter`). */
  function Prune(m: AgeMeasure, w: seq<int>, now: int): (r: seq<int>)
    ensures |r| <= |w|
    ensures forall x :: x in r <==> x in w && Kept(m, now, x)
  {
    if w == [] then []
    else
      var last := w[|w| - 1];
      assert w == w[..|w| - 1] + [last];
      Prune(m, w[..|w| - 1], now) + (if Kept(m, now, last) then [last] else [])
  }

  /** Cleaning keeps the stored timestamps in their order. */
  lemma {:induction false} PruneKeepsOrder(m: AgeMeasure, w: seq<int>, now: int)
    ensures Subsequence(Prune(m, w, now), w)
    decreases |w|
  {
    if w != [] {
      var last := w[|w| - 1];
      var init := w[..|w| - 1];
      PruneKeepsOrder(m, init, now);
      var p := Prune(m, init, now);
      var r := Prune(m, w, now);
      if Kept(m, now, last) {
        assert r == p + [last];
        assert r[..|r| - 1] == p;
      } else {
        assert r == p;
      }
    }
  }

  /** Cleaning keeps each kept timestamp as often as it is stored: with
      whole-second timestamps a window may hold the same time several times,
      and every copy counts towards the limit. */
  lemma {:induction false} PruneKeepsCopies(m: AgeMeasure, w: seq<int>, now: int)
    ensures forall x :: multiset(Prune(m, w, now))[x] == if Kept(m, now, x) then multiset(w)[x] else 0
    decreases |w|
  {
    if w != [] {
      var last := w[|w| - 1];
      var init := w[..|w| - 1];
      assert w == init + [last];
      PruneKeepsCopies(m, init, now);
      var p := Prune(m, init, now);
      var tail := if Kept(m, now, last) then [last] else [];
      assert Prune(m, w, now) == p + tail;
      assert multiset(Prune(m, w, now)) == multiset(p) + multiset(tail);
      assert multiset(w) == multiset(init) + multiset{last};
    }
  }

  /** The window after one message at `now`: cleaned, then `now` appended. */
  function Record(m: AgeMeasure, w: seq<int>, now: int): (r: seq<int>)
    ensures r == Prune(m, w, now) + [now]
    ensures |r| <= |w| + 1
    ensures forall i :: 0 <= i < |r| - 1 ==> r[i] in w && Kept(m, now, r[i])
  {
    var p := Prune(m, w, now);
    var r := p + [now];
    assert forall i :: 0 <= i < |r| - 1 ==> r[i] == p[i] && p[i] in p;
    r
  }

  /** The window after a sequence of messages at the given times, starting
      from window `w`. */
  function Replay(m: AgeMeasure, w: seq<int>, times: seq<int>): seq<int> {
    if times == [] then w
    else Record(m, Replay(m, w, times[..|times| - 1]), times[|times| - 1])
  }

  /** Within one day, the `seconds` attribute is the age itself. */
  lemma AgeWithinDay(now: int, ts: int)
    requires 0 <= now - ts < SecondsPerDay
    ensures Age(SecondsAttribute, now, ts) == now - ts
  {
  }

  /** On the following day, the `seconds` attribute is the age less one day. */
  lemma AgeNextDay(now: int, ts: int)
    requires SecondsPerDay <= now - ts < 2 * SecondsPerDay
    ensures Age(SecondsAttribute, now, ts) == now - ts - SecondsPerDay
  {
    var a := now - ts;
    assert a == SecondsPerDay * 1 + (a - SecondsPerDay);
  }

  /** A window with nothing stale in it survives the clean-up unchanged. */
  lemma {:induction false} PruneKeepsAll(m: AgeMeasure, w: seq<int>, now: int)
    requires forall i :: 0 <= i < |w| ==> Kept(m, now, w[i])
    ensures Prune(m, w, now) == w
    decreases |w|
  {
    if w != [] {
      PruneKeepsAll(m, w[..|w| - 1], now);
      assert w[..|w| - 1] + [w[|w| - 1]] == w;
    }
  }

  /** A window whose every timestamp is stale is emptied by the clean-up. */
  lemma PruneDropsAll(m: AgeMeasure, w: seq<int>, now: int)
    requires forall x :: x in w ==> !Kept(m, now, x)
    ensures Prune(m, w, now) == []
  {
  }

  /** Every earlier timestamp is still within the window of every later one. */
  ghost predicate MutuallyKept(m: AgeMeasure, times: seq<int>) {
    forall i, j :: 0 <= i < j < |times| ==> Kept(m, times[j], times[i])
  }

  /** If no message ever falls out of the window, the window is the whole
      history. */
  lemma {:induction false} ReplayMutuallyKept(m: AgeMeasure, times: seq<int>)
    requires MutuallyKept(m, times)
    ensures Replay(m, [], times) == times
    decreases |times|
  {
    if times != [] {
      var k := |times| - 1;
      var pre := times[..k];
      assert MutuallyKept(m, pre);
      ReplayMutuallyKept(m, pre);
      PruneKeepsAll(m, pre, times[k]);
      assert pre + [times[k]] == times;
    }
  }

  predicate Sorted(times: seq<int>) {
    forall i, j :: 0 <= i <= j < |times| ==> times[i] <= times[j]
  }

  /** Messages sent within one minute all stay in the window, under either
      way of measuring age: the window after the last of them holds all of
      them. */
  lemma BurstWithinMinute(m: AgeMeasure, times: seq<int>)
    requires Sorted(times) && times != []
    requires times[|times| - 1] - times[0] < WindowSeconds
    ensures Replay(m, [], times) == times
  {
    forall i, j | 0 <= i < j < |times| ensures Kept(m, times[j], times[i]) {
      assert times[0] <= times[i] <= times[j] <= times[|times| - 1];
      assert 0 <= times[j] - times[i] < WindowSeconds;
    }
    ReplayMutuallyKept(m, times);
  }

  /** With a limit of `limit` messages per minute, a burst of `limit + 1`
      messages within one minute is reported as spam at its last message
      (with the default limit 5: the sixth message). */
  lemma BurstOverLimitIsSpam(m: AgeMeasure, times: seq<int>, limit: nat)
    requires Sorted(times) && |times| == limit + 1
    requires times[|times| - 1] - times[0] < WindowSeconds
    ensures |Replay(m, [], times)| > limit
  {
    BurstWithinMinute(m, times);
  }

  /** Each message falls out of the window of the next one. */
  ghost predicate Spaced(m: AgeMeasure, times: seq<int>) {
    forall i :: 0 < i < |times| ==> !Kept(m, times[i], times[i - 1])
  }

  /** When every message is out of the window of the next one, the window
      never holds more than the latest message. */
  lemma {:induction false} SpacedMessagesStaySingle(m: AgeMeasure, times: seq<int>)
    requires times != [] && Spaced(m, times)
    ensures Replay(m, [], times) == [times[|times| - 1]]
    decreases |times|
  {
    var k := |times| - 1;
    if k > 0 {
      var pre := times[..k];
      assert Spaced(m, pre);
      SpacedMessagesStaySingle(m, pre);
      assert Replay(m, [], pre) == [times[k - 1]];
      assert !Kept(m, times[k], times[k - 1]);
      assert Prune(m, [times[k - 1]], times[k]) == [];
    }
  }

  /** As the bot measures age, messages at least a minute but less than a day
      apart never accumulate. */
  lemma SpacedWithinDayStaySingle(times: seq<int>)
    requires times != []
    requires forall i :: 0 < i < |times| ==> WindowSeconds <= times[i] - times[i - 1] < SecondsPerDay
    ensures Replay(SecondsAttribute, [], times) == [times[|times| - 1]]
  {
    forall i | 0 < i < |times| ensures !Kept(SecondsAttribute, times[i], times[i - 1]) {
      AgeWithinDay(times[i], times[i - 1]);
    }
    SpacedMessagesStaySingle(SecondsAttribute, times);
  }

  /** Measured by `total_seconds()`, a timestamp older than a minute never
      counts: messages sent at least a minute apart never reach any limit of
      one message or more, however many are sent. */
  lemma SpacedMessagesNeverSpam(times: seq<int>, limit: int)
    requires times != [] && limit >= 1
    requires forall i :: 0 < i < |times| ==> times[i] - times[i - 1] >= WindowSeconds
    ensures Replay(TotalSeconds, [], times) == [times[|times| - 1]]
    ensures |Replay(TotalSeconds, [], times)| <= limit
  {
    SpacedMessagesStaySingle(TotalSeconds, times);
  }

  /** As the bot measures age, five messages sent one day earlier still count:
      one message a day and four seconds after a burst of five makes a window
      of six, over the default limit of five. */
  lemma DayOldBurstIsSpam()
    ensures |Replay(SecondsAttribute, [], [0, 1, 2, 3, 4, 86404])| == 6
  {
    var times := [0, 1, 2, 3, 4, 86404];
    forall i, j | 0 <= i < j < |times| ensures Kept(SecondsAttribute, times[j], times[i]) {
      if j == 5 {
        AgeNextDay(times[j], times[i]);
      } else {
        AgeWithinDay(times[j], times[i]);
      }
    }
    ReplayMutuallyKept(SecondsAttribute, times);
  }

  /** Measured by `total_seconds()`, the same day-old burst is dropped and the
      window holds only the new message. */
  lemma DayOldBurstIsDropped()
    ensures Replay(TotalSeconds, [], [0, 1, 2, 3, 4, 86404]) == [86404]
  {
    var times := [0, 1, 2, 3, 4, 86404];
    var burst := times[..5];
    assert burst == [0, 1, 2, 3, 4];
    BurstWithinMinute(TotalSeconds, burst);
    PruneDropsAll(TotalSeconds, burst, 86404);
    assert Replay(TotalSeconds, [], times) == Prune(TotalSeconds, burst, 86404) + [86404];
  }
}
