/** The per-user warning counter behind `warn_user_internal`, as a function
    on values: a warning increments the sender's count; the third one bans
    the sender and removes the entry. Counts are keyed by user id only, so a
    user's warnings carry over between the groups the bot moderates. */
module WarningLedger {

  const BanThreshold := 3

  /** The ledger after the warning, the sender's count including it, and
      whether it led to a ban. */
  datatype WarnOutcome = WarnOutcome(ledger: map<int, int>, count: int, banned: bool)

  function CountOf(ledger: map<int, int>, user: int): int {
    if user in ledger then ledger[user] else 0
  }

  /** One warning for `user`: the count starts at 0 when absent and goes up
      by exactly one; at 3 or more the user is banned and the entry removed,
      otherwise the new count is stored. No other user's entry changes. */
  function Warn(ledger: map<int, int>, user: int): (r: WarnOutcome)
    ensures r.count == CountOf(ledger, user) + 1
    ensures r.banned <==> r.count >= BanThreshold
    ensures r.banned ==> user !in r.ledger
    ensures !r.banned ==> user in r.ledger && r.ledger[user] == r.count
    ensures forall u :: u != user ==> (u in r.ledger <==> u in ledger)
    ensures forall u :: u != user && u in ledger ==> r.ledger[u] == ledger[u]
  {
    var count := CountOf(ledger, user) + 1;
    if count >= BanThreshold then WarnOutcome(ledger - {user}, count, true)
    else WarnOutcome(ledger[user := count], count, false)
  }

  /** Every stored count is a warning that has not yet led to a ban. */
  ghost predicate Bounded(ledger: map<int, int>) {
    forall u :: u in ledger ==> 1 <= ledger[u] < BanThreshold
  }

  /** Warnings keep the ledger bounded, and from a bounded ledger a warning
      bans exactly when the user already had two. */
  lemma WarnKeepsBounded(ledger: map<int, int>, user: int)
    requires Bounded(ledger)
    ensures Bounded(Warn(ledger, user).ledger)
    ensures Warn(ledger, user).banned <==> CountOf(ledger, user) == BanThreshold - 1
  {
  }

  /** Starting from no warnings, the first two warnings are recorded with
      counts 1 and 2 and the third bans with count 3, after which the user
      has no entry. */
  lemma ThirdWarningBans(ledger: map<int, int>, user: int)
    requires user !in ledger
    ensures var w1 := Warn(ledger, user);
            var w2 := Warn(w1.ledger, user);
            var w3 := Warn(w2.ledger, user);
            && !w1.banned && w1.count == 1
            && !w2.banned && w2.count == 2
            && w3.banned && w3.count == 3
            && user !in w3.ledger
            && w3.ledger == ledger
  {
    var w1 := Warn(ledger, user);
    var w2 := Warn(w1.ledger, user);
    var w3 := Warn(w2.ledger, user);
    assert w3.ledger == ledger;
  }
}
