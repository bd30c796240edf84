/**
 * The attempt protocol shared by activities, child starts and compensations,
 * given twice: as a machine over the tokens one step contributes to a history,
 * and as a grammar of whole token words. The two are proved equal.
 */
module AttemptProtocol {
  import opened Basics
  import opened Definitions
  import opened Backoff

  datatype Token =
    | Admitted(at: Time)
    | Start(at: Time, n: nat)
    | Success(at: Time, n: nat)
    | Failure(at: Time, n: nat, retryable: bool)
    | Uncertain(at: Time, n: nat)
    | Retry(at: Time, n: nat, due: Time)
    | Resolved(at: Time)

  datatype Phase =
    | Absent
    | Ready
    | Running(n: nat)
    | Succeeded(n: nat)
    | Failed(n: nat, retryable: bool)
    | Unknown(n: nat)
    | Waiting(n: nat, due: Time)
    | Settled(n: nat)

  function Advance(p: Phase, t: Token): Option<Phase> {
    match t
    case Admitted(_) => if p.Absent? then Some(Ready) else None
    case Start(at, n) =>
      if p.Ready? && n == 1 then Some(Running(1))
      else if p.Waiting? && n == p.n + 1 && at >= p.due then Some(Running(n))
      else None
    case Success(_, n) => if p == Running(n) then Some(Succeeded(n)) else None
    case Failure(_, n, retryable) => if p == Running(n) then Some(Failed(n, retryable)) else None
    case Uncertain(_, n) => if p == Running(n) then Some(Unknown(n)) else None
    case Retry(_, n, due) => if p == Failed(n, true) then Some(Waiting(n, due)) else None
    case Resolved(_) => if p.Failed? || p.Unknown? then Some(Settled(p.n)) else None
  }

  function Run(p: Phase, word: seq<Token>): Option<Phase>
    decreases |word|
  {
    if word == [] then Some(p)
    else
      match Advance(p, word[0])
      case None => None
      case Some(q) => Run(q, word[1..])
  }

  lemma {:induction false} RunSnoc(p: Phase, word: seq<Token>, t: Token)
    ensures Run(p, word + [t]) == (match Run(p, word) case None => None case Some(q) => Advance(q, t))
    decreases |word|
  {
    if word == [] {
      assert Run(p, [t]) == (match Advance(p, t) case None => None case Some(q) => Run(q, [t][1..]));
    } else {
      assert (word + [t])[1..] == word[1..] + [t];
      if Advance(p, word[0]).Some? {
        RunSnoc(Advance(p, word[0]).value, word[1..], t);
      }
    }
  }

  predicate IsOutcome(t: Token, n: nat) {
    (t.Success? || t.Failure? || t.Uncertain?) && t.n == n
  }

  /**
   * Rounds from attempt `n` on: a start no earlier than the pending due time,
   * then possibly an outcome, then possibly either one manual resolution that
   * ends the word or, after a retryable failure, a retry and the next round.
   */
  predicate Rounds(word: seq<Token>, n: nat, due: Option<Time>)
    decreases |word|
  {
    word == [] ||
    (word[0].Start? && word[0].n == n && (due.Some? ==> word[0].at >= due.value) &&
     (|word| == 1 ||
      (IsOutcome(word[1], n) &&
       (|word| == 2 ||
        (|word| == 3 && word[2].Resolved? && !word[1].Success?) ||
        (word[1].Failure? && word[1].retryable && word[2].Retry? && word[2].n == n &&
         Rounds(word[3..], n + 1, Some(word[2].due)))))))
  }

  /** Nothing, or one admission followed by rounds numbered 1, 2, 3, ... without a gap. */
  predicate Word(word: seq<Token>) {
    word == [] || (word[0].Admitted? && Rounds(word[1..], 1, None))
  }

  lemma {:induction false} RoundsAreRuns(word: seq<Token>, n: nat, due: Option<Time>)
    requires n >= 1 && (due.None? ==> n == 1)
    ensures Rounds(word, n, due) <==> Run(if due.None? then Ready else Waiting(n - 1, due.value), word).Some?
    decreases |word|
  {
    var p := if due.None? then Ready else Waiting(n - 1, due.value);
    if |word| >= 2 && Advance(p, word[0]).Some? {
      var running := Advance(p, word[0]).value;
      assert Run(p, word) == Run(running, word[1..]);
      assert word[1..][0] == word[1] && word[1..][1..] == word[2..];
      if |word| == 2 {
        assert forall q :: Run(q, word[2..]) == Some(q);
        assert Run(running, word[1..]).Some? <==> IsOutcome(word[1], n);
      } else if Advance(running, word[1]).Some? {
        var outcome := Advance(running, word[1]).value;
        assert Run(running, word[1..]) == Run(outcome, word[2..]);
        assert word[2..][0] == word[2] && word[2..][1..] == word[3..];
        if Advance(outcome, word[2]).Some? {
          var next := Advance(outcome, word[2]).value;
          assert Run(outcome, word[2..]) == Run(next, word[3..]);
          if next.Waiting? {
            RoundsAreRuns(word[3..], n + 1, Some(word[2].due));
          }
        }
      }
    }
  }

  /** The machine accepts exactly the words of the grammar. */
  lemma MachineAcceptsExactlyWords(word: seq<Token>)
    ensures Run(Absent, word).Some? <==> Word(word)
  {
    if word != [] && word[0].Admitted? {
      RoundsAreRuns(word[1..], 1, None);
    }
  }

  // --- consequences of the grammar ----------------------------------------

  /** Attempt numbers never repeat in a word, and the second start needs the first one's retryable failure. */
  lemma {:induction false} StartsIncrease(word: seq<Token>, n: nat, due: Option<Time>, a: nat, b: nat)
    requires Rounds(word, n, due) && a < b < |word| && word[a].Start? && word[b].Start?
    ensures n <= word[a].n < word[b].n
    decreases |word|
  {
    assert |word| > 3;
    if a >= 3 {
      StartsIncrease(word[3..], n + 1, Some(word[2].due), a - 3, b - 3);
    } else {
      assert a == 0 && b >= 3;
      StartAtLeast(word[3..], n + 1, Some(word[2].due), b - 3);
    }
  }

  lemma {:induction false} StartAtLeast(word: seq<Token>, n: nat, due: Option<Time>, b: nat)
    requires Rounds(word, n, due) && b < |word| && word[b].Start?
    ensures word[b].n >= n
    decreases |word|
  {
    if b >= 3 {
      StartAtLeast(word[3..], n + 1, Some(word[2].due), b - 3);
    } else {
      assert b == 0;
    }
  }

  /** Every attempt has at most one outcome. */
  lemma {:induction false} OutcomesUnique(word: seq<Token>, n: nat, due: Option<Time>, a: nat, b: nat, m: nat)
    requires Rounds(word, n, due) && a < b < |word| && IsOutcome(word[a], m)
    ensures !IsOutcome(word[b], m)
    decreases |word|
  {
    if |word| > 3 {
      if a >= 3 {
        OutcomesUnique(word[3..], n + 1, Some(word[2].due), a - 3, b - 3, m);
      } else if b >= 3 {
        assert a == 1 && m == n;
        if IsOutcome(word[b], m) {
          OutcomeAtLeast(word[3..], n + 1, Some(word[2].due), b - 3, m);
        }
      }
    }
  }

  lemma {:induction false} OutcomeAtLeast(word: seq<Token>, n: nat, due: Option<Time>, b: nat, m: nat)
    requires Rounds(word, n, due) && b < |word| && IsOutcome(word[b], m)
    ensures m >= n
    decreases |word|
  {
    if b >= 3 {
      OutcomeAtLeast(word[3..], n + 1, Some(word[2].due), b - 3, m);
    }
  }

  predicate TimesOrdered(word: seq<Token>) {
    forall a, b | 0 <= a < b < |word| :: word[a].at <= word[b].at
  }

  /** Retries carry the delay of one fixed policy, and attempts respect its bound. */
  predicate FollowsPolicy(t: Token, policy: RetryPolicy) {
    && (t.Start? ==> t.n <= policy.maxAttempts)
    && (t.Retry? ==> 1 <= t.n < policy.maxAttempts && t.due == t.at + RetryDelay(policy, t.n))
  }

  predicate AllFollowPolicy(word: seq<Token>, policy: RetryPolicy) {
    forall a | 0 <= a < |word| :: FollowsPolicy(word[a], policy)
  }

  lemma {:induction false} RoundsSpaced(word: seq<Token>, n: nat, due: Option<Time>, policy: RetryPolicy, base: Time,
                                        b: nat)
    requires 1 <= n && Rounds(word, n, due) && TimesOrdered(word) && AllFollowPolicy(word, policy)
    requires b < |word| && word[b].Start?
    requires word[0].at >= base + SumDelays(policy, 1, n)
    requires n <= policy.maxAttempts
    ensures word[b].n <= policy.maxAttempts
    ensures word[b].at >= base + SumDelays(policy, 1, word[b].n)
    decreases |word|
  {
    if b >= 3 {
      var rest := word[3..];
      assert FollowsPolicy(word[2], policy);
      assert word[0].at <= word[2].at;
      assert rest[0].at >= word[2].due;
      assert SumDelays(policy, 1, n + 1) == SumDelays(policy, 1, n) + RetryDelay(policy, n);
      assert forall a | 0 <= a < |rest| :: rest[a] == word[a + 3];
      RoundsSpaced(rest, n + 1, Some(word[2].due), policy, base, b - 3);
    } else {
      assert b == 0;
      assert FollowsPolicy(word[0], policy);
    }
  }

  /**
   * Backoff is cumulative: attempt n starts no earlier than attempt 1 plus the
   * policy's first n-1 delays.
   */
  lemma AttemptsAreSpaced(word: seq<Token>, policy: RetryPolicy, b: nat)
    requires Word(word) && TimesOrdered(word) && AllFollowPolicy(word, policy)
    requires b < |word| && word[b].Start?
    ensures 1 < |word| && word[1].Start? && word[1].n == 1
    ensures word[b].n <= policy.maxAttempts
    ensures word[b].at >= word[1].at + SumDelays(policy, 1, word[b].n)
  {
    var rounds := word[1..];
    assert rounds[b - 1] == word[b];
    assert word[1].Start?;
    assert FollowsPolicy(word[1], policy);
    assert forall a | 0 <= a < |rounds| :: rounds[a] == word[a + 1];
    RoundsSpaced(rounds, 1, None, policy, word[1].at, b - 1);
  }
}
