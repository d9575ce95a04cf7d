/** The delay discipline of the rate-limited call wrapper (dataloader.py, wrap_call).
    Delays are whole time units: the source multiplies by 2.0, but every delay it can
    reach is an exact doubling of the integer default. */
module Backoff {

  /** The delay in force after one wrapped call: a success restores the default, a
      failure doubles the current delay, with no cap. */
  function Next(wait: nat, dflt: nat, ok: bool): nat
  {
    if ok then dflt else 2 * wait
  }

  /** The delay in force after a history of call outcomes (true = success), starting
      from `wait`. The call numbered i of a burst therefore sleeps
      After(wait, dflt, history[..i]) before it is issued. */
  function After(wait: nat, dflt: nat, history: seq<bool>): nat
    decreases |history|
  {
    if history == [] then wait
    else Next(After(wait, dflt, history[..|history| - 1]), dflt, history[|history| - 1])
  }

  /** The delays slept before the calls of a burst with the given outcomes: call i
      sleeps the delay in force after the first i outcomes. */
  function Waits(wait: nat, dflt: nat, history: seq<bool>): seq<nat>
  {
    seq(|history|, i requires 0 <= i < |history| => After(wait, dflt, history[..i]))
  }

  function Pow2(k: nat): nat
  {
    if k == 0 then 1 else 2 * Pow2(k - 1)
  }

  /** The number of failures since the last success (or since the start). */
  function Streak(history: seq<bool>): nat
    decreases |history|
  {
    if history == [] || history[|history| - 1] then 0
    else 1 + Streak(history[..|history| - 1])
  }

  /** Closed form of the delay: the default once any call has succeeded (the starting
      delay before that), doubled once per failure since the last success. */
  lemma {:induction false} AfterClosedForm(wait: nat, dflt: nat, history: seq<bool>)
    ensures After(wait, dflt, history)
         == (if true in history then dflt else wait) * Pow2(Streak(history))
    decreases |history|
  {
    if history != [] && !history[|history| - 1] {
      var prefix := history[..|history| - 1];
      assert history == prefix + [false];
      assert (true in history) == (true in prefix);
      AfterClosedForm(wait, dflt, prefix);
      var base := if true in prefix then dflt else wait;
      assert 2 * (base * Pow2(Streak(prefix))) == base * (2 * Pow2(Streak(prefix)));
    }
  }

  /** A success is always followed by the default delay, whatever came before. */
  lemma SuccessResets(wait: nat, dflt: nat, history: seq<bool>)
    ensures After(wait, dflt, history + [true]) == dflt
  {
    assert (history + [true])[..|history|] == history;
  }

  /** k failures in a row, with no success before them, grow the delay to wait * 2^k:
      the growth is unbounded. */
  lemma FailuresDouble(wait: nat, dflt: nat, k: nat)
    ensures After(wait, dflt, seq(k, _ => false)) == wait * Pow2(k)
  {
    var history := seq(k, _ => false);
    AfterClosedForm(wait, dflt, history);
    StreakOfFailures(k);
  }

  lemma {:induction false} StreakOfFailures(k: nat)
    ensures true !in seq(k, _ => false) && Streak(seq(k, _ => false)) == k
  {
    if k > 0 {
      assert seq(k, _ => false)[..k - 1] == seq(k - 1, _ => false);
      StreakOfFailures(k - 1);
    }
  }

  /** The delay after two bursts is the delay after the second, started from the delay
      the first left. */
  lemma {:induction false} AfterAppend(wait: nat, dflt: nat, h1: seq<bool>, h2: seq<bool>)
    ensures After(wait, dflt, h1 + h2) == After(After(wait, dflt, h1), dflt, h2)
    decreases |h2|
  {
    if h2 == [] {
      assert h1 + h2 == h1;
    } else {
      var p := h2[..|h2| - 1];
      assert (h1 + h2)[..|h1 + h2| - 1] == h1 + p;
      AfterAppend(wait, dflt, h1, p);
    }
  }

  /** The sleeps of two bursts are those of the first, then those of the second started
      from the delay the first left. */
  lemma WaitsAppend(wait: nat, dflt: nat, h1: seq<bool>, h2: seq<bool>)
    ensures Waits(wait, dflt, h1 + h2)
         == Waits(wait, dflt, h1) + Waits(After(wait, dflt, h1), dflt, h2)
  {
    var l := Waits(wait, dflt, h1 + h2);
    var r := Waits(wait, dflt, h1) + Waits(After(wait, dflt, h1), dflt, h2);
    forall i | 0 <= i < |h1 + h2|
      ensures l[i] == r[i]
    {
      if i < |h1| {
        assert (h1 + h2)[..i] == h1[..i];
      } else {
        assert (h1 + h2)[..i] == h1 + h2[..i - |h1|];
        AfterAppend(wait, dflt, h1, h2[..i - |h1|]);
      }
    }
  }

  /** A single call sleeps the current delay and leaves the delay the rule gives. */
  lemma OneCall(wait: nat, dflt: nat, ok: bool)
    ensures After(wait, dflt, [ok]) == Next(wait, dflt, ok)
    ensures Waits(wait, dflt, [ok]) == [wait]
  {
    assert [ok][..0] == [];
  }

  /** Outcomes [fail, fail, success] from the default d sleep d, 2d and 4d before the
      three calls, and the call after them sleeps d again. */
  lemma BackoffExample(d: nat)
    ensures Waits(d, d, [false, false, true]) == [d, 2 * d, 4 * d]
    ensures After(d, d, []) == d
    ensures After(d, d, [false]) == 2 * d
    ensures After(d, d, [false, false]) == 4 * d
    ensures After(d, d, [false, false, true]) == d
  {
    assert [false, false][..1] == [false];
    assert [false, false, true][..2] == [false, false];
    assert [false, false, true][..1] == [false];
    assert [false, false, true][..0] == [];
    var w := Waits(d, d, [false, false, true]);
    assert w[0] == d && w[1] == 2 * d && w[2] == 4 * d;
  }
}
