/** transaction.go: the in-process transaction. A command that fails has no
    effect here; the tape says which commands fail. */
module Transactions {

  datatype Op = Op(add: bool, index: nat, succeeded: bool)

  /** The controller's two fields and the commands it has run so far. */
  datatype Tx = Tx(steps: nat, done: nat, stopping: bool, history: seq<Op>)

  type Tape = nat -> bool

  /** Running one command: its fate is the tape's next entry. */
  function Run(tape: Tape, t: Tx, add: bool, index: nat): (Tx, bool) {
    var ok := tape(|t.history|);
    (t.(history := t.history + [Op(add, index, ok)]), ok)
  }

  function TeardownLoop(tape: Tape, t: Tx): (Tx, bool)
    decreases t.done
  {
    if t.done == 0 then (t.(stopping := false), true)
    else
      var (ran, ok) := Run(tape, t, false, t.done - 1);
      if ok then TeardownLoop(tape, ran.(done := t.done - 1)) else (ran, false)
  }

  function Teardown(tape: Tape, t: Tx): (Tx, bool) {
    TeardownLoop(tape, t.(stopping := true))
  }

  function AddLoop(tape: Tape, t: Tx, failAfter: nat): (Tx, bool)
    decreases t.steps - t.done
  {
    if t.done >= t.steps then (t, true)
    else
      var (ran, ok) := Run(tape, t, true, t.done);
      if !ok then (Teardown(tape, ran).0, false)
      else
        var next := ran.(done := t.done + 1);
        if failAfter == next.done then (Teardown(tape, next).0, false) else AddLoop(tape, next, failAfter)
  }

  /** `setup(failAfter)`; 0 injects no failure. */
  function Setup(tape: Tape, t: Tx, failAfter: nat): (Tx, bool) {
    if t.done == t.steps && !t.stopping then (t, true)
    else if t.done != 0 then (t, false)
    else AddLoop(tape, t, failAfter)
  }

  /** The object, with its loops. */
  class Transaction {
    const steps: nat
    const tape: Tape
    var done: nat
    var stopping: bool
    ghost var history: seq<Op>
    var clock: nat

    ghost predicate Valid()
      reads this
    {
      clock == |history|
    }

    ghost function Now(): Tx
      reads this
    {
      Tx(steps, done, stopping, history)
    }

    constructor (steps: nat, tape: Tape)
      ensures Valid() && Now() == Tx(steps, 0, false, []) && this.tape == tape
    {
      this.steps, this.tape, done, stopping, history, clock := steps, tape, 0, false, [], 0;
    }

    method Command(add: bool, index: nat) returns (ok: bool)
      requires Valid()
      modifies this`history, this`clock
      ensures Valid() && (Now(), ok) == Run(tape, old(Now()), add, index)
    {
      ok := tape(clock);
      history := history + [Op(add, index, ok)];
      clock := clock + 1;
    }

    method TeardownAll() returns (ok: bool)
      requires Valid()
      modifies this`done, this`stopping, this`history, this`clock
      ensures Valid() && (Now(), ok) == Teardown(tape, old(Now()))
    {
      stopping := true;
      while done > 0
        invariant Valid() && stopping
        invariant Teardown(tape, old(Now())) == TeardownLoop(tape, Now())
        decreases done
      {
        var removed := Command(false, done - 1);
        if !removed { return false; }
        done := done - 1;
      }
      stopping := false;
      ok := true;
    }

    method SetupAll(failAfter: nat) returns (ok: bool)
      requires Valid()
      modifies this`done, this`stopping, this`history, this`clock
      ensures Valid() && (Now(), ok) == Setup(tape, old(Now()), failAfter)
    {
      if done == steps && !stopping { return true; }
      if done != 0 { return false; }
      var i := 0;
      while i < steps
        invariant Valid() && 0 <= i <= steps && done == i
        invariant Setup(tape, old(Now()), failAfter) == AddLoop(tape, Now(), failAfter)
      {
        var added := Command(true, i);
        if !added {
          var _ := TeardownAll();
          return false;
        }
        done := done + 1;
        if failAfter == i + 1 {
          var _ := TeardownAll();
          return false;
        }
        i := i + 1;
      }
      ok := true;
    }
  }

  // ---- stack discipline ----

  /** The resources a history leaves behind, when every successful command is
      legal: an add goes on top of exactly the earlier steps, a removal takes the
      top one. None if some command was not legal. */
  datatype Stack = Broken | Live(height: nat)

  function Replay(history: seq<Op>): Stack {
    if history == [] then Live(0)
    else
      var op := history[|history| - 1];
      match Replay(history[..|history| - 1])
      case Broken => Broken
      case Live(height) =>
        if !op.succeeded then Live(height)
        else if op.add then (if op.index == height then Live(height + 1) else Broken)
        else if op.index + 1 == height then Live(height - 1)
        else Broken
  }

  /** Live resources are exactly the first `done` steps. */
  predicate Ordered(t: Tx) {
    t.done <= t.steps && Replay(t.history) == Live(t.done) && (t.stopping ==> t.done > 0)
  }

  lemma RunOrdered(tape: Tape, t: Tx, add: bool, index: nat)
    requires Replay(t.history) == Live(t.done)
    requires if add then index == t.done else index + 1 == t.done
    ensures var (ran, ok) := Run(tape, t, add, index);
      Replay(ran.history) == Live(if !ok then t.done else if add then t.done + 1 else t.done - 1)
  {
    var (ran, ok) := Run(tape, t, add, index);
    assert ran.history[..|t.history|] == t.history;
  }

  lemma {:induction false} TeardownLoopOrdered(tape: Tape, t: Tx)
    requires t.done <= t.steps && Replay(t.history) == Live(t.done) && t.stopping
    ensures var (after, ok) := TeardownLoop(tape, t);
      && Ordered(after) && after.steps == t.steps
      && (ok <==> after.done == 0) && (ok <==> !after.stopping)
    decreases t.done
  {
    if t.done > 0 {
      var (ran, ok) := Run(tape, t, false, t.done - 1);
      RunOrdered(tape, t, false, t.done - 1);
      if ok { TeardownLoopOrdered(tape, ran.(done := t.done - 1)); }
    }
  }

  lemma {:induction false} AddLoopOrdered(tape: Tape, t: Tx, failAfter: nat)
    requires Ordered(t) && !t.stopping
    ensures var (after, ok) := AddLoop(tape, t, failAfter);
      && Ordered(after) && after.steps == t.steps
      && (ok ==> after.done == after.steps && !after.stopping)
      && (!ok ==> after.stopping || after.done == 0)
    decreases t.steps - t.done
  {
    if t.done < t.steps {
      var (ran, ok) := Run(tape, t, true, t.done);
      RunOrdered(tape, t, true, t.done);
      if !ok {
        TeardownLoopOrdered(tape, ran.(stopping := true));
      } else {
        var next := ran.(done := t.done + 1);
        if failAfter == next.done {
          TeardownLoopOrdered(tape, next.(stopping := true));
        } else {
          AddLoopOrdered(tape, next, failAfter);
        }
      }
    }
  }

  datatype Call = SetupCall(failAfter: nat) | TeardownCall

  function Apply(tape: Tape, t: Tx, call: Call): (Tx, bool) {
    match call
    case SetupCall(failAfter) => Setup(tape, t, failAfter)
    case TeardownCall => Teardown(tape, t)
  }

  function Play(tape: Tape, t: Tx, calls: seq<Call>): Tx
    decreases |calls|
  {
    if calls == [] then t else Play(tape, Apply(tape, t, calls[0]).0, calls[1..])
  }

  lemma CallOrdered(tape: Tape, t: Tx, call: Call)
    requires Ordered(t)
    ensures var (after, ok) := Apply(tape, t, call);
      && Ordered(after) && after.steps == t.steps
      && (ok && call.SetupCall? ==> after.done == after.steps && !after.stopping)
      && (ok && call.TeardownCall? ==> after.done == 0 && !after.stopping)
      && (!ok && call.TeardownCall? ==> after.stopping)
  {
    match call
    case SetupCall(failAfter) => if t.done == 0 { AddLoopOrdered(tape, t, failAfter); }
    case TeardownCall => TeardownLoopOrdered(tape, t.(stopping := true));
  }

  /** Over any sequence of calls and any failures: adds and removals obey a stack
      discipline and the live resources are exactly the first `done` steps, so the
      last step is never present without all the ones it depends on. */
  lemma {:induction false} EveryRunOrdered(tape: Tape, t: Tx, calls: seq<Call>)
    requires Ordered(t)
    ensures Ordered(Play(tape, t, calls))
    decreases |calls|
  {
    if calls != [] {
      CallOrdered(tape, t, calls[0]);
      EveryRunOrdered(tape, Apply(tape, t, calls[0]).0, calls[1..]);
    }
  }

  predicate OnlySetups(calls: seq<Call>) {
    forall k :: 0 <= k < |calls| ==> calls[k].SetupCall?
  }

  /** After a failed removal no number of Setup calls runs any command; only a
      completed Teardown lets Setup act again. */
  lemma {:induction false} StoppingBlocksSetup(tape: Tape, t: Tx, calls: seq<Call>)
    requires Ordered(t) && t.stopping && OnlySetups(calls)
    ensures Play(tape, t, calls) == t
    decreases |calls|
  {
    if calls != [] {
      assert calls[0].SetupCall?;
      assert Apply(tape, t, calls[0]) == (t, false);
      StoppingBlocksSetup(tape, t, calls[1..]);
    }
  }

  // ---- when commands succeed ----

  /** The commands from `from` on succeed. */
  ghost predicate Obeyed(tape: Tape, from: nat) {
    forall n: nat :: n >= from ==> tape(n)
  }

  function Adding(i: nat, steps: nat): (r: seq<Op>)
    requires i <= steps
    ensures |r| == steps - i && forall k :: 0 <= k < |r| ==> r[k] == Op(true, i + k, true)
    decreases steps - i
  {
    if i == steps then [] else [Op(true, i, true)] + Adding(i + 1, steps)
  }

  /** The removals of the first n steps, last one first. */
  function Removing(n: nat): (r: seq<Op>)
    ensures |r| == n && forall k :: 0 <= k < n ==> r[k] == Op(false, n - 1 - k, true)
  {
    if n == 0 then [] else [Op(false, n - 1, true)] + Removing(n - 1)
  }

  /** With commands that succeed, teardown empties any state, in reverse order. */
  lemma {:induction false} TeardownCompletes(tape: Tape, t: Tx)
    requires Obeyed(tape, |t.history|)
    ensures TeardownLoop(tape, t) == (t.(done := 0, stopping := false, history := t.history + Removing(t.done)), true)
    decreases t.done
  {
    if t.done > 0 {
      var op := Op(false, t.done - 1, true);
      TeardownCompletes(tape, t.(done := t.done - 1, history := t.history + [op]));
      assert t.history + [op] + Removing(t.done - 1) == t.history + ([op] + Removing(t.done - 1));
    } else {
      assert t.history + [] == t.history;
    }
  }

  lemma {:induction false} AddLoopCompletes(tape: Tape, t: Tx)
    requires Obeyed(tape, |t.history|) && t.done <= t.steps
    ensures AddLoop(tape, t, 0) == (t.(done := t.steps, history := t.history + Adding(t.done, t.steps)), true)
    decreases t.steps - t.done
  {
    if t.done < t.steps {
      var op := Op(true, t.done, true);
      var next := t.(done := t.done + 1, history := t.history + [op]);
      AddLoopCompletes(tape, next);
      assert t.history + [op] + Adding(t.done + 1, t.steps) == t.history + ([op] + Adding(t.done + 1, t.steps));
    } else {
      assert t.history + [] == t.history;
    }
  }

  /** Nothing set up and every command obeyed: all steps are added, in order. */
  lemma SetupCompletes(tape: Tape, t: Tx)
    requires Obeyed(tape, |t.history|) && t.done == 0
    ensures var (after, ok) := Setup(tape, t, 0);
      ok && after.done == t.steps && after.history == t.history + (if t.steps == 0 && !t.stopping then [] else Adding(0, t.steps))
  {
    AddLoopCompletes(tape, t);
  }

  /** All commands from `from` on succeed but the one at `bad`. */
  ghost predicate ObeyedBut(tape: Tape, from: nat, bad: nat) {
    from <= bad && !tape(bad) && forall n: nat :: n >= from && n != bad ==> tape(n)
  }

  lemma {:induction false} AddLoopUndone(tape: Tape, t: Tx, k: nat)
    requires t.done <= k < t.steps && ObeyedBut(tape, |t.history|, |t.history| + (k - t.done))
    ensures AddLoop(tape, t, 0) ==
      (t.(done := 0, stopping := false, history := t.history + Adding(t.done, k) + [Op(true, k, false)] + Removing(k)), false)
    decreases k - t.done
  {
    if t.done < k {
      var op := Op(true, t.done, true);
      AddLoopUndone(tape, t.(done := t.done + 1, history := t.history + [op]), k);
      assert t.history + [op] + Adding(t.done + 1, k) == t.history + Adding(t.done, k);
    } else {
      var ran := t.(history := t.history + [Op(true, k, false)]);
      TeardownCompletes(tape, ran.(stopping := true));
      assert t.history + [] + [Op(true, k, false)] == ran.history;
    }
  }

  /** When the command of step k fails, exactly the steps before it are removed
      again, last one first, and nothing is left. */
  lemma FailedSetupUndone(tape: Tape, t: Tx, k: nat)
    requires t.done == 0 && k < t.steps && ObeyedBut(tape, |t.history|, |t.history| + k)
    ensures Setup(tape, t, 0) ==
      (t.(stopping := false, history := t.history + Adding(0, k) + [Op(true, k, false)] + Removing(k)), false)
  {
    AddLoopUndone(tape, t, k);
  }

  lemma {:induction false} AddLoopFills(tape: Tape, t: Tx, failAfter: nat)
    requires t.done <= t.steps
    ensures var (after, ok) := AddLoop(tape, t, failAfter);
      ok ==> after.done == t.steps == after.steps && after.stopping == t.stopping
    decreases t.steps - t.done
  {
    if t.done < t.steps {
      var (ran, ok) := Run(tape, t, true, t.done);
      if ok { AddLoopFills(tape, ran.(done := t.done + 1), failAfter); }
    }
  }

  /** A Setup after a successful one succeeds and runs nothing. */
  lemma SetupTwice(tape: Tape, t: Tx, first: nat, second: nat)
    requires Ordered(t) && Setup(tape, t, first).1
    ensures Setup(tape, Setup(tape, t, first).0, second) == (Setup(tape, t, first).0, true)
  {
    if t.done == 0 { AddLoopFills(tape, t, first); }
  }
}
