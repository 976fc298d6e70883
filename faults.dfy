/** Failure injection for sequences of external commands.

    Every external command (a subprocess, a collaborator call, a file
    operation) is numbered by its position in the trace of everything the
    program has attempted so far. The command at position k fails exactly when
    k is in the set `failing`, which stands for the environment. A failing
    command raises, so the commands after it in the same straight-line
    sequence are never attempted. */
module Faults {

  /** The number of commands of `cmds` that run and succeed, the first of
      them at trace position `at`, before the first failure. */
  function Succeeded<C>(cmds: seq<C>, failing: set<nat>, at: nat): (n: nat)
    ensures n <= |cmds|
    ensures forall i :: at <= i < at + n ==> i !in failing
    ensures n < |cmds| ==> at + n in failing
    decreases |cmds|
  {
    if cmds == [] || at in failing then 0 else 1 + Succeeded(cmds[1..], failing, at + 1)
  }

  /** Every command of `cmds` succeeds. */
  predicate AllOk<C>(cmds: seq<C>, failing: set<nat>, at: nat)
  {
    Succeeded(cmds, failing, at) == |cmds|
  }

  /** The commands that are attempted: those that succeed, followed by the
      failing one if there is one. */
  function Attempted<C>(cmds: seq<C>, failing: set<nat>, at: nat): (r: seq<C>)
    ensures r <= cmds
    ensures AllOk(cmds, failing, at) <==> r == cmds && forall i :: at <= i < at + |cmds| ==> i !in failing
    ensures !AllOk(cmds, failing, at) ==>
      0 < |r| && at + |r| - 1 in failing && forall i :: at <= i < at + |r| - 1 ==> i !in failing
  {
    var n := Succeeded(cmds, failing, at);
    if n < |cmds| then cmds[..n + 1] else cmds
  }

  /** Running `a + b` is running `a` and, only when all of `a` succeeded,
      running `b` right after it. */
  lemma {:induction false} SucceededAppend<C>(a: seq<C>, b: seq<C>, failing: set<nat>, at: nat)
    ensures Succeeded(a + b, failing, at)
         == if AllOk(a, failing, at) then |a| + Succeeded(b, failing, at + |a|)
            else Succeeded(a, failing, at)
    decreases |a|
  {
    if a != [] && at !in failing {
      assert (a + b)[1..] == a[1..] + b;
      SucceededAppend(a[1..], b, failing, at + 1);
    }
  }

  lemma AttemptedAppend<C>(a: seq<C>, b: seq<C>, failing: set<nat>, at: nat)
    ensures Attempted(a + b, failing, at)
         == if AllOk(a, failing, at) then a + Attempted(b, failing, at + |a|)
            else Attempted(a, failing, at)
  {
    SucceededAppend(a, b, failing, at);
    var n := Succeeded(a, failing, at);
    if AllOk(a, failing, at) {
      var m := Succeeded(b, failing, at + |a|);
      if m < |b| {
        assert (a + b)[..|a| + m + 1] == a + b[..m + 1];
      }
    } else {
      assert (a + b)[..n + 1] == a[..n + 1];
    }
  }

  lemma AllOkAppend<C>(a: seq<C>, b: seq<C>, failing: set<nat>, at: nat)
    ensures AllOk(a + b, failing, at) <==> AllOk(a, failing, at) && AllOk(b, failing, at + |a|)
  {
    SucceededAppend(a, b, failing, at);
  }

  /** The commands that ran and succeeded: the longest prefix free of
      failures. */
  function Done<C>(cmds: seq<C>, failing: set<nat>, at: nat): seq<C>
  {
    cmds[..Succeeded(cmds, failing, at)]
  }

  /** Where the first failure of a sequence is at index `i`, the commands
      attempted are exactly those up to and including it. */
  lemma FirstFailureAt<C>(cmds: seq<C>, i: nat, failing: set<nat>, at: nat)
    requires i < |cmds| && (forall j :: at <= j < at + i ==> j !in failing) && at + i in failing
    ensures Attempted(cmds, failing, at) == cmds[..i + 1] && !AllOk(cmds, failing, at)
  {
    var n := Succeeded(cmds, failing, at);
    assert at + n < at + i ==> at + n !in failing;
  }

  /** A single command either succeeds or fails; it is attempted either
      way. */
  lemma RunOne<C>(c: C, failing: set<nat>, at: nat)
    ensures Succeeded([c], failing, at) == if at in failing then 0 else 1
    ensures Attempted([c], failing, at) == [c]
  {
    assert [c][1..] == [];
  }

  lemma DoneAppend<C>(a: seq<C>, b: seq<C>, failing: set<nat>, at: nat)
    ensures Done(a + b, failing, at)
         == if AllOk(a, failing, at) then a + Done(b, failing, at + |a|) else Done(a, failing, at)
  {
    SucceededAppend(a, b, failing, at);
    if AllOk(a, failing, at) {
      var m := Succeeded(b, failing, at + |a|);
      assert (a + b)[..|a| + m] == a + b[..m];
    } else {
      var n := Succeeded(a, failing, at);
      assert (a + b)[..n] == a[..n];
    }
  }

  /** Proof helper: concatenation is associative; stated once so that proofs
      can name the regrouping they need. */
  lemma Assoc<T>(a: seq<T>, b: seq<T>, c: seq<T>)
    ensures (a + b) + c == a + (b + c)
  {
  }
}
