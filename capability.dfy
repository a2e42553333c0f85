/**
 * The two-method command capability the interaction layer is written against
 * (`BrowserInterface` in pkg/page/page.go), as a recording double: it records
 * every command sent, answers the i-th command with the scripted reply
 * `replies(i)`, and records every sleep, so that the wall clock is the sum of
 * the sleeps taken so far.
 */
module Capability {
  import opened Basics
  import opened Json

  /** One command as handed to the capability; `awaits` tells which of the two methods carried it. */
  datatype Call = Call(awaits: bool, name: string, params: Value)

  /** What the other side answers: the decoded response envelope, or a send error. */
  datatype Reply = Answer(response: map<string, Value>) | Refusal(reason: string)

  /** The error a `SendCommandWithoutResponse` reports for a reply. */
  function ErrorOf(r: Reply): Option<string>
  {
    match r
    case Answer(_) => None
    case Refusal(m) => Some(m)
  }

  /** Go's `time.Sleep` with a non-positive duration returns at once. */
  function Nap(ms: int): nat
  {
    if ms < 0 then 0 else ms
  }

  class Recorder {
    const replies: nat -> Reply
    var sent: seq<Call>
    var naps: seq<nat>

    constructor (replies: nat -> Reply)
      ensures this.replies == replies && sent == [] && naps == []
    {
      this.replies := replies;
      sent := [];
      naps := [];
    }

    /** Milliseconds elapsed since the double was created. */
    function Now(): nat
      reads this
    {
      Total(naps)
    }

    method SendCommandWithoutResponse(name: string, params: Value) returns (err: Option<string>)
      modifies this
      ensures sent == old(sent) + [Call(false, name, params)] && naps == old(naps)
      ensures err == ErrorOf(replies(|old(sent)|))
    {
      err := ErrorOf(replies(|sent|));
      sent := sent + [Call(false, name, params)];
    }

    method SendCommandWithResponse(name: string, params: Value) returns (reply: Reply)
      modifies this
      ensures sent == old(sent) + [Call(true, name, params)] && naps == old(naps)
      ensures reply == replies(|old(sent)|)
    {
      reply := replies(|sent|);
      sent := sent + [Call(true, name, params)];
    }

    method Sleep(ms: int)
      modifies this
      ensures naps == old(naps) + [Nap(ms)] && sent == old(sent)
    {
      naps := naps + [Nap(ms)];
    }
  }

  /** How a straight run of `n` sends went when the caller returns at the first send error. */
  datatype Run = Run(sent: nat, refusal: Option<string>)

  /**
   * The run of `n` commands sent one after another, answered by
   * `replies(base)`, `replies(base + 1)`, ..., where the sender stops at the
   * first refused one: which prefix went out, and the error it stopped at.
   */
  function Chain(replies: nat -> Reply, base: nat, n: nat): (run: Run)
    ensures run.sent <= n
    ensures run.refusal.None? ==> run.sent == n
    ensures run.refusal.Some? ==> 1 <= run.sent
    decreases n
  {
    if n == 0 then Run(0, None)
    else match replies(base)
      case Refusal(m) => Run(1, Some(m))
      case Answer(_) =>
        var rest := Chain(replies, base + 1, n - 1);
        Run(rest.sent + 1, rest.refusal)
  }

  /**
   * What a run means: every reply before the last one sent was an answer,
   * and the run stopped early exactly at a refusal, whose reason it reports.
   */
  lemma {:induction false} ChainMeaning(replies: nat -> Reply, base: nat, n: nat)
    ensures var run := Chain(replies, base, n);
      && (run.refusal.None? ==> forall k | base <= k < base + n :: replies(k).Answer?)
      && (run.refusal.Some? ==> replies(base + run.sent - 1) == Refusal(run.refusal.value))
      && forall k | base <= k < base + run.sent - 1 :: replies(k).Answer?
    decreases n
  {
    if n > 0 && replies(base).Answer? {
      ChainMeaning(replies, base + 1, n - 1);
    }
  }

  /** A run whose first `i` replies were answers and whose next one is refused stops right there. */
  lemma {:induction false} ChainStops(replies: nat -> Reply, base: nat, n: nat, i: nat)
    requires i < n
    requires forall k | base <= k < base + i :: replies(k).Answer?
    requires replies(base + i).Refusal?
    ensures Chain(replies, base, n) == Run(i + 1, Some(replies(base + i).reason))
    decreases i
  {
    if i > 0 {
      assert replies(base).Answer?;
      ChainStops(replies, base + 1, n - 1, i - 1);
    }
  }

  /** A run whose replies are all answers sends everything. */
  lemma {:induction false} ChainCompletes(replies: nat -> Reply, base: nat, n: nat)
    requires forall k | base <= k < base + n :: replies(k).Answer?
    ensures Chain(replies, base, n) == Run(n, None)
    decreases n
  {
    if n > 0 {
      assert replies(base).Answer?;
      ChainCompletes(replies, base + 1, n - 1);
    }
  }
}
