/**
 * `Page` and `Locator` of pkg/page/page.go, written against the recording
 * command capability. Every element operation first polls for the selector:
 * it evaluates an existence check, sleeps 350 ms after an error or a `false`,
 * and gives up once more than 30 s have passed at the top of an attempt.
 */
module Interaction {
  import opened Basics
  import opened Json
  import opened Capability
  import opened Commands
  import opened Responses
  import opened Typing

  /** Poll policy, in milliseconds. */
  const Deadline: nat := 30000
  const Interval: nat := 350

  /** Number of sleeps the poll loop took: one after each unsuccessful probe. */
  function Waits(polls: nat, found: bool): nat
  {
    if found && polls > 0 then polls - 1 else polls
  }

  /**
   * What a poll loop over the replies starting at `base` leaves behind:
   * `polls` probes, none of them positive except the last one when the
   * element was found; a loop that gave up did so on the first check that
   * saw more than 30 s elapsed, so within one interval of the deadline.
   */
  ghost predicate Polled(replies: nat -> Reply, base: nat, polls: nat, found: bool)
  {
    && (found ==> 0 < polls && Found(replies(base + polls - 1)) && (polls - 1) * Interval <= Deadline)
    && (!found ==> Deadline < polls * Interval <= Deadline + Interval)
    && Missed(replies, base, Waits(polls, found))
  }

  /** None of the `n` probes from `base` on found the element. */
  ghost predicate Missed(replies: nat -> Reply, base: nat, n: nat)
  {
    forall k | base <= k < base + n :: !Found(replies(k))
  }

  lemma MissedOneMore(replies: nat -> Reply, base: nat, n: nat)
    requires Missed(replies, base, n) && !Found(replies(base + n))
    ensures Missed(replies, base, n + 1)
  {
  }

  /** A loop that found the element on its last probe, within the deadline. */
  lemma PolledOnHit(replies: nat -> Reply, base: nat, polls: nat)
    requires 0 < polls && (polls - 1) * Interval <= Deadline
    requires Missed(replies, base, polls - 1) && Found(replies(base + polls - 1))
    ensures Polled(replies, base, polls, true)
  {
  }

  /** A loop that saw the deadline pass after one interval too many. */
  lemma PolledOnGiveUp(replies: nat -> Reply, base: nat, polls: nat)
    requires Deadline < polls * Interval <= Deadline + Interval
    requires Missed(replies, base, polls)
    ensures Polled(replies, base, polls, false)
  {
  }

  /**
   * A loop that never finds its element sends 86 probes, as 85 * 350 ms is
   * within the deadline and 86 * 350 ms is past it, and sleeps 30.1 s in all.
   */
  lemma GiveUpAfterEightySixProbes(replies: nat -> Reply, base: nat, polls: nat)
    requires Polled(replies, base, polls, false)
    ensures polls == 86
    ensures Total(Repeat(Interval, Waits(polls, false))) == 30100
  {
    assert Waits(polls, false) == 86;
    TotalRepeat(Interval, 86);
    assert 86 * Interval == 30100;
  }

  /**
   * One rune of `TypeWithMistakes` within the whole run: when the run got
   * through its first `done` commands and the rune's `keys` come next, a
   * refusal among them is where the whole run stops, with one sleep per
   * successful send past the focus; otherwise the run has got through
   * `done + |keys|` commands.
   */
  lemma RuneExtends(replies: nat -> Reply, base: nat, steps: seq<Call>, done: nat, keys: seq<Call>,
                    delay: nat, sent0: seq<Call>, naps0: seq<nat>, sent: seq<Call>, naps: seq<nat>)
    requires 1 <= done && done + |keys| <= |steps| && steps[done..done + |keys|] == keys
    requires forall k | base <= k < base + done :: replies(k).Answer?
    requires var run := Chain(replies, base + done, |keys|);
      && sent == sent0 + steps[..done] + keys[..run.sent]
      && naps == naps0 + Repeat(delay, done - 1) + Repeat(delay, run.sent - (if run.refusal.Some? then 1 else 0))
    ensures var run := Chain(replies, base + done, |keys|);
      && (run.refusal.Some? ==>
            var whole := Chain(replies, base, |steps|);
            && sent == sent0 + steps[..whole.sent]
            && naps == naps0 + Repeat(delay, TypingNaps(whole))
            && whole.refusal == run.refusal)
      && (run.refusal.None? ==>
            && sent == sent0 + steps[..done + |keys|]
            && naps == naps0 + Repeat(delay, done + |keys| - 1)
            && forall k | base <= k < base + done + |keys| :: replies(k).Answer?)
  {
    var run := Chain(replies, base + done, |keys|);
    assert steps[..done + run.sent] == steps[..done] + keys[..run.sent];
    RepeatAppend(delay, done - 1, run.sent - (if run.refusal.Some? then 1 else 0));
    ChainMeaning(replies, base + done, |keys|);
    if run.refusal.Some? {
      ChainStops(replies, base, |steps|, done + run.sent - 1);
    }
  }

  /** Context strings of the errors `Goto` wraps, step by step. */
  function GotoContexts(url: string): seq<string>
  {
    ["failed to enable page domain", "failed to enable network domain", "failed to navigate to " + url]
  }

  function GotoSteps(url: string): seq<Call>
  {
    [EnablePage(), EnableNetwork(), Navigate(url)]
  }

  /** How many sleeps `TypeWithMistakes` took in a run: one after each successful send past the focus. */
  function TypingNaps(run: Run): nat
  {
    if run.refusal.None? then (if run.sent > 0 then run.sent - 1 else 0)
    else if run.sent >= 2 then run.sent - 2 else 0
  }

  /** How `TypeSequentially` ends: it returns, or `log.Fatalf` ends the process. */
  datatype Exit = Returned | Fatal(message: string)

  class Page {
    const browser: Recorder

    constructor (browser: Recorder)
      ensures this.browser == browser
    {
      this.browser := browser;
    }

    method Locator(selector: string) returns (l: Locator)
      ensures fresh(l) && l.page == this && l.selector == selector
    {
      l := new Locator(this, selector);
    }

    /** Enables the page and network domains, then navigates; stops at the first failed send. */
    method Goto(url: string) returns (err: Option<Error>)
      modifies browser
      ensures var run := Chain(browser.replies, old(|browser.sent|), 3);
        && browser.sent == old(browser.sent) + GotoSteps(url)[..run.sent]
        && browser.naps == old(browser.naps)
        && err == (if run.refusal.None? then None else Some(Wrapped(GotoContexts(url)[run.sent - 1], run.refusal.value)))
    {
      ghost var base := |browser.sent|;
      var c := EnablePage();
      var e := browser.SendCommandWithoutResponse(c.name, c.params);
      if e.Some? {
        ChainStops(browser.replies, base, 3, 0);
        return Some(Wrapped("failed to enable page domain", e.value));
      }
      c := EnableNetwork();
      e := browser.SendCommandWithoutResponse(c.name, c.params);
      if e.Some? {
        ChainStops(browser.replies, base, 3, 1);
        return Some(Wrapped("failed to enable network domain", e.value));
      }
      c := Navigate(url);
      e := browser.SendCommandWithoutResponse(c.name, c.params);
      if e.Some? {
        ChainStops(browser.replies, base, 3, 2);
        return Some(Wrapped("failed to navigate to " + url, e.value));
      }
      ChainCompletes(browser.replies, base, 3);
      assert GotoSteps(url)[..3] == GotoSteps(url);
      return None;
    }

    /** Sends one `Page.reload`. */
    method Refresh() returns (err: Option<Error>)
      modifies browser
      ensures browser.sent == old(browser.sent) + [Reload()] && browser.naps == old(browser.naps)
      ensures err == match browser.replies(old(|browser.sent|))
                     case Answer(_) => None
                     case Refusal(m) => Some(Wrapped("failed to refresh the page", m))
    {
      var c := Reload();
      var e := browser.SendCommandWithoutResponse(c.name, c.params);
      if e.Some? {
        return Some(Wrapped("failed to refresh the page", e.value));
      }
      return None;
    }

    /** Evaluates `document.documentElement.outerHTML`; the envelope is read by `HtmlValue`. */
    method GetHtml() returns (r: Result<string, Error>)
      modifies browser
      ensures browser.sent == old(browser.sent) + [OuterHtml()] && browser.naps == old(browser.naps)
      ensures r == match browser.replies(old(|browser.sent|))
                   case Refusal(m) => Err(Sent(m))
                   case Answer(response) => HtmlValue(response)
    {
      var c := OuterHtml();
      var reply := browser.SendCommandWithResponse(c.name, c.params);
      match reply
      case Refusal(m) => return Err(Sent(m));
      case Answer(response) => return HtmlValue(response);
    }

    /** Evaluates the navigation-timing script; the envelope is read by `StatusValue`. */
    method GetHttpStatus() returns (r: Result<int, Error>)
      modifies browser
      ensures browser.sent == old(browser.sent) + [StatusScript()] && browser.naps == old(browser.naps)
      ensures r == match browser.replies(old(|browser.sent|))
                   case Refusal(m) => Err(Wrapped("failed to evaluate JS for status", m))
                   case Answer(response) => StatusValue(response)
    {
      var c := StatusScript();
      var reply := browser.SendCommandWithResponse(c.name, c.params);
      match reply
      case Refusal(m) => return Err(Wrapped("failed to evaluate JS for status", m));
      case Answer(response) => return StatusValue(response);
    }
  }

  class Locator {
    const page: Page
    const selector: string

    constructor (page: Page, selector: string)
      ensures this.page == page && this.selector == selector
    {
      this.page := page;
      this.selector := selector;
    }

    /** `elementExists`: one probe, read by `ProbeOutcome`. */
    method ElementExists() returns (r: Result<bool, Error>)
      modifies page.browser
      ensures page.browser.sent == old(page.browser.sent) + [Probe(selector)] && page.browser.naps == old(page.browser.naps)
      ensures r == ProbeOutcome(page.browser.replies(old(|page.browser.sent|)))
      ensures r == Ok(true) <==> Found(page.browser.replies(old(|page.browser.sent|)))
    {
      var c := Probe(selector);
      var reply := page.browser.SendCommandWithResponse(c.name, c.params);
      r := ProbeOutcome(reply);
      ProbeOutcomeFound(reply);
    }

    /**
     * The poll loop every element operation opens with. An evaluation error
     * and a `false` are treated alike: sleep and try again.
     */
    method WaitForSelector() returns (found: bool, ghost polls: nat)
      modifies page.browser
      ensures Polled(page.browser.replies, old(|page.browser.sent|), polls, found)
      ensures page.browser.sent == old(page.browser.sent) + Repeat(Probe(selector), polls)
      ensures page.browser.naps == old(page.browser.naps) + Repeat(Interval, Waits(polls, found))
    {
      ghost var base := |page.browser.sent|;
      ghost var replies := page.browser.replies;
      var start := page.browser.Now();
      polls := 0;
      while page.browser.Now() - start <= Deadline
        invariant page.browser.Now() == start + polls * Interval
        invariant polls * Interval <= Deadline + Interval
        invariant page.browser.sent == old(page.browser.sent) + Repeat(Probe(selector), polls)
        invariant page.browser.naps == old(page.browser.naps) + Repeat(Interval, polls)
        invariant Missed(replies, base, polls)
        decreases Deadline + Interval - polls * Interval
      {
        var hit := Attempt(old(page.browser.sent), old(page.browser.naps), start, polls);
        if hit {
          PolledOnHit(replies, base, polls + 1);
          return true, polls + 1;
        }
        MissedOneMore(replies, base, polls);
        polls := polls + 1;
      }
      PolledOnGiveUp(replies, base, polls);
      return false, polls;
    }

    /**
     * One round of the poll loop, the `polls`-th after `sent0` and `naps0`:
     * a probe, and the sleep that follows unless it found the element.
     */
    method Attempt(ghost sent0: seq<Call>, ghost naps0: seq<nat>, ghost start: nat, ghost polls: nat) returns (hit: bool)
      requires page.browser.sent == sent0 + Repeat(Probe(selector), polls)
      requires page.browser.naps == naps0 + Repeat(Interval, polls)
      requires page.browser.Now() == start + polls * Interval
      modifies page.browser
      ensures page.browser.sent == sent0 + Repeat(Probe(selector), polls + 1)
      ensures hit <==> Found(page.browser.replies(|sent0| + polls))
      ensures hit ==> page.browser.naps == old(page.browser.naps)
      ensures !hit ==> page.browser.naps == naps0 + Repeat(Interval, polls + 1)
      ensures !hit ==> page.browser.Now() == start + (polls + 1) * Interval
    {
      TotalSnoc(page.browser.naps, Interval);
      var present := ElementExists();
      AppendAssoc(sent0, Repeat(Probe(selector), polls), [Probe(selector)]);
      hit := present.Ok? && present.value;
      if !hit {
        page.browser.Sleep(Interval);
        AppendAssoc(naps0, Repeat(Interval, polls), [Interval]);
      }
    }

    /** Focus, Ctrl+A, Backspace, then the whole value in one insertion; stops at the first failed send. */
    method Fill(value: string) returns (err: Option<Error>, ghost found: bool, ghost polls: nat)
      modifies page.browser
      ensures Polled(page.browser.replies, old(|page.browser.sent|), polls, found)
      ensures page.browser.naps == old(page.browser.naps) + Repeat(Interval, Waits(polls, found))
      ensures !found ==> err == Some(Timeout(selector)) && page.browser.sent == old(page.browser.sent) + Repeat(Probe(selector), polls)
      ensures found ==> var run := Chain(page.browser.replies, old(|page.browser.sent|) + polls, 4);
        && page.browser.sent == old(page.browser.sent) + Repeat(Probe(selector), polls) + FillSteps(selector, value)[..run.sent]
        && err == (if run.refusal.None? then None else Some(Sent(run.refusal.value)))
    {
      var ok;
      ok, polls := WaitForSelector();
      found := ok;
      if !ok {
        return Some(Timeout(selector)), found, polls;
      }
      err := FillFound(value);
    }

    /** The part of `Fill` after the element was found. */
    method FillFound(value: string) returns (err: Option<Error>)
      modifies page.browser
      ensures var run := Chain(page.browser.replies, old(|page.browser.sent|), 4);
        && page.browser.sent == old(page.browser.sent) + FillSteps(selector, value)[..run.sent]
        && page.browser.naps == old(page.browser.naps)
        && err == (if run.refusal.None? then None else Some(Sent(run.refusal.value)))
    {
      ghost var base := |page.browser.sent|;
      ghost var steps := FillSteps(selector, value);
      var c := Focus(selector);
      var e := page.browser.SendCommandWithoutResponse(c.name, c.params);
      if e.Some? {
        ChainStops(page.browser.replies, base, 4, 0);
        return Some(Sent(e.value));
      }
      c := SelectAll();
      e := page.browser.SendCommandWithoutResponse(c.name, c.params);
      if e.Some? {
        ChainStops(page.browser.replies, base, 4, 1);
        assert steps[..2] == [steps[0], steps[1]];
        return Some(Sent(e.value));
      }
      c := ClearKey();
      e := page.browser.SendCommandWithoutResponse(c.name, c.params);
      if e.Some? {
        ChainStops(page.browser.replies, base, 4, 2);
        assert steps[..3] == [steps[0], steps[1], steps[2]];
        return Some(Sent(e.value));
      }
      c := Insert(value);
      e := page.browser.SendCommandWithoutResponse(c.name, c.params);
      assert steps[..4] == steps;
      if e.Some? {
        ChainStops(page.browser.replies, base, 4, 3);
        return Some(Sent(e.value));
      }
      ChainCompletes(page.browser.replies, base, 4);
      return None;
    }

    /** Clicks through script evaluation, awaiting the resulting promise. */
    method Click() returns (err: Option<Error>, ghost found: bool, ghost polls: nat)
      modifies page.browser
      ensures Polled(page.browser.replies, old(|page.browser.sent|), polls, found)
      ensures page.browser.naps == old(page.browser.naps) + Repeat(Interval, Waits(polls, found))
      ensures !found ==> err == Some(Timeout(selector)) && page.browser.sent == old(page.browser.sent) + Repeat(Probe(selector), polls)
      ensures found ==>
        && page.browser.sent == old(page.browser.sent) + Repeat(Probe(selector), polls) + [ClickScript(selector)]
        && err == match page.browser.replies(old(|page.browser.sent|) + polls)
                  case Answer(_) => None
                  case Refusal(m) => Some(Wrapped("failed to click on selector " + selector, m))
    {
      var ok;
      ok, polls := WaitForSelector();
      found := ok;
      if !ok {
        return Some(Timeout(selector)), found, polls;
      }
      var c := ClickScript(selector);
      var e := page.browser.SendCommandWithoutResponse(c.name, c.params);
      if e.Some? {
        return Some(Wrapped("failed to click on selector " + selector, e.value)), found, polls;
      }
      return None, found, polls;
    }

    /**
     * Focus, then one insertion per rune with a `delayMs` sleep after each.
     * Send errors are ignored; a timeout ends the process.
     */
    method TypeSequentially(text: string, delayMs: int) returns (exit: Exit, ghost found: bool, ghost polls: nat)
      modifies page.browser
      ensures Polled(page.browser.replies, old(|page.browser.sent|), polls, found)
      ensures !found ==>
        && exit == Fatal("Timeout exceeded while waiting for selector: " + selector)
        && page.browser.sent == old(page.browser.sent) + Repeat(Probe(selector), polls)
        && page.browser.naps == old(page.browser.naps) + Repeat(Interval, polls)
      ensures found ==>
        && exit == Returned
        && page.browser.sent == old(page.browser.sent) + Repeat(Probe(selector), polls) + [Focus(selector)] + Typed(text)
        && page.browser.naps == old(page.browser.naps) + Repeat(Interval, polls - 1) + Repeat(Nap(delayMs), |text|)
    {
      var ok;
      ok, polls := WaitForSelector();
      found := ok;
      if !ok {
        return Fatal("Timeout exceeded while waiting for selector: " + selector), found, polls;
      }
      var c := Focus(selector);
      var _ := page.browser.SendCommandWithoutResponse(c.name, c.params);
      ghost var sent0 := page.browser.sent;
      ghost var naps0 := page.browser.naps;
      for i := 0 to |text|
        invariant page.browser.sent == sent0 + Typed(text[..i])
        invariant page.browser.naps == naps0 + Repeat(Nap(delayMs), i)
      {
        c := Insert([text[i]]);
        var _ := page.browser.SendCommandWithoutResponse(c.name, c.params);
        page.browser.Sleep(delayMs);
        assert text[..i + 1][..i] == text[..i];
      }
      assert text[..|text|] == text;
      return Returned, found, polls;
    }

    /** Reads the element's rendered text; see `Responses.InnerTextValue` for the path it reads. */
    method InnerText() returns (r: Result<string, Error>, ghost found: bool, ghost polls: nat)
      modifies page.browser
      ensures Polled(page.browser.replies, old(|page.browser.sent|), polls, found)
      ensures page.browser.naps == old(page.browser.naps) + Repeat(Interval, Waits(polls, found))
      ensures !found ==> r == Err(Timeout(selector)) && page.browser.sent == old(page.browser.sent) + Repeat(Probe(selector), polls)
      ensures found ==>
        && page.browser.sent == old(page.browser.sent) + Repeat(Probe(selector), polls) + [InnerTextScript(selector)]
        && r == match page.browser.replies(old(|page.browser.sent|) + polls)
                case Refusal(m) => Err(Wrapped("failed to get inner text for selector " + selector, m))
                case Answer(response) => InnerTextValue(response)
    {
      var ok;
      ok, polls := WaitForSelector();
      found := ok;
      if !ok {
        return Err(Timeout(selector)), found, polls;
      }
      var c := InnerTextScript(selector);
      var reply := page.browser.SendCommandWithResponse(c.name, c.params);
      match reply
      case Refusal(m) =>
        return Err(Wrapped("failed to get inner text for selector " + selector, m)), found, polls;
      case Answer(response) =>
        return InnerTextValue(response), found, polls;
    }

    /**
     * Focus, then per rune: on a mistake a wrong letter, a sleep, an erasing
     * Backspace and a sleep; then the rune and a sleep. Stops at the first
     * failed send. `draws` stands for the global random source.
     */
    method TypeWithMistakes(text: string, delayMs: int, draws: seq<Draw>) returns (err: Option<Error>, ghost found: bool, ghost polls: nat)
      requires |draws| == |text|
      modifies page.browser
      ensures Polled(page.browser.replies, old(|page.browser.sent|), polls, found)
      ensures !found ==>
        && err == Some(Timeout(selector))
        && page.browser.sent == old(page.browser.sent) + Repeat(Probe(selector), polls)
        && page.browser.naps == old(page.browser.naps) + Repeat(Interval, polls)
      ensures found ==>
        var steps := [Focus(selector)] + Mistyped(text, draws);
        var run := Chain(page.browser.replies, old(|page.browser.sent|) + polls, |steps|);
        && page.browser.sent == old(page.browser.sent) + Repeat(Probe(selector), polls) + steps[..run.sent]
        && page.browser.naps == old(page.browser.naps) + Repeat(Interval, polls - 1) + Repeat(Nap(delayMs), TypingNaps(run))
        && err == (if run.refusal.None? then None else Some(Sent(run.refusal.value)))
    {
      var ok;
      ok, polls := WaitForSelector();
      found := ok;
      if !ok {
        return Some(Timeout(selector)), found, polls;
      }
      err := TypeFoundWithMistakes(text, delayMs, draws);
    }

    /** The part of `TypeWithMistakes` after the element was found. */
    method TypeFoundWithMistakes(text: string, delayMs: int, draws: seq<Draw>) returns (err: Option<Error>)
      requires |draws| == |text|
      modifies page.browser
      ensures var steps := [Focus(selector)] + Mistyped(text, draws);
        var run := Chain(page.browser.replies, old(|page.browser.sent|), |steps|);
        && page.browser.sent == old(page.browser.sent) + steps[..run.sent]
        && page.browser.naps == old(page.browser.naps) + Repeat(Nap(delayMs), TypingNaps(run))
        && err == (if run.refusal.None? then None else Some(Sent(run.refusal.value)))
    {
      ghost var base := |page.browser.sent|;
      ghost var sent0 := page.browser.sent;
      ghost var naps0 := page.browser.naps;
      ghost var steps := [Focus(selector)] + Mistyped(text, draws);
      var c := Focus(selector);
      var e := page.browser.SendCommandWithoutResponse(c.name, c.params);
      if e.Some? {
        ChainStops(page.browser.replies, base, |steps|, 0);
        return Some(Sent(e.value));
      }
      ghost var done := 1;
      for i := 0 to |text|
        invariant done == 1 + |MistypedFirst(text, draws, i)| <= |steps|
        invariant page.browser.sent == sent0 + steps[..done]
        invariant page.browser.naps == naps0 + Repeat(Nap(delayMs), done - 1)
        invariant forall k | base <= k < base + done :: page.browser.replies(k).Answer?
      {
        var refusal := TypeRuneAt(text, draws, i, delayMs, base, sent0, naps0, done);
        if refusal.Some? {
          return Some(Sent(refusal.value));
        }
        done := done + |Keystrokes(text[i], draws[i])|;
      }
      ChainCompletes(page.browser.replies, base, |steps|);
      assert steps[..|steps|] == steps;
      return None;
    }

    /**
     * Rune i of `TypeWithMistakes` within the whole run, once the run got
     * through the focus and the commands of the runes before i.
     */
    method TypeRuneAt(text: string, draws: seq<Draw>, i: nat, delayMs: int,
                      ghost base: nat, ghost sent0: seq<Call>, ghost naps0: seq<nat>, ghost done: nat)
      returns (refusal: Option<string>)
      requires |draws| == |text| && i < |text|
      requires done == 1 + |MistypedFirst(text, draws, i)| <= 1 + |Mistyped(text, draws)|
      requires |sent0| == base
      requires page.browser.sent == sent0 + ([Focus(selector)] + Mistyped(text, draws))[..done]
      requires page.browser.naps == naps0 + Repeat(Nap(delayMs), done - 1)
      requires forall k | base <= k < base + done :: page.browser.replies(k).Answer?
      modifies page.browser
      ensures var steps := [Focus(selector)] + Mistyped(text, draws);
        var keys := Keystrokes(text[i], draws[i]);
        && done + |keys| <= |steps|
        && (refusal.Some? ==>
              var whole := Chain(page.browser.replies, base, |steps|);
              && page.browser.sent == sent0 + steps[..whole.sent]
              && page.browser.naps == naps0 + Repeat(Nap(delayMs), TypingNaps(whole))
              && whole.refusal == refusal)
        && (refusal.None? ==>
              && page.browser.sent == sent0 + steps[..done + |keys|]
              && page.browser.naps == naps0 + Repeat(Nap(delayMs), done + |keys| - 1)
              && forall k | base <= k < base + done + |keys| :: page.browser.replies(k).Answer?)
    {
      ghost var steps := [Focus(selector)] + Mistyped(text, draws);
      ghost var keys := Keystrokes(text[i], draws[i]);
      KeystrokesAt(text, draws, i);
      SliceAfterFirst(Focus(selector), Mistyped(text, draws), done - 1, done - 1 + |keys|);
      refusal := TypeRune(text[i], draws[i], delayMs);
      RuneExtends(page.browser.replies, base, steps, done, keys, Nap(delayMs), sent0, naps0, page.browser.sent, page.browser.naps);
    }

    /** The commands for one rune of `TypeWithMistakes`, each followed by a sleep; stops at the first failed send. */
    method TypeRune(ch: char, d: Draw, delayMs: int) returns (refusal: Option<string>)
      modifies page.browser
      ensures var run := Chain(page.browser.replies, old(|page.browser.sent|), |Keystrokes(ch, d)|);
        && page.browser.sent == old(page.browser.sent) + Keystrokes(ch, d)[..run.sent]
        && page.browser.naps == old(page.browser.naps) + Repeat(Nap(delayMs), run.sent - (if run.refusal.Some? then 1 else 0))
        && refusal == run.refusal
    {
      ghost var base := |page.browser.sent|;
      ghost var sent0 := page.browser.sent;
      ghost var naps0 := page.browser.naps;
      ghost var keys := Keystrokes(ch, d);
      ghost var replies := page.browser.replies;
      ghost var done := 0;
      if d.mistake {
        refusal := Mistype(d.letter, delayMs);
        ghost var run := Chain(replies, base, 2);
        ChainMeaning(replies, base, 2);
        assert keys == [Insert([WrongLetter(d.letter)]), EraseKey()] + [Insert([ch])];
        if refusal.Some? {
          assert keys[..run.sent] == [Insert([WrongLetter(d.letter)]), EraseKey()][..run.sent];
          ChainStops(replies, base, 3, run.sent - 1);
          return;
        }
        done := 2;
      } else {
        assert keys == [Insert([ch])];
      }
      ghost var sent1 := page.browser.sent;
      ghost var naps1 := page.browser.naps;
      assert sent1 == sent0 + keys[..done] && naps1 == naps0 + Repeat(Nap(delayMs), done);
      assert forall k | base <= k < base + done :: replies(k).Answer?;
      var c := Insert([ch]);
      refusal := page.browser.SendCommandWithoutResponse(c.name, c.params);
      assert keys[..done + 1] == keys && page.browser.sent == sent0 + keys;
      if refusal.Some? {
        ChainStops(replies, base, |keys|, done);
        return;
      }
      page.browser.Sleep(delayMs);
      ChainCompletes(replies, base, |keys|);
    }

    /** A wrong letter, a sleep, the Backspace that erases it, a sleep; stops at the first failed send. */
    method Mistype(letter: Letter, delayMs: int) returns (refusal: Option<string>)
      modifies page.browser
      ensures var run := Chain(page.browser.replies, old(|page.browser.sent|), 2);
        && page.browser.sent == old(page.browser.sent) + [Insert([WrongLetter(letter)]), EraseKey()][..run.sent]
        && page.browser.naps == old(page.browser.naps) + Repeat(Nap(delayMs), run.sent - (if run.refusal.Some? then 1 else 0))
        && refusal == run.refusal
    {
      ghost var base := |page.browser.sent|;
      var c := Insert([WrongLetter(letter)]);
      refusal := page.browser.SendCommandWithoutResponse(c.name, c.params);
      if refusal.Some? {
        return;
      }
      page.browser.Sleep(delayMs);
      c := EraseKey();
      refusal := page.browser.SendCommandWithoutResponse(c.name, c.params);
      if refusal.Some? {
        return;
      }
      page.browser.Sleep(delayMs);
      assert page.browser.naps == old(page.browser.naps) + Repeat(Nap(delayMs), 2);
    }
  }
}
