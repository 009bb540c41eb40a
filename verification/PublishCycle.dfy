/**
 One bounded publishing cycle: its loop over the candidates and its counters. What the
 repository and the broker do with each candidate is the candidate's fate.
 */
module PublishCycle {
  import opened Wrappers
  import opened Domain

  type EventKey = (Id, Id)

  datatype Fate =
    | ClaimFails                // the claim throws: the cycle ends
    | ClaimLost                 // another publisher has it
    | SendAborts                // the broker throws something other than a publish error: the cycle ends
    | Marked                    // sent, acknowledged, marked published
    | MarkFails                 // sent, acknowledged, the repository refuses the mark
    | MarkAborts                // sent, acknowledged, the mark throws something else: the cycle ends
    | Released                  // sent, refused, released for retry
    | ReleaseFails              // sent, refused, the repository refuses the release
    | ReleaseAborts             // sent, refused, the release throws something else: the cycle ends

  predicate Ends(f: Fate) { f.ClaimFails? || f.SendAborts? || f.MarkAborts? || f.ReleaseAborts? }

  /** The broker was called. */
  predicate Attempted(f: Fate) { !f.ClaimFails? && !f.ClaimLost? }

  datatype Counts = Counts(candidates: nat, acquired: nat, lost: nat, published: nat, completionFailures: nat,
                           released: nat, releaseFailures: nat)

  datatype Ending = Returned | Threw

  /** How often a fate occurs. */
  function Occurrences(fates: seq<Fate>, f: Fate): nat
    decreases |fates|
  {
    if fates == [] then 0
    else Occurrences(fates[..|fates| - 1], f) + (if fates[|fates| - 1] == f then 1 else 0)
  }

  /** The candidates sent to the broker, in order. */
  function Sends(candidates: seq<EventKey>, fates: seq<Fate>): seq<EventKey>
    requires |candidates| == |fates|
    decreases |fates|
  {
    if fates == [] then []
    else
      var n := |fates| - 1;
      Sends(candidates[..n], fates[..n]) + (if Attempted(fates[n]) then [candidates[n]] else [])
  }

  /** What the counters say after the fates of the first `n` candidates. */
  predicate Accounts(c: Counts, fates: seq<Fate>) {
    && c.lost == Occurrences(fates, ClaimLost) && c.published == Occurrences(fates, Marked)
    && c.completionFailures == Occurrences(fates, MarkFails) && c.released == Occurrences(fates, Released)
    && c.releaseFailures == Occurrences(fates, ReleaseFails)
    && c.acquired + c.lost + Occurrences(fates, ClaimFails) == |fates|
    && c.acquired == c.published + c.completionFailures + c.released + c.releaseFailures
                     + Occurrences(fates, SendAborts) + Occurrences(fates, MarkAborts) + Occurrences(fates, ReleaseAborts)
  }

  function After(c: Counts, f: Fate): Counts {
    match f
    case ClaimFails => c
    case ClaimLost => c.(lost := c.lost + 1)
    case SendAborts => c.(acquired := c.acquired + 1)
    case Marked => c.(acquired := c.acquired + 1, published := c.published + 1)
    case MarkFails => c.(acquired := c.acquired + 1, completionFailures := c.completionFailures + 1)
    case MarkAborts => c.(acquired := c.acquired + 1)
    case Released => c.(acquired := c.acquired + 1, released := c.released + 1)
    case ReleaseFails => c.(acquired := c.acquired + 1, releaseFailures := c.releaseFailures + 1)
    case ReleaseAborts => c.(acquired := c.acquired + 1)
  }

  lemma OneMore(fates: seq<Fate>, n: nat, f: Fate)
    requires n < |fates|
    ensures Occurrences(fates[..n + 1], f) == Occurrences(fates[..n], f) + (if fates[n] == f then 1 else 0)
  {
    assert fates[..n + 1][..n] == fates[..n];
  }

  lemma AccountsStep(c: Counts, fates: seq<Fate>, n: nat)
    requires n < |fates| && Accounts(c, fates[..n])
    ensures Accounts(After(c, fates[n]), fates[..n + 1])
  {
    hide Occurrences;
    OneMore(fates, n, ClaimFails);
    OneMore(fates, n, ClaimLost);
    OneMore(fates, n, SendAborts);
    OneMore(fates, n, Marked);
    OneMore(fates, n, MarkFails);
    OneMore(fates, n, MarkAborts);
    OneMore(fates, n, Released);
    OneMore(fates, n, ReleaseFails);
    OneMore(fates, n, ReleaseAborts);
  }

  lemma SendsStep(candidates: seq<EventKey>, fates: seq<Fate>, n: nat)
    requires |candidates| == |fates| && n < |fates|
    ensures Sends(candidates[..n + 1], fates[..n + 1])
            == Sends(candidates[..n], fates[..n]) + (if Attempted(fates[n]) then [candidates[n]] else [])
  {
    assert fates[..n + 1][..n] == fates[..n] && candidates[..n + 1][..n] == candidates[..n];
  }

  lemma AttemptedFates(f: Fate)
    ensures Attempted(f) <==> !f.ClaimFails? && !f.ClaimLost?
  {
  }

  lemma NothingYet(candidates: seq<EventKey>, fates: seq<Fate>, found: nat)
    requires |candidates| == |fates|
    ensures Accounts(Counts(found, 0, 0, 0, 0, 0, 0), fates[..0]) && Sends(candidates[..0], fates[..0]) == []
  {
  }

  /**
   What `run_cycle` does with a batch: `processed` candidates are begun, of which only the last
   can have ended the cycle, and the counters and the sends are those of their fates.
   */
  predicate CycleAnswers(candidates: seq<EventKey>, fates: seq<Fate>, result: Counts, sends: seq<EventKey>, processed: nat,
                         ending: Ending)
    requires |candidates| == |fates|
  {
    && processed <= |fates| && Accounts(result, fates[..processed]) && result.candidates == |candidates|
    && sends == Sends(candidates[..processed], fates[..processed])
    && (forall i :: 0 <= i < processed - 1 ==> !Ends(fates[i]))
    && (ending == Threw <==> processed > 0 && Ends(fates[processed - 1]))
    && (ending == Returned ==> processed == |fates|)
  }

  /**
   `run_cycle`. `found` is the answer of `find_pending`, at most `batchSize` rows, or its error.
   */
  method RunCycle(batchSize: nat, found: Option<seq<EventKey>>, fates: seq<Fate>)
    returns (result: Counts, sends: seq<EventKey>, processed: nat, ending: Ending)
    requires found.Some? ==> |found.value| <= batchSize && |fates| == |found.value|
    ensures batchSize == 0 || found == None ==> ending == Threw && processed == 0 && sends == []
    ensures batchSize > 0 && found.Some? ==> CycleAnswers(found.value, fates, result, sends, processed, ending)
  {
    hide Accounts, Sends, Attempted;
    result, sends, processed := Counts(0, 0, 0, 0, 0, 0, 0), [], 0;
    if batchSize == 0 { return result, sends, processed, Threw; }
    if found == None { return result, sends, processed, Threw; }
    var candidates := found.value;
    result := result.(candidates := |candidates|);
    NothingYet(candidates, fates, |candidates|);
    while processed < |candidates|
      invariant 0 <= processed <= |candidates| && result.candidates == |candidates|
      invariant Accounts(result, fates[..processed])
      invariant sends == Sends(candidates[..processed], fates[..processed])
      invariant forall i :: 0 <= i < processed ==> !Ends(fates[i])
    {
      var fate := fates[processed];
      AccountsStep(result, fates, processed);
      SendsStep(candidates, fates, processed);
      AttemptedFates(fate);
      var candidate := candidates[processed];
      processed := processed + 1;
      if fate.ClaimFails? { return result, sends, processed, Threw; }
      if fate.ClaimLost? {
        result := result.(lost := result.lost + 1);
        continue;
      }
      result := result.(acquired := result.acquired + 1);
      sends := sends + [candidate];
      if fate.SendAborts? { return result, sends, processed, Threw; }
      if fate.Released? || fate.ReleaseFails? || fate.ReleaseAborts? {
        if fate.ReleaseAborts? { return result, sends, processed, Threw; }
        if fate.Released? {
          result := result.(released := result.released + 1);
        } else {
          result := result.(releaseFailures := result.releaseFailures + 1);
        }
        continue;
      }
      if fate.MarkAborts? { return result, sends, processed, Threw; }
      if fate.Marked? {
        result := result.(published := result.published + 1);
      } else {
        result := result.(completionFailures := result.completionFailures + 1);
      }
    }
    assert fates[..processed] == fates && candidates[..processed] == candidates;
    ending := Returned;
  }

  lemma {:induction false} NoOccurrence(fates: seq<Fate>, f: Fate)
    requires forall i :: 0 <= i < |fates| ==> fates[i] != f
    ensures Occurrences(fates, f) == 0
    decreases |fates|
  {
    if fates != [] { NoOccurrence(fates[..|fates| - 1], f); }
  }

  /** A cycle that returns accounts for every candidate. */
  lemma ReturnedCycle(c: Counts, fates: seq<Fate>)
    requires Accounts(c, fates) && forall i :: 0 <= i < |fates| ==> !Ends(fates[i])
    ensures |fates| == c.acquired + c.lost
    ensures c.acquired == c.published + c.completionFailures + c.released + c.releaseFailures
  {
    NoOccurrence(fates, ClaimFails);
    NoOccurrence(fates, SendAborts);
    NoOccurrence(fates, MarkAborts);
    NoOccurrence(fates, ReleaseAborts);
  }

  /** A cycle that throws accounts for every candidate but the one in flight. */
  lemma ThrownCycle(c: Counts, fates: seq<Fate>)
    requires Accounts(c, fates) && fates != [] && Ends(fates[|fates| - 1])
    requires forall i :: 0 <= i < |fates| - 1 ==> !Ends(fates[i])
    ensures var inFlight := if fates[|fates| - 1].ClaimFails? then 0 else 1;
      && c.acquired + c.lost == |fates| - 1 + inFlight
      && c.published + c.completionFailures + c.released + c.releaseFailures == c.acquired - inFlight
  {
    var init := fates[..|fates| - 1];
    NoOccurrence(init, ClaimFails);
    NoOccurrence(init, SendAborts);
    NoOccurrence(init, MarkAborts);
    NoOccurrence(init, ReleaseAborts);
  }

  /** Candidates are sent in the order of the batch: of two that are attempted, the earlier one is sent earlier. */
  lemma {:induction false} SendsInOrder(candidates: seq<EventKey>, fates: seq<Fate>, i: nat, j: nat)
    requires |candidates| == |fates| && i < j < |fates| && Attempted(fates[i]) && Attempted(fates[j])
    ensures var sends := Sends(candidates, fates);
      exists a, b :: 0 <= a < b < |sends| && sends[a] == candidates[i] && sends[b] == candidates[j]
  {
    SendPosition(candidates, fates, i);
    SendPosition(candidates, fates, j);
    SendPosition(candidates[..j], fates[..j], i);
    assert candidates[..j][..i] == candidates[..i] && fates[..j][..i] == fates[..i];
    var a, b := |Sends(candidates[..i], fates[..i])|, |Sends(candidates[..j], fates[..j])|;
    assert Sends(candidates, fates)[a] == candidates[i] && Sends(candidates, fates)[b] == candidates[j];
  }

  lemma {:induction false} SendPosition(candidates: seq<EventKey>, fates: seq<Fate>, i: nat)
    requires |candidates| == |fates| && i < |fates| && Attempted(fates[i])
    ensures var a := |Sends(candidates[..i], fates[..i])|;
      a < |Sends(candidates, fates)| && Sends(candidates, fates)[a] == candidates[i]
    decreases |fates|
  {
    var n := |fates| - 1;
    if i < n {
      SendPosition(candidates[..n], fates[..n], i);
      assert candidates[..n][..i] == candidates[..i] && fates[..n][..i] == fates[..i];
    }
  }
}
