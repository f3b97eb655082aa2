/** The hand-written condition lists of the two binding controllers. */
module Conditions {
  import opened Base

  datatype Status = True | False | Unknown

  datatype Condition = Condition(kind: string, status: Status, generation: int, transition: nat,
      reason: string, message: string)

  const READY := "Ready"

  /** The position of the first Ready entry, or the length. */
  function ReadyAt(cs: seq<Condition>): (i: nat)
    ensures i <= |cs| && (forall j :: 0 <= j < i ==> cs[j].kind != READY) && (i < |cs| ==> cs[i].kind == READY)
  {
    if cs == [] || cs[0].kind == READY then 0 else 1 + ReadyAt(cs[1..])
  }

  /** A status flip replaces the entry; otherwise its transition time survives. */
  function Merged(was: Condition, c: Condition): Condition {
    if was.status != c.status then c
    else was.(reason := c.reason, message := c.message, generation := c.generation)
  }

  function WithReady(cs: seq<Condition>, c: Condition): seq<Condition> {
    var i := ReadyAt(cs);
    if i == |cs| then cs + [c] else cs[i := Merged(cs[i], c)]
  }

  /** The condition part of a WarpgateUserRole or WarpgateTargetRole. */
  class Binding {
    var generation: int
    var conditions: seq<Condition>

    constructor (generation: int)
      ensures this.generation == generation && conditions == []
    {
      this.generation, conditions := generation, [];
    }

    /** setUserRoleCondition and setTargetRoleCondition; `now` is the clock's reading. */
    method SetCondition(status: Status, reason: string, message: string, now: nat)
      modifies `conditions
      ensures conditions == WithReady(old(conditions), Condition(READY, status, generation, now, reason, message))
    {
      var condition := Condition(READY, status, generation, now, reason, message);
      var i := 0;
      while i < |conditions|
        invariant i <= |conditions| && conditions == old(conditions)
        invariant forall j :: 0 <= j < i ==> conditions[j].kind != READY
      {
        if conditions[i].kind == condition.kind {
          if conditions[i].status != condition.status {
            conditions := conditions[i := condition];
          } else {
            conditions := conditions[i := conditions[i].(reason := reason)];
            conditions := conditions[i := conditions[i].(message := message)];
            conditions := conditions[i := conditions[i].(generation := generation)];
          }
          return;
        }
        i := i + 1;
      }
      conditions := conditions + [condition];
    }
  }

  function AfterCalls(cs: seq<Condition>, calls: seq<Condition>): seq<Condition> {
    if calls == [] then cs else WithReady(AfterCalls(cs, calls[..|calls| - 1]), calls[|calls| - 1])
  }

  ghost predicate AtMostOneReady(cs: seq<Condition>) {
    forall i, j :: 0 <= i < |cs| && 0 <= j < |cs| && cs[i].kind == READY && cs[j].kind == READY ==> i == j
  }

  /** The calls since k all carry the last status, and the one before k did not. */
  ghost predicate LastFlipAt(calls: seq<Condition>, k: nat) {
    && k < |calls|
    && (forall j :: k <= j < |calls| ==> calls[j].status == calls[|calls| - 1].status)
    && (k > 0 ==> calls[k - 1].status != calls[k].status)
  }

  /** When the status last flipped: at call k, unless it has been the same since before the first call. */
  ghost function FlipTime(cs: seq<Condition>, calls: seq<Condition>, k: nat): nat
    requires k < |calls|
  {
    var i := ReadyAt(cs);
    if k == 0 && i < |cs| && cs[i].status == calls[0].status then cs[i].transition else calls[k].transition
  }

  lemma CallKeepsOne(cs: seq<Condition>, c: Condition)
    requires AtMostOneReady(cs) && c.kind == READY
    ensures var cs' := WithReady(cs, c);
            && AtMostOneReady(cs') && ReadyAt(cs') == ReadyAt(cs) < |cs'|
            && |cs'| == (if ReadyAt(cs) == |cs| then |cs| + 1 else |cs|)
            && (forall i :: 0 <= i < |cs| && i != ReadyAt(cs) ==> cs'[i] == cs[i])
            && cs'[ReadyAt(cs)] == (if ReadyAt(cs) == |cs| then c else Merged(cs[ReadyAt(cs)], c))
  {
    var i, cs' := ReadyAt(cs), WithReady(cs, c);
    assert cs'[i].kind == READY && forall j :: 0 <= j < i ==> cs'[j].kind != READY;
  }

  /** What a list has become after calls whose last flip is at k. */
  ghost predicate Tracked(cs: seq<Condition>, cs': seq<Condition>, calls: seq<Condition>, k: nat)
    requires k < |calls|
  {
    var i := ReadyAt(cs);
    && AtMostOneReady(cs') && ReadyAt(cs') == i < |cs'|
    && |cs'| == (if i == |cs| then |cs| + 1 else |cs|)
    && cs'[i] == calls[|calls| - 1].(transition := FlipTime(cs, calls, k))
    && (forall j :: 0 <= j < |cs| && j != i ==> cs'[j] == cs[j])
  }

  lemma OneMoreCall(cs: seq<Condition>, cs': seq<Condition>, calls: seq<Condition>, k': nat, k: nat)
    requires |calls| > 1 && LastFlipAt(calls[..|calls| - 1], k') && LastFlipAt(calls, k)
    requires Tracked(cs, cs', calls[..|calls| - 1], k') && calls[|calls| - 1].kind == READY
    requires calls[|calls| - 2].kind == READY && (k < |calls| - 1 ==> k' == k)
    ensures Tracked(cs, WithReady(cs', calls[|calls| - 1]), calls, k)
  {
    CallKeepsOne(cs', calls[|calls| - 1]);
    hide AtMostOneReady;
  }

  /**
   * Over any sequence of calls, from a list with at most one Ready entry: there is exactly one, in
   * the place of the first; it carries the last call's status, reason, message and generation, and
   * the time of the last status flip; every other entry keeps its position and value.
   */
  lemma {:induction false} ReadyTracksCalls(cs: seq<Condition>, calls: seq<Condition>, k: nat)
    requires AtMostOneReady(cs) && calls != [] && forall j :: 0 <= j < |calls| ==> calls[j].kind == READY
    requires LastFlipAt(calls, k)
    ensures Tracked(cs, AfterCalls(cs, calls), calls, k)
    decreases |calls|
  {
    var n := |calls| - 1;
    var earlier := calls[..n];
    if n == 0 {
      assert earlier == [];
      CallKeepsOne(cs, calls[0]);
    } else {
      var k' := k;
      if k == n {
        k' := SomeFlip(earlier);
      }
      assert LastFlipAt(earlier, k');
      hide Tracked, AtMostOneReady, WithReady;
      ReadyTracksCalls(cs, earlier, k');
      OneMoreCall(cs, AfterCalls(cs, earlier), calls, k', k);
    }
  }

  /** Every nonempty sequence of calls has a last flip. */
  lemma {:induction false} SomeFlip(calls: seq<Condition>) returns (k: nat)
    requires calls != []
    ensures LastFlipAt(calls, k)
  {
    var n := |calls| - 1;
    if n == 0 || calls[n - 1].status != calls[n].status {
      return n;
    }
    k := SomeFlip(calls[..n]);
  }
}
