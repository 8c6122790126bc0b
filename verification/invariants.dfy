/**
 Properties of the contract that relate several calls: the ledger sums, the
 monotonicity of every counter, the view of an account after it contributes,
 and the order in which the full message log is overwritten.
 */
module Invariants {
  import opened Factions
  import opened Ledger
  import opened SpaceFactions

  // ----------------------------------------------------------- the ledger

  /** An accepted contribution keeps every total equal to the sum of its
      counter over the stored records; a refused one changes nothing. */
  lemma AddSupportPreservesLedger(s: State, caller: string, support: int, faction: int)
    requires LedgerConsistent(s)
    ensures LedgerConsistent(AddSupport(s, caller, support, faction))
  {
    var r := AddSupport(s, caller, support, faction);
    var v := Validate(support, faction);
    if v.Accepted? {
      var users := s.userSupportersData;
      var credited := r.userSupportersData[caller];
      assert r.userSupportersData == users[caller := credited];
      forall f
        ensures Supporters(r, f) == Total(r.userSupportersData, f)
      {
        TotalUpdate(users, caller, credited, f);
      }
    }
  }

  /** In a consistent ledger no faction total is negative. */
  lemma TotalsNonNegative(s: State)
    requires LedgerConsistent(s)
    ensures forall f :: Supporters(s, f) >= 0
  {
    forall f ensures Supporters(s, f) >= 0 {
      var users := s.userSupportersData;
      assert forall a :: a in users ==> Counter(users[a], f) >= 0 by {
        forall a | a in users ensures Counter(users[a], f) >= 0 {
          assert NonNegative(users[a]);
        }
      }
      SumOverNonNegative(users, users.Keys, f);
    }
  }

  lemma ApplyPreservesValid(s: State, c: Call)
    requires Valid(s)
    ensures Valid(Apply(s, c))
  {
    match c
    case SupportCall(caller, support, faction) =>
      AddSupportPreservesLedger(s, caller, support, faction);
    case MessageCall(caller, message) =>
  }

  lemma {:induction false} RunPreservesValid(s: State, calls: seq<Call>)
    requires Valid(s)
    ensures Valid(Run(s, calls))
    decreases |calls|
  {
    if calls != [] {
      RunPreservesValid(s, calls[..|calls| - 1]);
      ApplyPreservesValid(Run(s, calls[..|calls| - 1]), calls[|calls| - 1]);
    }
  }

  /** Every state reached from deployment keeps the ledger sums, keeps the log
      within capacity and keeps the cursor on a slot. */
  lemma ReachableStatesAreValid(calls: seq<Call>)
    ensures Valid(Run(Init(), calls))
  {
    RunPreservesValid(Init(), calls);
  }

  // ------------------------------------------------------- monotonicity

  /** Nothing is ever taken away: totals, stored records, each of their
      counters and the log length only grow. */
  ghost predicate Grows(s: State, s': State) {
    && (forall f :: Supporters(s, f) <= Supporters(s', f))
    && (forall a :: a in s.userSupportersData ==> a in s'.userSupportersData)
    && (forall a, f :: a in s.userSupportersData && a in s'.userSupportersData ==>
          Counter(s.userSupportersData[a], f) <= Counter(s'.userSupportersData[a], f))
    && |s.messagesStart| <= |s'.messagesStart|
  }

  lemma GrowsTransitive(s1: State, s2: State, s3: State)
    requires Grows(s1, s2) && Grows(s2, s3)
    ensures Grows(s1, s3)
  {
    forall a, f | a in s1.userSupportersData && a in s3.userSupportersData
      ensures Counter(s1.userSupportersData[a], f) <= Counter(s3.userSupportersData[a], f)
    {
      assert a in s2.userSupportersData;
      assert Counter(s1.userSupportersData[a], f) <= Counter(s2.userSupportersData[a], f);
      assert Counter(s2.userSupportersData[a], f) <= Counter(s3.userSupportersData[a], f);
    }
    assert forall f :: Supporters(s1, f) <= Supporters(s3, f);
  }

  lemma ApplyGrows(s: State, c: Call)
    requires LogWellFormed(s)
    ensures Grows(s, Apply(s, c))
  {
  }

  lemma {:induction false} RunGrows(s: State, calls: seq<Call>)
    requires LogWellFormed(s)
    ensures Grows(s, Run(s, calls))
    decreases |calls|
  {
    if calls != [] {
      var mid := Run(s, calls[..|calls| - 1]);
      RunGrows(s, calls[..|calls| - 1]);
      ApplyGrows(mid, calls[|calls| - 1]);
      GrowsTransitive(s, mid, Run(s, calls));
    }
  }

  // ------------------------------------------------------------- views

  /** After an accepted contribution, the caller's view is its previous view
      credited with the amount, and every other account's view is unchanged. */
  lemma AddSupportThenQuery(s: State, caller: string, support: int, faction: int, other: string)
    requires Validate(support, faction).Accepted?
    requires other != caller
    ensures GetUserSupportData(AddSupport(s, caller, support, faction), caller)
         == Bump(GetUserSupportData(s, caller), Validate(support, faction).faction, support)
    ensures GetUserSupportData(AddSupport(s, caller, support, faction), other)
         == GetUserSupportData(s, other)
  {
  }

  // ------------------------------------------------------ the message log

  /** The messages of the `add_message_start` calls among `calls`, in call
      order; `add_support` calls contribute nothing. */
  function Messages(calls: seq<Call>): (ms: seq<string>)
    ensures |ms| <= |calls|
    decreases |calls|
  {
    if calls == [] then []
    else
      var last := calls[|calls| - 1];
      Messages(calls[..|calls| - 1]) + (if last.MessageCall? then [last.message] else [])
  }

  /** When every call is an `add_message_start`, the messages are exactly the
      calls' messages, in call order. */
  lemma {:induction false} MessagesOfMessageCalls(calls: seq<Call>)
    requires forall i :: 0 <= i < |calls| ==> calls[i].MessageCall?
    ensures |Messages(calls)| == |calls|
    ensures forall k :: 0 <= k < |calls| ==> Messages(calls)[k] == calls[k].message
    decreases |calls|
  {
    if calls != [] {
      var prefix := calls[..|calls| - 1];
      MessagesOfMessageCalls(prefix);
    }
  }

  /** What the log looks like after the messages `ms` were added to an empty
      log: message k sits in slot `k % Capacity` unless `Capacity` later
      messages have overwritten it, the log holds at most `Capacity` entries,
      and the cursor points at the slot the next message overwrites. */
  ghost predicate RingShape(r: State, ms: seq<string>) {
    && |r.messagesStart| == (if |ms| < Capacity then |ms| else Capacity)
    && r.messagesStartIndex == (if |ms| < Capacity then 0 else |ms| % Capacity)
    && forall k :: 0 <= k < |ms| && |ms| <= k + Capacity ==>
         r.messagesStart[k % Capacity] == ms[k]
  }

  /** One more message keeps the shape. */
  lemma RingStep(mid: State, ms: seq<string>, caller: string, m: string)
    requires RingShape(mid, ms)
    ensures RingShape(AddMessageStart(mid, caller, m), ms + [m])
  {
    var ms' := ms + [m];
    var n := |ms|;
    var r := AddMessageStart(mid, caller, m);
    forall k | 0 <= k < |ms'| && |ms'| <= k + Capacity
      ensures r.messagesStart[k % Capacity] == ms'[k]
    {
      if k < n {
        assert ms'[k] == ms[k];
        assert k % Capacity != n % Capacity;
      } else if n < Capacity {
        assert k % Capacity == n;
      }
    }
    if n >= Capacity {
      assert r.messagesStartIndex == (n + 1) % Capacity;
    }
  }

  /** Starting from an empty log, the messages of any sequence of calls fill
      the log as a ring, in slot order rather than arrival order once it
      wraps; `add_support` calls in between leave the log and cursor alone. */
  lemma {:induction false} RingOrder(s: State, calls: seq<Call>)
    requires s.messagesStart == [] && s.messagesStartIndex == 0
    ensures RingShape(Run(s, calls), Messages(calls))
    decreases |calls|
  {
    if calls != [] {
      var prefix := calls[..|calls| - 1];
      var last := calls[|calls| - 1];
      RingOrder(s, prefix);
      var mid := Run(s, prefix);
      if last.MessageCall? {
        RingStep(mid, Messages(prefix), last.caller, last.message);
      } else {
        assert Messages(calls) == Messages(prefix) + [];
      }
    }
  }
}
