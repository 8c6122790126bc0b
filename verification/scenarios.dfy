/**
 The behaviours the repository's integration tests exercise, stated on the
 model from the deployed state.
 */
module Scenarios {
  import opened Factions
  import opened SpaceFactions
  import opened Invariants

  const Ali: string := "ali.test.near"
  const Bob: string := "bob.test.near"

  /** A fresh contract reports zero for every faction and an empty log. */
  lemma InitialViews(account: string)
    ensures GetSupportersSquare(Init()) == 0
    ensures GetSupportersCircle(Init()) == 0
    ensures GetSupportersTriangle(Init()) == 0
    ensures GetMessagesStart(Init()) == []
    ensures GetUserSupportData(Init(), account) == Support(account, 0, 0, 0)
  {
  }

  /** Ali backs square with 10; Bob's 9999 for circle is refused; Bob backs
      triangle with 50 and then circle with 15. */
  lemma SupportFromDifferentUsers()
    ensures var s1 := AddSupport(Init(), Ali, 10, 1);
            var s2 := AddSupport(s1, Bob, 9999, 2);
            var s3 := AddSupport(s2, Bob, 50, 3);
            var s4 := AddSupport(s3, Bob, 15, 2);
            && GetSupportersSquare(s1) == 10
            && s2 == s1
            && GetSupportersCircle(s2) == 0
            && GetSupportersTriangle(s3) == 50
            && GetUserSupportData(s3, Ali) == Support(Ali, 10, 0, 0)
            && GetUserSupportData(s3, Bob) == Support(Bob, 0, 0, 50)
            && GetUserSupportData(s4, Bob) == Support(Bob, 0, 15, 50)
            && GetSupportersData(s4) == [10, 15, 50]
  {
    var s1 := AddSupport(Init(), Ali, 10, 1);
    var s2 := AddSupport(s1, Bob, 9999, 2);
    var s3 := AddSupport(s2, Bob, 50, 3);
    var s4 := AddSupport(s3, Bob, 15, 2);
    assert Validate(9999, 2) == InvalidSupportAmount;
    assert Ali != Bob;
  }

  /** A first message on an empty log becomes its only entry. */
  lemma FirstMessage()
    ensures GetMessagesStart(AddMessageStart(Init(), Ali, "This is ali")) == ["This is ali"]
  {
  }

  /** Twenty-one messages followed by a twenty-second, with any support calls
      in between: the log stays at twenty entries, the twenty-first message
      overwrites slot 0 and the twenty-second slot 1. */
  lemma ManyMessages(calls: seq<Call>)
    requires |Messages(calls)| == 22
    ensures |GetMessagesStart(Run(Init(), calls))| == Capacity
    ensures GetMessagesStart(Run(Init(), calls))[0] == Messages(calls)[20]
    ensures GetMessagesStart(Run(Init(), calls))[1] == Messages(calls)[21]
  {
    RingOrder(Init(), calls);
    assert 20 % Capacity == 0 && 21 % Capacity == 1;
  }

  /** The integration test's own shape: twenty-two `add_message_start` calls
      and nothing else. */
  lemma ManyMessageCalls(calls: seq<Call>)
    requires |calls| == 22
    requires forall i :: 0 <= i < |calls| ==> calls[i].MessageCall?
    ensures |GetMessagesStart(Run(Init(), calls))| == Capacity
    ensures GetMessagesStart(Run(Init(), calls))[0] == calls[20].message
    ensures GetMessagesStart(Run(Init(), calls))[1] == calls[21].message
  {
    MessagesOfMessageCalls(calls);
    ManyMessages(calls);
  }
}
