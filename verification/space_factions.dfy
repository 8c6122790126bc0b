/**
 The `SpaceFactions` contract as an immutable state with pure transitions.
 Each mutating entry point takes the signing account as an explicit `caller`
 and returns the next state; each view is a function of the state alone.
 */
module SpaceFactions {
  import opened Factions
  import opened Ledger

  /** The capacity of the starting-point message log. */
  const Capacity: int := 20

  /** The persisted contract state: three faction totals, the per-account
      records, the message log and its overwrite cursor. */
  datatype State = State(
    squareSupporters: int,
    circleSupporters: int,
    triangleSupporters: int,
    userSupportersData: map<string, Support>,
    messagesStart: seq<string>,
    messagesStartIndex: int)

  /** The global total of faction `f`. */
  function Supporters(s: State, f: Faction): int {
    match f
    case Square => s.squareSupporters
    case Circle => s.circleSupporters
    case Triangle => s.triangleSupporters
  }

  /** Each total is the sum of its counter over the stored records, each record
      is filed under its own account and holds no negative counter. */
  ghost predicate LedgerConsistent(s: State) {
    && (forall f :: Supporters(s, f) == Total(s.userSupportersData, f))
    && (forall a :: a in s.userSupportersData ==>
          s.userSupportersData[a].accountId == a && NonNegative(s.userSupportersData[a]))
  }

  /** The log is within capacity, the cursor is a slot index, and the cursor
      has not moved while the log is still filling. */
  predicate LogWellFormed(s: State) {
    && |s.messagesStart| <= Capacity
    && 0 <= s.messagesStartIndex < Capacity
    && (|s.messagesStart| < Capacity ==> s.messagesStartIndex == 0)
  }

  /** The invariant of every state the contract can reach. */
  ghost predicate Valid(s: State) {
    LedgerConsistent(s) && LogWellFormed(s)
  }

  /** The state right after deployment. */
  function Init(): (s: State)
    ensures Valid(s)
    ensures forall f :: Supporters(s, f) == 0
    ensures s.userSupportersData == map[]
    ensures s.messagesStart == [] && s.messagesStartIndex == 0
  {
    TotalEmpty(Square);
    TotalEmpty(Circle);
    TotalEmpty(Triangle);
    State(0, 0, 0, map[], [], 0)
  }

  // ---------------------------------------------------------------- views

  function GetSupportersSquare(s: State): (r: int)
    ensures LedgerConsistent(s) ==> r == Total(s.userSupportersData, Square)
  {
    s.squareSupporters
  }

  function GetSupportersCircle(s: State): (r: int)
    ensures LedgerConsistent(s) ==> r == Total(s.userSupportersData, Circle)
  {
    s.circleSupporters
  }

  function GetSupportersTriangle(s: State): (r: int)
    ensures LedgerConsistent(s) ==> r == Total(s.userSupportersData, Triangle)
  {
    s.triangleSupporters
  }

  /** The three totals, in the order square, circle, triangle. */
  function GetSupportersData(s: State): (r: seq<int>)
    ensures |r| == 3
    ensures forall f :: r[Tag(f) - 1] == Supporters(s, f)
  {
    [s.squareSupporters, s.circleSupporters, s.triangleSupporters]
  }

  /** The message log in storage-slot order. */
  function GetMessagesStart(s: State): (r: seq<string>)
    ensures LogWellFormed(s) ==> |r| <= Capacity
    ensures r == s.messagesStart
  {
    s.messagesStart
  }

  /** The record of `account`, or an all-zero record for it when it never
      contributed. The result always carries the queried account. */
  function GetUserSupportData(s: State, account: string): (r: Support)
    ensures r.accountId == account
    ensures account in s.userSupportersData ==>
              forall f :: Counter(r, f) == Counter(s.userSupportersData[account], f)
    ensures account !in s.userSupportersData ==> forall f :: Counter(r, f) == 0
  {
    if account in s.userSupportersData then
      var sup := s.userSupportersData[account];
      Support(account, sup.supportSquare, sup.supportCircle, sup.supportTriangle)
    else
      Zero(account)
  }

  // ------------------------------------------------------------ mutations

  /** Adds `amount` to the global total of faction `f`. */
  function AddToTotal(s: State, f: Faction, amount: int): (r: State)
    ensures Supporters(r, f) == Supporters(s, f) + amount
    ensures forall g :: g != f ==> Supporters(r, g) == Supporters(s, g)
    ensures r.userSupportersData == s.userSupportersData
    ensures r.messagesStart == s.messagesStart && r.messagesStartIndex == s.messagesStartIndex
  {
    match f
    case Square => s.(squareSupporters := s.squareSupporters + amount)
    case Circle => s.(circleSupporters := s.circleSupporters + amount)
    case Triangle => s.(triangleSupporters := s.triangleSupporters + amount)
  }

  /** `add_support`: a refused request changes nothing; an accepted one credits
      `support` to the faction's total and to the caller's record (created at
      zero on first use), and touches nothing else. */
  function AddSupport(s: State, caller: string, support: int, faction: int): (r: State)
    ensures !Validate(support, faction).Accepted? ==> r == s
    ensures Validate(support, faction).Accepted? ==>
      var f := Validate(support, faction).faction;
      var prior := GetUserSupportData(s, caller);
      && Supporters(r, f) == Supporters(s, f) + support
      && (forall g :: g != f ==> Supporters(r, g) == Supporters(s, g))
      && r.userSupportersData.Keys == s.userSupportersData.Keys + {caller}
      && r.userSupportersData[caller].accountId == caller
      && Counter(r.userSupportersData[caller], f) == Counter(prior, f) + support
      && (forall g :: g != f ==> Counter(r.userSupportersData[caller], g) == Counter(prior, g))
      && (forall a :: a in s.userSupportersData && a != caller ==>
            r.userSupportersData[a] == s.userSupportersData[a])
      && r.messagesStart == s.messagesStart
      && r.messagesStartIndex == s.messagesStartIndex
  {
    match Validate(support, faction)
    case Accepted(f) =>
      var updated :=
        if caller in s.userSupportersData then
          var stored := s.userSupportersData[caller];
          Support(caller, stored.supportSquare, stored.supportCircle, stored.supportTriangle)
        else
          Zero(caller);
      var credited := Bump(updated, f, support);
      AddToTotal(s, f, support).(userSupportersData := s.userSupportersData[caller := credited])
    case _ => s
  }

  /** What a full-log overwrite needs: the cursor names an existing slot. */
  predicate ReplaceInBounds(s: State) {
    |s.messagesStart| >= Capacity ==> 0 <= s.messagesStartIndex < |s.messagesStart|
  }

  /** `add_message_start`: below capacity the message is appended; otherwise it
      overwrites the slot at the cursor, which then advances and wraps to 0 at
      the end of the log. The caller only appears in the contract's diagnostic
      log line. */
  function AddMessageStart(s: State, caller: string, message: string): (r: State)
    requires ReplaceInBounds(s)
    ensures |s.messagesStart| < Capacity ==>
      && r.messagesStart == s.messagesStart + [message]
      && r.messagesStartIndex == s.messagesStartIndex
    ensures |s.messagesStart| >= Capacity ==>
      && |r.messagesStart| == |s.messagesStart|
      && r.messagesStart[s.messagesStartIndex] == message
      && (forall i :: 0 <= i < |s.messagesStart| && i != s.messagesStartIndex ==>
            r.messagesStart[i] == s.messagesStart[i])
      && r.messagesStartIndex == (s.messagesStartIndex + 1) % |s.messagesStart|
    ensures r.(messagesStart := s.messagesStart, messagesStartIndex := s.messagesStartIndex) == s
    ensures LogWellFormed(s) ==> LogWellFormed(r)
  {
    if |s.messagesStart| < Capacity then
      s.(messagesStart := s.messagesStart + [message])
    else
      var next := s.messagesStartIndex + 1;
      s.(messagesStart := s.messagesStart[s.messagesStartIndex := message],
         messagesStartIndex := if next >= |s.messagesStart| then 0 else next)
  }

  // --------------------------------------------------------------- traces

  /** One call to a mutating entry point, with its signer. */
  datatype Call =
    | SupportCall(caller: string, support: int, faction: int)
    | MessageCall(caller: string, message: string)

  function Apply(s: State, c: Call): (r: State)
    requires LogWellFormed(s)
    ensures LogWellFormed(r)
  {
    match c
    case SupportCall(caller, support, faction) => AddSupport(s, caller, support, faction)
    case MessageCall(caller, message) => AddMessageStart(s, caller, message)
  }

  /** The state after the calls, in order, starting from `s`. */
  function Run(s: State, calls: seq<Call>): (r: State)
    requires LogWellFormed(s)
    ensures LogWellFormed(r)
    decreases |calls|
  {
    if calls == [] then s
    else Apply(Run(s, calls[..|calls| - 1]), calls[|calls| - 1])
  }
}
