/**
 The vocabulary of the space-factions contract: the three factions, the
 per-account support record, and the validation of a support request.
 */
module Factions {

  /** The largest amount a single support request may carry. */
  const MaxSupport: int := 1000

  /** The three factions a contribution can be attributed to. */
  datatype Faction = Square | Circle | Triangle

  /** The integer tag a caller uses to name a faction. */
  function Tag(f: Faction): int {
    match f
    case Square => 1
    case Circle => 2
    case Triangle => 3
  }

  /** The per-account support record, one counter per faction. */
  datatype Support = Support(
    accountId: string,
    supportSquare: int,
    supportCircle: int,
    supportTriangle: int)

  /** The counter of `sup` that belongs to faction `f`. */
  function Counter(sup: Support, f: Faction): int {
    match f
    case Square => sup.supportSquare
    case Circle => sup.supportCircle
    case Triangle => sup.supportTriangle
  }

  /** The record an account has before it ever contributed. */
  function Zero(account: string): (r: Support)
    ensures r.accountId == account
    ensures forall f :: Counter(r, f) == 0
  {
    Support(account, 0, 0, 0)
  }

  /** Credits `amount` to the counter of faction `f` only. */
  function Bump(sup: Support, f: Faction, amount: int): (r: Support)
    ensures r.accountId == sup.accountId
    ensures Counter(r, f) == Counter(sup, f) + amount
    ensures forall g :: g != f ==> Counter(r, g) == Counter(sup, g)
  {
    match f
    case Square => sup.(supportSquare := sup.supportSquare + amount)
    case Circle => sup.(supportCircle := sup.supportCircle + amount)
    case Triangle => sup.(supportTriangle := sup.supportTriangle + amount)
  }

  /** All three counters of a record are non-negative. */
  predicate NonNegative(sup: Support) {
    forall f :: Counter(sup, f) >= 0
  }

  /** The verdict on a support request: which faction it credits, or why it is
      refused. */
  datatype Outcome = Accepted(faction: Faction) | InvalidFaction | InvalidSupportAmount

  /** Validation of `add_support`: the faction tag is checked first, then the
      amount. */
  function Validate(support: int, faction: int): (r: Outcome)
    ensures r == InvalidFaction <==> faction < 1 || faction > 3
    ensures r == InvalidSupportAmount <==> 1 <= faction <= 3 && !(0 < support <= MaxSupport)
    ensures r.Accepted? <==> 1 <= faction <= 3 && 0 < support <= MaxSupport
    ensures r.Accepted? ==> Tag(r.faction) == faction
  {
    if faction < 1 || faction > 3 then InvalidFaction
    else if !(support > 0 && support <= MaxSupport) then InvalidSupportAmount
    else if faction == 1 then Accepted(Square)
    else if faction == 2 then Accepted(Circle)
    else Accepted(Triangle)
  }
}
