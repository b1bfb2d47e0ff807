// The supporter tiers and the policy read off them (libs/core/mitup_bot/supporter.py).
module Supporter {
  import opened Wrappers

  datatype SupporterLevel = NoLevel | Host1 | Host2 | Host3

  const LEVEL_ORDER: seq<SupporterLevel> := [NoLevel, Host1, Host2, Host3]

  function Rank(level: SupporterLevel): (rank: nat)
    ensures rank < |LEVEL_ORDER| && LEVEL_ORDER[rank] == level
  {
    match level
    case NoLevel => 0
    case Host1 => 1
    case Host2 => 2
    case Host3 => 3
  }

  predicate Meets(level: SupporterLevel, minimum: SupporterLevel) {
    Rank(level) >= Rank(minimum)
  }

  predicate IsSupporter(level: SupporterLevel) {
    Meets(level, Host1)
  }

  function Highest(a: SupporterLevel, b: SupporterLevel): (level: SupporterLevel)
    ensures level == a || level == b
    ensures Meets(level, a) && Meets(level, b)
  {
    if Rank(b) > Rank(a) then b else a
  }

  datatype PatreonConfig = PatreonConfig(patronMinCents: int, organizerMinCents: int)

  function LevelForAmount(cents: int, config: PatreonConfig): (level: SupporterLevel)
    ensures IsSupporter(level)
    ensures Meets(level, Host3) <==> cents >= config.organizerMinCents
    ensures Meets(level, Host2) <==> cents >= config.organizerMinCents || cents >= config.patronMinCents
  {
    if cents >= config.organizerMinCents then Host3
    else if cents >= config.patronMinCents then Host2
    else Host1
  }

  function ParticipantCapacity(level: SupporterLevel, freeParticipantCapacity: int): (cap: Option<int>)
    ensures cap == if Meets(level, Host2) then None else Some(freeParticipantCapacity)
  {
    match level
    case NoLevel | Host1 => Some(freeParticipantCapacity)
    case Host2 | Host3 => None
  }
}
