/**
 * The closed set of cacheable resources and the two static tables over it:
 * the cache-busting version of each resource and its time to live in
 * seconds. Both tables are total functions on the closed set, so they are
 * defined over exactly the same seven resources.
 */
module CacheConfig {

  datatype Resource =
    | Team
    | TeamDetails
    | TeamPlayers
    | Player
    | Matches
    | MatchDetails
    | MatchStats

  /** The resource's name as it appears in a cache key. */
  function Name(r: Resource): string {
    match r
    case Team => "team"
    case TeamDetails => "teamDetails"
    case TeamPlayers => "teamPlayers"
    case Player => "player"
    case Matches => "matches"
    case MatchDetails => "matchDetails"
    case MatchStats => "matchStats"
  }

  /** The version of each resource; incremented only when the resource's
    * response shape changes. */
  function Version(r: Resource): int {
    match r
    case Team => 1
    case TeamDetails => 1
    case TeamPlayers => 1
    case Player => 1
    case Matches => 1
    case MatchDetails => 1
    case MatchStats => 1
  }

  /** Time to live of each resource, in seconds. */
  function Ttl(r: Resource): int {
    match r
    case Team => 24 * 60 * 60
    case TeamDetails => 12 * 60 * 60
    case TeamPlayers => 6 * 60 * 60
    case Player => 12 * 60 * 60
    case Matches => 2 * 60
    case MatchDetails => 1 * 60
    case MatchStats => 1 * 60
  }

  /** Every version is currently 1, so at least 1; every TTL is positive. */
  lemma TablesArePositive()
    ensures forall r :: Version(r) == 1
    ensures forall r :: Ttl(r) > 0
  {
  }

  /** `team` lives longest, match details and statistics shortest. */
  lemma TtlOrdering()
    ensures Ttl(Team) == 86400
    ensures Ttl(TeamDetails) == Ttl(Player) == 43200
    ensures Ttl(TeamPlayers) == 21600
    ensures Ttl(Matches) == 120
    ensures Ttl(MatchDetails) == Ttl(MatchStats) == 60
    ensures forall r :: Ttl(MatchStats) <= Ttl(r) <= Ttl(Team)
  {
  }

  /** Distinct resources have distinct names, and no name contains the key
    * separator `_`. */
  lemma NamesAreDistinct(a: Resource, b: Resource)
    ensures Name(a) == Name(b) ==> a == b
    ensures '_' !in Name(a)
  {
  }
}
