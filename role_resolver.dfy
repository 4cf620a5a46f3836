/**
 * Role resolution: the free-text `roleType` label sent by the payment side is
 * classified, by case-sensitive substring match, into one of the two VIP roles of
 * the Discord server. The monthly marker is checked first, so it wins over the
 * lifetime marker when a label contains both.
 */
module RoleResolver {

  import opened Js

  /** A Discord role snowflake, kept as the decimal string the platform uses. */
  type RoleId = string

  const VIP_MONTHLY_ROLE_ID: RoleId := "1421670147709468762"
  const VIP_LIFETIME_ROLE_ID: RoleId := "1421735904401297489"

  const MONTHLY_MARKER := "Mensuel"
  const LIFETIME_MARKER := "Vie"

  const UNKNOWN_ROLE_TYPE := "Type de rôle inconnu: "

  /** A resolved value, or the message of the error the source throws. */
  datatype Result<T> = Ok(value: T) | Err(message: string)

  /** Classifies a role label; an unrecognised label is an error that quotes it. */
  function Resolve(roleType: string): (r: Result<RoleId>)
    ensures Occurs(roleType, MONTHLY_MARKER) ==> r == Ok(VIP_MONTHLY_ROLE_ID)
    ensures !Occurs(roleType, MONTHLY_MARKER) && Occurs(roleType, LIFETIME_MARKER) ==>
              r == Ok(VIP_LIFETIME_ROLE_ID)
    ensures !Occurs(roleType, MONTHLY_MARKER) && !Occurs(roleType, LIFETIME_MARKER) ==>
              r == Err(UNKNOWN_ROLE_TYPE + roleType)
  {
    if Includes(roleType, MONTHLY_MARKER) then Ok(VIP_MONTHLY_ROLE_ID)
    else if Includes(roleType, LIFETIME_MARKER) then Ok(VIP_LIFETIME_ROLE_ID)
    else Err(UNKNOWN_ROLE_TYPE + roleType)
  }

  /** A label naming both markers resolves to the monthly role. */
  lemma MonthlyMarkerTakesPriority(roleType: string)
    requires Occurs(roleType, MONTHLY_MARKER) && Occurs(roleType, LIFETIME_MARKER)
    ensures Resolve(roleType) == Ok(VIP_MONTHLY_ROLE_ID)
  {
  }

  /** A label with the lifetime marker and without the monthly one resolves to the lifetime role. */
  lemma LifetimeLabelResolves(roleType: string)
    requires !Occurs(roleType, MONTHLY_MARKER) && Occurs(roleType, LIFETIME_MARKER)
    ensures Resolve(roleType) == Ok(VIP_LIFETIME_ROLE_ID)
  {
  }

  /** Matching is case-sensitive: a lower-case "vie" is not the lifetime marker. */
  lemma MarkersAreCaseSensitive()
    ensures Resolve("abonnement à vie") == Err(UNKNOWN_ROLE_TYPE + "abonnement à vie")
  {
    AbsentFirstChar("abonnement à vie", MONTHLY_MARKER);
    AbsentFirstChar("abonnement à vie", LIFETIME_MARKER);
  }
}
