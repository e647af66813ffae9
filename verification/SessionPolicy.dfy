/** The ceilings a refresh has to clear once its token has been claimed or replayed. */
module SessionPolicy {
  import opened Options
  import opened RefreshRows

  type Slug = nat

  /** Deployment settings, all in seconds. `idle` and `absolute` are off when not positive. */
  datatype Limits = Limits(grace: int, lifetime: nat, leeway: nat, idle: int, absolute: int, ssoMax: int)

  /** The signed contents of a refresh token. */
  datatype Claims = Claims(
    sub: UserId, jti: Jti, family: Family, exp: int, authTime: Option<int>,
    idpExp: Option<int>, pwfb: Option<int>, mintMs: int)

  /** What the transaction reads about the account and its surroundings: whether it may still
      sign in, its `sessions_valid_from` cutoff, whether the password door that opened a
      fallback session is still open, the slugs of the providers it has identities with, and
      the slug of the one used last. */
  datatype Account = Account(active: bool, validFromMs: Option<int>, doorOpen: bool,
                             slugs: map<Provider, Slug>, latest: Option<Slug>)

  /** Where a session would be sent back to: its own provider if the account still has it. */
  function ReauthSlug(account: Account, provider: Option<Provider>): Option<Slug> {
    if provider.Some? && provider.value in account.slugs then Some(account.slugs[provider.value]) else account.latest
  }

  datatype Denial =
    | UserInactive | SessionsRevoked | FallbackEnded | SessionIdle | SessionExpired
    | ReauthCeiling | UpstreamExpired

  datatype Ruling = Allowed | Denied(why: Denial)

  predicate PredatesCutoff(mintMs: int, cutoff: Option<int>) {
    cutoff.Some? && mintMs > 0 && mintMs < cutoff.value
  }

  predicate InOutage(slug: Option<Slug>, outage: set<Slug>) {
    slug.Some? && slug.value in outage
  }

  function Rule(lim: Limits, claims: Claims, record: Record, startedMs: Option<int>, account: Account,
                outage: set<Slug>, now: int): Ruling {
    var t := Seconds(now);
    if !account.active then Denied(UserInactive)
    else if PredatesCutoff(claims.mintMs, account.validFromMs) then Denied(SessionsRevoked)
    else if claims.pwfb.Some? && (t > claims.pwfb.value || !account.doorOpen) then Denied(FallbackEnded)
    else if lim.idle > 0 && t - record.MintSecond() > lim.idle then Denied(SessionIdle)
    else if lim.absolute > 0 && startedMs.Some? && t - startedMs.value / 1000 > lim.absolute
    then Denied(SessionExpired)
    else if && record.authTime.Some? && t - record.authTime.value > lim.ssoMax
            && !(InOutage(ReauthSlug(account, record.provider), outage) && t - record.authTime.value <= 2 * lim.ssoMax)
    then Denied(ReauthCeiling)
    else if claims.idpExp.Some? && t > claims.idpExp.value then Denied(UpstreamExpired)
    else Allowed
  }

  /** Whether an unconfirmed session has used up its outage allowance. */
  predicate LivenessGraceExpired(lastChecked: Option<int>, grace: int, now: int) {
    lastChecked.None? || Seconds(now) - lastChecked.value > Max(0, grace)
  }

  /** What the boot check accepts of the two lifetimes. */
  predicate BootAccepts(lim: Limits) {
    lim.absolute <= lim.lifetime
  }

  /** The longest a token can sit before its next accepted rotation. */
  function LongestGap(lim: Limits): int
    requires lim.absolute > 0
  {
    if lim.idle > 0 then Min(lim.idle, lim.absolute) else lim.absolute
  }
}
