/** internal/activation/service.go and internal/entitlement/issuer.go: from a stored license to the terms it
    grants, and from those terms to the claims the issuer is willing to sign. */
module Entitlement {
  import opened Basics
  import opened Subscription

  datatype LicenseState = LicenseActive | LicenseRefunded | LicenseChargedBack | LicenseRevoked

  /** A row of `subscriptions`: the projection and, while restricted, when access ended. */
  datatype SubscriptionRow = SubscriptionRow(projection: Projection, terminalAt: Option<Time>)

  datatype Plan = PerpetualV1 | Monthly

  datatype LicenseRecord = LicenseRecord(plan: Plan, state: LicenseState, subscription: Option<SubscriptionRow>)

  /** Seconds since the epoch, as they go into the signed payload. */
  datatype IssuanceTerms = IssuanceTerms(
    plan: Plan, billingState: BillingState, billingPeriodEnd: int, recoveryUntil: int, refreshAfter: int,
    expiresAt: int)

  datatype TermsError = IncompleteSubscription | NoTerminalTime

  /** None: the license is not eligible now. */
  function EntitlementTerms(license: LicenseRecord, now: Time): Result<Option<IssuanceTerms>, TermsError> {
    match license.plan
    case PerpetualV1 =>
      if license.state != LicenseActive then Success(None)
      else Success(Some(IssuanceTerms(PerpetualV1, BillingUnset, 0, 0, 0, 0)))
    case Monthly =>
      if license.subscription.None? then Failure(IncompleteSubscription)
      else MonthlyEntitlementTerms(license.state, license.subscription.value, now)
  }

  function MonthlyEntitlementTerms(state: LicenseState, row: SubscriptionRow, now: Time)
    : Result<Option<IssuanceTerms>, TermsError>
  {
    match state
    case LicenseActive => TermsUntil(row, row.projection.state, row.projection.recoveryUntil, now)
    case LicenseRevoked => Success(None)
    case LicenseRefunded =>
      if row.terminalAt.None? then Failure(NoTerminalTime)
        else TermsUntil(row, BillingRefunded, row.terminalAt.value, now)
    case LicenseChargedBack =>
      if row.terminalAt.None? then Failure(NoTerminalTime)
        else TermsUntil(row, BillingChargedBack, row.terminalAt.value, now)
  }

  function TermsUntil(row: SubscriptionRow, billingState: BillingState, recoveryUntil: Time, now: Time)
    : Result<Option<IssuanceTerms>, TermsError>
  {
    var expiresAt := recoveryUntil + GRACE_PERIOD;
    if now >= expiresAt then Success(None)
    else
      var refreshAfter := Min(now + REFRESH_INTERVAL, expiresAt);
      Success(Some(IssuanceTerms(Monthly, billingState, UnixSeconds(row.projection.periodEnd),
                                 UnixSeconds(recoveryUntil), UnixSeconds(refreshAfter), UnixSeconds(expiresAt))))
  }

  // ----- the issuer -----

  const MAX_INT64: int := 0x7FFF_FFFF_FFFF_FFFF
  const MONTHLY_GRACE_SECONDS: int := 7 * 24 * 60 * 60

  datatype ClaimsError =
    | UnsupportedBillingState | NegativeTime | RefreshOutsideValidity | ExpiryNotSevenDaysAfterRecovery
    | RecoveryPrecedesPeriodEnd

  /** None: the claims are acceptable. */
  function ValidateMonthlyClaims(issuedAt: int, terms: IssuanceTerms): Option<ClaimsError> {
    if terms.billingState == BillingUnset then Some(UnsupportedBillingState)
    else if terms.billingPeriodEnd < 0 || terms.recoveryUntil < 0 || terms.refreshAfter < 0 || terms.expiresAt < 0 then
      Some(NegativeTime)
    else if issuedAt > terms.refreshAfter || terms.refreshAfter > terms.expiresAt then
      Some(RefreshOutsideValidity)
    else if terms.recoveryUntil > MAX_INT64 - MONTHLY_GRACE_SECONDS
            || terms.expiresAt != terms.recoveryUntil + MONTHLY_GRACE_SECONDS then
      Some(ExpiryNotSevenDaysAfterRecovery)
    else if terms.billingState in {BillingActive, BillingRecovering, BillingEnding, BillingLapsed}
            && terms.billingPeriodEnd > terms.recoveryUntil then
      Some(RecoveryPrecedesPeriodEnd)
    else None
  }

  // ----- what holds of every stored license -----

  /** The last instant a `timestamptz` column can hold, 31 December of year 294276. */
  const LAST_TIMESTAMP: Time := 9224318016000 * SECOND - 1

  /** A row as billing leaves it: see BillingInvariant.RowsInv, which every run keeps. */
  predicate ValidRow(state: LicenseState, row: SubscriptionRow) {
    && ValidProjection(row.projection)
    && (row.terminalAt.Some? ==> 0 < row.terminalAt.value <= row.projection.recoveryUntil)
    && (state == LicenseActive ==> row.terminalAt.None?)
    && (state in {LicenseRefunded, LicenseChargedBack} ==> row.terminalAt.Some?)
  }

  /** The instant a license's paid access, with its client grace, runs out; zero when it grants none. */
  function AccessEnds(state: LicenseState, row: SubscriptionRow): Time {
    match state
    case LicenseActive => row.projection.recoveryUntil + GRACE_PERIOD
    case LicenseRevoked => 0
    case _ => row.terminalAt.UnwrapOr(-GRACE_PERIOD) + GRACE_PERIOD
  }

  /** The issuer accepts every set of terms the service finds eligible, at every sub-second instant: rounding
      to seconds breaks neither `iat <= refresh_after <= exp` nor `exp = recovery_until + 604800`. */
  lemma IssuerAcceptsEligibleTerms(state: LicenseState, row: SubscriptionRow, now: Time)
    requires ValidRow(state, row)
    requires row.projection.recoveryUntil <= LAST_TIMESTAMP
    requires now >= 0
    ensures var terms := MonthlyEntitlementTerms(state, row, now);
            && terms.Success?
            && (terms.value.Some? <==> state != LicenseRevoked && now < AccessEnds(state, row))
            && (terms.value.Some? ==> ValidateMonthlyClaims(UnixSeconds(now), terms.value.value).None?)
  {
  }

  /** What the signed terms of a license say it is in: its billing state, or why it was restricted. */
  function SignedState(state: LicenseState, row: SubscriptionRow): BillingState {
    match state
    case LicenseRefunded => BillingRefunded
    case LicenseChargedBack => BillingChargedBack
    case _ => row.projection.state
  }

  /** The whole second that `t` falls into. */
  predicate IsSecondOf(second: int, t: Time) {
    second * SECOND <= t < (second + 1) * SECOND
  }

  /** A perpetual license is granted exactly while it is active, a monthly one exactly until its access ends. The terms
      give its state and the seconds in which its period and its access end; recovery is seven days before expiry,
      and the refresh a week after issue or at expiry, whichever comes first. Only a restriction without its time, or
      a monthly license without a row, is an error. */
  lemma GrantsExactly(license: LicenseRecord, now: Time)
    ensures var r := EntitlementTerms(license, now);
            match license.plan
            case PerpetualV1 =>
              && r.Success? && (r.value.Some? <==> license.state == LicenseActive)
              && (r.value.Some? ==> r.value.value.plan == PerpetualV1)
            case Monthly =>
              var row, restricted := license.subscription, license.state in {LicenseRefunded, LicenseChargedBack};
              && (r.Failure? <==> row.None? || (restricted && row.value.terminalAt.None?))
              && (r.Success? ==>
                    var until := AccessEnds(license.state, row.value);
                    && (r.value.Some? <==> license.state != LicenseRevoked && now < until)
                    && (r.value.Some? ==>
                          var terms := r.value.value;
                          && terms.plan == Monthly && terms.billingState == SignedState(license.state, row.value)
                          && IsSecondOf(terms.billingPeriodEnd, row.value.projection.periodEnd)
                          && IsSecondOf(terms.expiresAt, until)
                          && terms.expiresAt == terms.recoveryUntil + 604800
                          && (if terms.refreshAfter < terms.expiresAt
                              then IsSecondOf(terms.refreshAfter - 604800, now)
                              else terms.refreshAfter == terms.expiresAt && until < now + 604801 * SECOND)))
  {
  }

  /** The issuer signs monthly claims exactly when they name a state, no time is negative or out of range, the refresh
      lies between issue and expiry, expiry is seven days after recovery, and an unrestricted license recovers no
      earlier than its period ends. */
  lemma ClaimsAcceptedIff(issuedAt: int, terms: IssuanceTerms)
    ensures ValidateMonthlyClaims(issuedAt, terms).None?
            <==> && terms.billingState != BillingUnset
                 && 0 <= terms.billingPeriodEnd && 0 <= terms.recoveryUntil && 0 <= terms.refreshAfter
                 && issuedAt <= terms.refreshAfter <= terms.expiresAt == terms.recoveryUntil + 604800 <= MAX_INT64
                 && (terms.billingState in {BillingRefunded, BillingChargedBack}
                     || terms.billingPeriodEnd <= terms.recoveryUntil)
  {
  }

  /** The row constraint `billing_period_end <= recovery_until` is what an active license's claims rest on:
      eligible terms are accepted exactly when the stored times keep that order to the second. */
  lemma ActiveTermsAcceptedIff(row: SubscriptionRow, now: Time)
    requires row.projection.state in {BillingActive, BillingRecovering, BillingEnding, BillingLapsed}
    requires row.projection.periodEnd >= 0 && 0 <= row.projection.recoveryUntil <= LAST_TIMESTAMP && now >= 0
    requires now < row.projection.recoveryUntil + GRACE_PERIOD
    ensures var terms := MonthlyEntitlementTerms(LicenseActive, row, now).value.value;
            ValidateMonthlyClaims(UnixSeconds(now), terms).None?
            <==> UnixSeconds(row.projection.periodEnd) <= UnixSeconds(row.projection.recoveryUntil)
  {
  }

  /** No signed entitlement outlives the paid period by more than 21 days. */
  lemma EntitlementNeverOutrunsPayment(state: LicenseState, row: SubscriptionRow, now: Time)
    requires ValidRow(state, row)
    ensures var terms := MonthlyEntitlementTerms(state, row, now);
            terms.Success? && (terms.value.Some? ==>
              terms.value.value.expiresAt <= UnixSeconds(row.projection.periodEnd) + 21 * 24 * 3600)
  {
  }
}
