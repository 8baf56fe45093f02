/**
 * The admin panel's deposit-voucher table (`DepositVoucherResource`): the status badge and its
 * colour, the usage summary, and the expired/active-period/used-up filters.
 */
module DepositVoucherResource {
  import opened Wrappers
  import Php
  import opened Records

  /** Expired: an expiry instant that `now` is strictly after. A null expiry never expires. */
  predicate IsExpired(v: DepositVoucher, now: int) {
    v.expiredAt.Some? && now > v.expiredAt.value
  }

  /** The status badge, by precedence: inactive, expired, used up, active. */
  function Status(v: DepositVoucher, usages: nat, now: int): (status: string)
    ensures !v.isActive ==> status == "Inactive"
    ensures v.isActive && IsExpired(v, now) ==> status == "Expired"
    ensures v.isActive && !IsExpired(v, now) && usages >= v.usageLimit ==> status == "Used Up"
    ensures status == "Active" <==> v.isActive && !IsExpired(v, now) && usages < v.usageLimit
  {
    if !v.isActive then "Inactive"
    else if v.expiredAt.Some? && now > v.expiredAt.value then "Expired"
    else if usages >= v.usageLimit then "Used Up"
    else "Active"
  }

  function Color(v: DepositVoucher, usages: nat, now: int): string {
    if !v.isActive then "danger"
    else if v.expiredAt.Some? && now > v.expiredAt.value then "gray"
    else if usages >= v.usageLimit then "warning"
    else "success"
  }

  function ColorOf(status: string): string {
    if status == "Inactive" then "danger"
    else if status == "Expired" then "gray"
    else if status == "Used Up" then "warning"
    else "success"
  }

  /** Colour always matches status. */
  lemma ColorMatchesStatus(v: DepositVoucher, usages: nat, now: int)
    ensures Color(v, usages, now) == ColorOf(Status(v, usages, now))
  {
  }

  /** Uses left: the limit minus the uses, not clamped. */
  function Remaining(v: DepositVoucher, usages: nat): (r: int)
    ensures r + usages == v.usageLimit
  {
    v.usageLimit - usages
  }

  /** No uses left exactly when an active, unexpired voucher is shown as used up; the count can go negative. */
  lemma RemainingAndStatus(v: DepositVoucher, usages: nat, now: int)
    requires v.isActive && !IsExpired(v, now)
    ensures Remaining(v, usages) <= 0 <==> Status(v, usages, now) == "Used Up"
    ensures usages > v.usageLimit ==> Remaining(v, usages) < 0
  {
  }

  /** The usage summary placeholder; None is a form without a record. */
  function UsageInfo(record: Option<DepositVoucher>, usages: nat, now: int): (text: string)
    ensures record.None? ==> text == "No voucher data available."
    ensures record.Some? ==> Php.StartsWith(text, "Status: ")
  {
    match record
    case None => "No voucher data available."
    case Some(v) =>
      "Status: " + (if v.isActive then "Active" else "Inactive")
      + "\nPeriod: " + (if IsExpired(v, now) then "Expired" else "Valid")
      + "\nUsed: " + Php.IntToString(usages) + "/" + Php.IntToString(v.usageLimit)
      + "\nRemaining: " + Php.IntToString(Remaining(v, usages))
  }

  /** `expired_at < now`; a null expiry compares as unknown and is not selected. */
  predicate ExpiredFilter(v: DepositVoucher, now: int) {
    v.expiredAt.Some? && v.expiredAt.value < now
  }

  /** `expired_at > now OR expired_at IS NULL` */
  predicate ActivePeriodFilter(v: DepositVoucher, now: int) {
    v.expiredAt.None? || v.expiredAt.value > now
  }

  /** `usages >= usage_limit` */
  predicate UsedUpFilter(v: DepositVoucher, usages: nat) {
    usages >= v.usageLimit
  }

  /**
   * The two period filters never overlap, and together they miss exactly the vouchers that
   * expire at this very instant.
   */
  lemma PeriodFilters(v: DepositVoucher, now: int)
    ensures !(ExpiredFilter(v, now) && ActivePeriodFilter(v, now))
    ensures !ExpiredFilter(v, now) && !ActivePeriodFilter(v, now) <==> v.expiredAt == Some(now)
    ensures ExpiredFilter(v, now) <==> IsExpired(v, now)
  {
  }

  /** Inactive wins over every other condition. */
  lemma InactiveWins(v: DepositVoucher, usages: nat, now: int)
    requires !v.isActive && IsExpired(v, now) && UsedUpFilter(v, usages)
    ensures Status(v, usages, now) == "Inactive"
  {
  }
}
