/** The storefront API's `VoucherController::index`: the vouchers a customer can still use. */
module VoucherController {
  import opened Records
  import Sorting

  /** Listed: active and not yet ended. The start date, usage limits and minimum purchase play no part. */
  predicate Listed(v: Voucher, now: int) {
    v.isActive && v.endDate >= now
  }

  function VoucherEnd(v: Voucher): int {
    v.endDate
  }

  /** `VoucherController::index`: the listed vouchers, soonest end first. */
  function Index(vouchers: seq<Voucher>, now: int): (r: seq<Voucher>)
    ensures forall i :: 0 <= i < |r| ==> r[i] in vouchers && r[i].isActive && r[i].endDate >= now
    ensures forall k :: 0 <= k < |vouchers| && vouchers[k].isActive && vouchers[k].endDate >= now ==> vouchers[k] in r
    ensures forall i, j :: 0 <= i < j < |r| ==> r[i].endDate <= r[j].endDate
    ensures |r| == |Filter(vouchers, (v: Voucher) => Listed(v, now))|
    ensures multiset(r) == multiset(Filter(vouchers, (v: Voucher) => Listed(v, now)))
  {
    var listed := Filter(vouchers, (v: Voucher) => Listed(v, now));
    Sorting.SortByKeyMembers(listed, VoucherEnd);
    Sorting.SortByKey(listed, VoucherEnd)
  }

  /** A voucher that has ended or is inactive is never listed. */
  lemma NeverListed(vouchers: seq<Voucher>, v: Voucher, now: int)
    requires !v.isActive || v.endDate < now
    ensures v !in Index(vouchers, now)
  {
  }

  /**
   * Whether a voucher is listed depends only on is_active and end_date: a voucher that has not
   * started yet is listed, whatever its usage limits and minimum purchase.
   */
  lemma ListingIgnores(v: Voucher, now: int, start: int, minPurchase: int, totalLimit: nat, userLimit: nat)
    ensures var w := v.(startDate := start, minPurchase := minPurchase, totalUsageLimit := totalLimit, userUsageLimit := userLimit);
      (w in Index([w], now) <==> v in Index([v], now))
  {
    var w := v.(startDate := start, minPurchase := minPurchase, totalUsageLimit := totalLimit, userUsageLimit := userLimit);
    if Listed(v, now) {
      assert [v][0] == v && [w][0] == w;
    }
  }
}
