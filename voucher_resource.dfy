/**
 * The admin panel's voucher form and table (`VoucherResource`): the form defaults, the usage
 * summary, the discount display, and the expired/active-period filters.
 */
module VoucherResource {
  import opened Wrappers
  import Php
  import opened Records

  /** The values a new voucher form starts with. */
  datatype FormDefaults = FormDefaults(discountType: string, minPurchase: int, totalUsageLimit: nat, userUsageLimit: nat, isActive: bool)

  const Defaults := FormDefaults("flat", 0, 1, 1, true)

  /** Uses left: the total limit minus the uses, not clamped. */
  function Remaining(v: Voucher, usages: nat): (r: int)
    ensures r + usages == v.totalUsageLimit
  {
    v.totalUsageLimit - usages
  }

  /** The usage summary placeholder; None is a form without a record. */
  function UsageInfo(record: Option<Voucher>, usages: nat): (text: string)
    ensures record.None? ==> text == "No usage data available."
    ensures record.Some? ==> Php.StartsWith(text, "Used: ")
  {
    match record
    case None => "No usage data available."
    case Some(v) =>
      "Used: " + Php.IntToString(usages) + "/" + Php.IntToString(v.totalUsageLimit)
      + " (" + Php.IntToString(Remaining(v, usages)) + " remaining)"
  }

  /** The badge colour of the discount type. */
  function TypeColor(discountType: string): (color: string)
    ensures discountType == "percentage" ==> color == "info"
    ensures discountType == "flat" ==> color == "warning"
    ensures discountType != "percentage" && discountType != "flat" ==> color == "gray"
  {
    if discountType == "percentage" then "info"
    else if discountType == "flat" then "warning"
    else "gray"
  }

  /** How a DECIMAL(15,2) value of `cents` hundredths reads as a string: "I.FF". */
  function DecimalText(cents: int): (text: string)
    ensures |text| >= 4 && text[|text| - 3] == '.'
  {
    var a := if cents < 0 then -cents else cents;
    var frac := a % 100;
    (if cents < 0 then "-" else "") + Php.NatToString(a / 100) + "." + [Php.DigitChar(frac / 10), Php.DigitChar(frac % 10)]
  }

  /** The value column: percentages as the stored decimal and '%'; anything else in rupiah, grouped by '.'. */
  function DisplayValue(v: Voucher): (text: string)
    ensures v.discountType == "percentage" ==> text == DecimalText(v.discountValue) + "%"
    ensures v.discountType != "percentage" ==> Php.StartsWith(text, "Rp ")
  {
    if v.discountType == "percentage" then DecimalText(v.discountValue) + "%"
    else "Rp " + Php.NumberFormat0(v.discountValue as real / 100.0)
  }

  /**
   * A non-percentage display is 'Rp ' and the rounded rupiah amount: removing the thousands
   * separators leaves its plain decimal digits.
   */
  lemma FlatDisplayDigits(v: Voucher)
    requires v.discountType != "percentage" && v.discountValue >= 0
    ensures var text := DisplayValue(v);
      var n := Php.Round(v.discountValue as real / 100.0);
      n >= 0 && text[..3] == "Rp " && Php.WithoutDots(text[3..]) == Php.NatToString(n)
  {
    var n := Php.Round(v.discountValue as real / 100.0);
    Php.GroupThousandsDigits(n);
    assert DisplayValue(v)[3..] == Php.GroupThousands(n);
  }

  predicate ExpiredFilter(v: Voucher, now: int) {
    v.endDate < now
  }

  predicate ActivePeriodFilter(v: Voucher, now: int) {
    v.startDate <= now <= v.endDate
  }

  /** No voucher is both expired and in its active period. */
  lemma FiltersDisjoint(v: Voucher, now: int)
    ensures !(ExpiredFilter(v, now) && ActivePeriodFilter(v, now))
  {
  }

  /** A new voucher starts as a flat discount, usable once per user and once in total. */
  lemma DefaultsAreFlatSingleUse()
    ensures Defaults.discountType == "flat" && TypeColor(Defaults.discountType) == "warning"
    ensures Defaults.totalUsageLimit == 1 && Defaults.userUsageLimit == 1
    ensures Defaults.minPurchase == 0 && Defaults.isActive
  {
  }
}
