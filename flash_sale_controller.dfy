/**
 * The storefront API's `FlashSaleController`: the running and upcoming flash sales with their
 * products, a discount against the base price, and countdowns that never go below zero.
 */
module FlashSaleController {
  import opened Wrappers
  import Php
  import opened Records
  import Models
  import Sorting

  /** A product attached to a flash sale, with the pivot's discounted_price and stock. */
  datatype SaleProduct = SaleProduct(product: Product, discountedPrice: Option<real>, stock: Option<int>)

  /** A row of `flash_sales` with its `products` relation. */
  datatype SaleRow = SaleRow(sale: FlashSale, products: seq<SaleProduct>)

  datatype SaleProductView = SaleProductView(
    id: int, name: string, description: Option<string>, basePrice: real,
    discountedPrice: Option<real>, discountPercentage: int, stock: Option<int>,
    iconUrl: Option<string>, provider: string, providerSku: string)

  /** A listed sale; `seconds` is remaining_seconds (index, show) or time_until_start (upcoming). */
  datatype SaleView = SaleView(
    id: int, name: string, startDate: int, endDate: int, seconds: int,
    isActive: bool, products: seq<SaleProductView>, totalProducts: int)

  /** `$x > 0 ? $x : 0` */
  function Clamp(x: int): (r: int)
    ensures r >= 0
    ensures r >= x
    ensures r == x || r == 0
  {
    if x > 0 then x else 0
  }

  /**
   * The discount of a sale product in whole percent, against its base price; a null pivot price
   * counts as 0, and a base price that is not positive gives 0.
   */
  function BaseDiscount(basePrice: real, discounted: Option<real>): (d: int)
    ensures basePrice <= 0.0 ==> d == 0
    ensures basePrice > 0.0 ==> (d as real) - 0.5 <= (basePrice - discounted.GetOr(0.0)) / basePrice * 100.0 <= (d as real) + 0.5
    ensures basePrice > 0.0 ==> d == Php.Round((basePrice - discounted.GetOr(0.0)) / basePrice * 100.0)
  {
    if basePrice > 0.0 then Php.Round((basePrice - discounted.GetOr(0.0)) / basePrice * 100.0) else 0
  }

  /** A sale price between 0 and the base price gives a discount between 0 and 100; no pivot price gives 100. */
  lemma BaseDiscountRange(basePrice: real, discounted: Option<real>)
    requires basePrice > 0.0
    ensures discounted.None? ==> BaseDiscount(basePrice, discounted) == 100
    ensures 0.0 <= discounted.GetOr(0.0) <= basePrice ==> 0 <= BaseDiscount(basePrice, discounted) <= 100
  {
    var x := (basePrice - discounted.GetOr(0.0)) / basePrice * 100.0;
    Php.RoundOfInteger(100);
    if discounted.None? {
      assert x == 100.0;
    }
    if 0.0 <= discounted.GetOr(0.0) <= basePrice {
      var q := (basePrice - discounted.GetOr(0.0)) / basePrice;
      assert q * basePrice == basePrice - discounted.GetOr(0.0);
      assert q <= 1.0 by {
        assert q * basePrice <= 1.0 * basePrice;
      }
      assert 0.0 <= x <= 100.0;
      Php.RoundMonotonic(x, 100.0);
    }
  }

  predicate SaleProductActive(sp: SaleProduct) {
    sp.product.isActive
  }

  function SaleProductOrder(sp: SaleProduct): int {
    sp.product.displayOrder
  }

  /** A sale product as listed: the product's columns, the pivot's price and stock, and the discount. */
  function SaleProductViewOf(env: Models.Env, sp: SaleProduct): (v: SaleProductView)
    ensures v.id == sp.product.id && v.name == sp.product.name && v.description == sp.product.description
    ensures v.basePrice == sp.product.basePrice && v.provider == sp.product.provider && v.providerSku == sp.product.providerSku
    ensures v.discountedPrice == sp.discountedPrice && v.stock == sp.stock
    ensures v.discountPercentage == BaseDiscount(sp.product.basePrice, sp.discountedPrice)
    ensures v.iconUrl == Models.ProductIconUrl(env, sp.product.iconPath)
  {
    var p := sp.product;
    SaleProductView(
      p.id, p.name, p.description, p.basePrice, sp.discountedPrice,
      BaseDiscount(p.basePrice, sp.discountedPrice), sp.stock,
      Models.ProductIconUrl(env, p.iconPath), p.provider, p.providerSku)
  }

  /** The products the `products` relation loads: the active ones, by display order. */
  function ListedSaleProducts(row: SaleRow): (r: seq<SaleProduct>)
    ensures Sorting.SortedByKey(r, SaleProductOrder)
    ensures multiset(r) == multiset(Filter(row.products, SaleProductActive))
    ensures |r| == |Filter(row.products, SaleProductActive)|
    ensures forall i :: 0 <= i < |r| ==> r[i].product.isActive
  {
    var active := Filter(row.products, SaleProductActive);
    var r := Sorting.SortByKey(active, SaleProductOrder);
    assert forall i :: 0 <= i < |r| ==> r[i] in multiset(active);
    r
  }

  /** The sale's products as listed: one view per listed product, in the same order. */
  function ProductViews(env: Models.Env, row: SaleRow): (r: seq<SaleProductView>)
    ensures |r| == |ListedSaleProducts(row)|
    ensures forall i :: 0 <= i < |r| ==> r[i] == SaleProductViewOf(env, ListedSaleProducts(row)[i])
  {
    var ps := ListedSaleProducts(row);
    seq(|ps|, i requires 0 <= i < |ps| => SaleProductViewOf(env, ps[i]))
  }

  /** A running sale: active, and `now` within its window, both ends inclusive. */
  predicate RowRunning(row: SaleRow, now: int) {
    row.sale.isActive && row.sale.startDate <= now <= row.sale.endDate
  }

  /** An upcoming sale: active and not yet started. */
  predicate RowUpcoming(row: SaleRow, now: int) {
    row.sale.isActive && row.sale.startDate > now
  }

  function RowEnd(row: SaleRow): int {
    row.sale.endDate
  }

  function RowStart(row: SaleRow): int {
    row.sale.startDate
  }

  function RunningView(env: Models.Env, row: SaleRow, now: int): (v: SaleView)
    ensures v.id == row.sale.id && v.startDate == row.sale.startDate && v.endDate == row.sale.endDate
    ensures v.name == row.sale.name && v.isActive == row.sale.isActive
    ensures v.seconds == Clamp(row.sale.endDate - now)
    ensures v.products == ProductViews(env, row)
    ensures v.totalProducts == |v.products|
  {
    var ps := ProductViews(env, row);
    SaleView(row.sale.id, row.sale.name, row.sale.startDate, row.sale.endDate,
      Clamp(row.sale.endDate - now), row.sale.isActive, ps, |ps|)
  }

  function UpcomingView(env: Models.Env, row: SaleRow, now: int): (v: SaleView)
    ensures v.id == row.sale.id && v.startDate == row.sale.startDate && v.endDate == row.sale.endDate
    ensures v.name == row.sale.name && v.isActive == row.sale.isActive
    ensures v.seconds == Clamp(row.sale.startDate - now)
    ensures v.products == ProductViews(env, row)
    ensures v.totalProducts == |v.products|
  {
    var ps := ProductViews(env, row);
    SaleView(row.sale.id, row.sale.name, row.sale.startDate, row.sale.endDate,
      Clamp(row.sale.startDate - now), row.sale.isActive, ps, |ps|)
  }

  datatype SaleList = SaleList(data: seq<SaleView>, total: int)

  /** The running sales, by end date (`where … orderBy('end_date')`). */
  function RunningRows(rows: seq<SaleRow>, now: int): (r: seq<SaleRow>)
    ensures |r| == |Filter(rows, (row: SaleRow) => RowRunning(row, now))|
    ensures multiset(r) == multiset(Filter(rows, (row: SaleRow) => RowRunning(row, now)))
    ensures forall i :: 0 <= i < |r| ==> RowRunning(r[i], now)
    ensures forall i, j :: 0 <= i < j < |r| ==> r[i].sale.endDate <= r[j].sale.endDate
    ensures forall k :: 0 <= k < |rows| && RowRunning(rows[k], now) ==> rows[k] in r
  {
    var running := Filter(rows, (row: SaleRow) => RowRunning(row, now));
    Sorting.SortByKeyMembers(running, RowEnd);
    Sorting.SortByKey(running, RowEnd)
  }

  /** The upcoming sales, by start date (`where … orderBy('start_date')`). */
  function UpcomingRows(rows: seq<SaleRow>, now: int): (r: seq<SaleRow>)
    ensures |r| == |Filter(rows, (row: SaleRow) => RowUpcoming(row, now))|
    ensures multiset(r) == multiset(Filter(rows, (row: SaleRow) => RowUpcoming(row, now)))
    ensures forall i :: 0 <= i < |r| ==> RowUpcoming(r[i], now)
    ensures forall i, j :: 0 <= i < j < |r| ==> r[i].sale.startDate <= r[j].sale.startDate
    ensures forall k :: 0 <= k < |rows| && RowUpcoming(rows[k], now) ==> rows[k] in r
  {
    var upcoming := Filter(rows, (row: SaleRow) => RowUpcoming(row, now));
    Sorting.SortByKeyMembers(upcoming, RowStart);
    Sorting.SortByKey(upcoming, RowStart)
  }

  /** The views of running sales, one per row and in the same order. */
  function RunningViews(env: Models.Env, listed: seq<SaleRow>, now: int): (data: seq<SaleView>)
    requires forall i :: 0 <= i < |listed| ==> RowRunning(listed[i], now)
    ensures |data| == |listed|
    ensures forall i :: 0 <= i < |data| ==> data[i] == RunningView(env, listed[i], now)
    ensures forall i :: 0 <= i < |data| ==> data[i].id == listed[i].sale.id && data[i].endDate == listed[i].sale.endDate
    ensures forall i :: 0 <= i < |data| ==> data[i].isActive && data[i].startDate <= now <= data[i].endDate
    ensures forall i :: 0 <= i < |data| ==> data[i].seconds == data[i].endDate - now
  {
    var data := seq(|listed|, i requires 0 <= i < |listed| => RunningView(env, listed[i], now));
    forall i | 0 <= i < |data|
      ensures data[i].isActive && data[i].startDate <= now <= data[i].endDate
      ensures data[i].seconds == data[i].endDate - now
    {
      assert RowRunning(listed[i], now);
    }
    data
  }

  /** The views of upcoming sales, one per row and in the same order. */
  function UpcomingViews(env: Models.Env, listed: seq<SaleRow>, now: int): (data: seq<SaleView>)
    requires forall i :: 0 <= i < |listed| ==> RowUpcoming(listed[i], now)
    ensures |data| == |listed|
    ensures forall i :: 0 <= i < |data| ==> data[i] == UpcomingView(env, listed[i], now)
    ensures forall i :: 0 <= i < |data| ==> data[i].id == listed[i].sale.id && data[i].startDate == listed[i].sale.startDate
    ensures forall i :: 0 <= i < |data| ==> data[i].isActive && data[i].startDate > now
    ensures forall i :: 0 <= i < |data| ==> data[i].seconds == data[i].startDate - now
  {
    var data := seq(|listed|, i requires 0 <= i < |listed| => UpcomingView(env, listed[i], now));
    forall i | 0 <= i < |data|
      ensures data[i].isActive && data[i].startDate > now
      ensures data[i].seconds == data[i].startDate - now
    {
      assert RowUpcoming(listed[i], now);
    }
    data
  }

  /**
   * `FlashSaleController::index`: exactly the running sales, by end date, each with the seconds
   * left until it ends; the count in the meta block is the number listed.
   */
  function Index(env: Models.Env, rows: seq<SaleRow>, now: int): (r: SaleList)
    ensures r.total == |r.data| == |Filter(rows, (row: SaleRow) => RowRunning(row, now))|
    ensures forall i :: 0 <= i < |r.data| ==> r.data[i].isActive && r.data[i].startDate <= now <= r.data[i].endDate
    ensures forall i :: 0 <= i < |r.data| ==> r.data[i].seconds == r.data[i].endDate - now >= 0
    ensures forall i, j :: 0 <= i < j < |r.data| ==> r.data[i].endDate <= r.data[j].endDate
    ensures forall k :: 0 <= k < |rows| && RowRunning(rows[k], now) ==> exists i :: 0 <= i < |r.data| && r.data[i].id == rows[k].sale.id
    ensures |r.data| == |RunningRows(rows, now)|
    ensures forall i :: 0 <= i < |r.data| ==> r.data[i] == RunningView(env, RunningRows(rows, now)[i], now)
  {
    var listed := RunningRows(rows, now);
    var data := RunningViews(env, listed, now);
    SaleList(data, |data|)
  }

  /** `FlashSaleController::show`: the running sale with that id; None is the 404. */
  function Show(env: Models.Env, rows: seq<SaleRow>, id: int, now: int): (r: Option<SaleView>)
    ensures r.None? <==> forall k :: 0 <= k < |rows| ==> !(RowRunning(rows[k], now) && rows[k].sale.id == id)
    ensures r.Some? ==> r.value.id == id && r.value.seconds == r.value.endDate - now >= 0
    ensures r.Some? ==> r.value.totalProducts == |r.value.products|
    ensures r.Some? ==> exists k :: (0 <= k < |rows| && RowRunning(rows[k], now) && rows[k].sale.id == id &&
      r.value == RunningView(env, rows[k], now) &&
      forall j :: 0 <= j < k ==> !(RowRunning(rows[j], now) && rows[j].sale.id == id))
  {
    match FirstWhere(rows, (row: SaleRow) => RowRunning(row, now) && row.sale.id == id)
    case None => None
    case Some(row) => Some(RunningView(env, row, now))
  }

  /**
   * `FlashSaleController::upcoming`: exactly the active sales that have not started, by start
   * date, each with a positive number of seconds until it starts.
   */
  function Upcoming(env: Models.Env, rows: seq<SaleRow>, now: int): (r: SaleList)
    ensures r.total == |r.data| == |Filter(rows, (row: SaleRow) => RowUpcoming(row, now))|
    ensures forall i :: 0 <= i < |r.data| ==> r.data[i].isActive && r.data[i].startDate > now
    ensures forall i :: 0 <= i < |r.data| ==> r.data[i].seconds == r.data[i].startDate - now > 0
    ensures forall i, j :: 0 <= i < j < |r.data| ==> r.data[i].startDate <= r.data[j].startDate
    ensures forall k :: 0 <= k < |rows| && RowUpcoming(rows[k], now) ==> exists i :: 0 <= i < |r.data| && r.data[i].id == rows[k].sale.id
    ensures |r.data| == |UpcomingRows(rows, now)|
    ensures forall i :: 0 <= i < |r.data| ==> r.data[i] == UpcomingView(env, UpcomingRows(rows, now)[i], now)
  {
    var listed := UpcomingRows(rows, now);
    var data := UpcomingViews(env, listed, now);
    SaleList(data, |data|)
  }

  /** A sale is never both listed as running and as upcoming. */
  lemma RunningAndUpcomingDisjoint(row: SaleRow, now: int)
    ensures !(RowRunning(row, now) && RowUpcoming(row, now))
  {
  }
}
