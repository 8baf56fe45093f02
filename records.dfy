/**
 * The storefront's entities as values, as the controllers and admin actions read them.
 * Instants are integer timestamps (seconds), money is `real`, nullable columns are `Option`s,
 * and a `hasMany`/`belongsToMany` relation is the sequence of related records in query order.
 */
module Records {
  import opened Wrappers
  import Sorting

  datatype Role = Role(id: int, name: string, profitPercentage: real)

  /** A user; `role` is the `belongsTo` relation (null when role_id is null or dangling). */
  datatype User = User(id: int, name: string, role: Option<Role>)

  datatype FlashSale = FlashSale(id: int, name: string, startDate: int, endDate: int, isActive: bool)

  /** A flash sale attached to a product, with the pivot's discounted_price and stock. */
  datatype FlashSaleLink = FlashSaleLink(sale: FlashSale, discountedPrice: Option<real>, stock: Option<int>)

  datatype Product = Product(
    id: int,
    name: string,
    description: Option<string>,
    iconPath: Option<string>,
    basePrice: real,
    provider: string,
    providerSku: string,
    displayOrder: int,
    isActive: bool,
    flashSales: seq<FlashSaleLink>)

  datatype ProductCategory = ProductCategory(
    id: int,
    name: string,
    slug: string,
    iconPath: Option<string>,
    displayOrder: int,
    isActive: bool,
    products: seq<Product>)

  datatype ConfigurationField = ConfigurationField(
    id: int,
    inputName: string,
    fieldLabel: string,
    placeholder: Option<string>,
    fieldType: string,
    isRequired: bool,
    displayOrder: int)

  datatype GameConfiguration = GameConfiguration(
    id: int,
    name: string,
    guideText: Option<string>,
    guideImagePath: Option<string>,
    fields: seq<ConfigurationField>)

  datatype Game = Game(
    id: int,
    name: string,
    slug: string,
    developer: Option<string>,
    brand: Option<string>,
    isActive: bool,
    configurationId: Option<int>,
    categories: seq<ProductCategory>)

  /** A row of the storefront `categories` table (genres, not product categories). */
  datatype Category = Category(id: int, name: string, slug: string, isActive: bool)

  /**
   * A discount voucher. `discount_value` and `min_purchase` are DECIMAL(15,2) columns, kept here
   * as whole hundredths; the usage limits are unsigned.
   */
  datatype Voucher = Voucher(
    id: int,
    code: string,
    description: string,
    discountType: string,
    discountValue: int,
    startDate: int,
    endDate: int,
    minPurchase: int,
    totalUsageLimit: nat,
    userUsageLimit: nat,
    isActive: bool)

  /** A balance top-up voucher; `expired_at` is nullable. */
  datatype DepositVoucher = DepositVoucher(
    id: int,
    code: string,
    amount: int,
    usageLimit: nat,
    expiredAt: Option<int>,
    isActive: bool)

  /** The first element satisfying `p`, as Eloquent's `->first()` after a `where`. */
  function FirstWhere<T>(s: seq<T>, p: T -> bool): (r: Option<T>)
    ensures r.Some? ==> r.value in s && p(r.value)
    ensures r.Some? ==> exists i :: 0 <= i < |s| && s[i] == r.value && forall j :: 0 <= j < i ==> !p(s[j])
    ensures r.None? ==> forall i :: 0 <= i < |s| ==> !p(s[i])
  {
    if s == [] then None
    else if p(s[0]) then Some(s[0])
    else
      var r := FirstWhere(s[1..], p);
      assert r.Some? ==> exists i :: 0 <= i < |s| && s[i] == r.value && forall j :: 0 <= j < i ==> !p(s[j]) by {
        if r.Some? {
          var i :| 0 <= i < |s[1..]| && s[1..][i] == r.value && forall j :: 0 <= j < i ==> !p(s[1..][j]);
          assert s[i + 1] == r.value;
          assert forall j :: 0 <= j < i + 1 ==> !p(s[j]) by {
            forall j | 0 <= j < i + 1 ensures !p(s[j]) {
              if j > 0 { assert s[j] == s[1..][j - 1]; }
            }
          }
        }
      }
      r
  }

  /** Eloquent `where` on an already-loaded collection: order kept. */
  function Filter<T>(s: seq<T>, p: T -> bool): (r: seq<T>)
    ensures |r| <= |s|
    ensures forall i :: 0 <= i < |r| ==> r[i] in s && p(r[i])
    ensures forall i :: 0 <= i < |s| && p(s[i]) ==> s[i] in r
  {
    if s == [] then [] else (if p(s[0]) then [s[0]] else []) + Filter(s[1..], p)
  }

  lemma {:induction false} FilterAppend<T>(a: seq<T>, b: seq<T>, p: T -> bool)
    ensures Filter(a + b, p) == Filter(a, p) + Filter(b, p)
    decreases |a|
  {
    if a == [] {
      assert a + b == b;
    } else {
      assert (a + b)[1..] == a[1..] + b;
      FilterAppend(a[1..], b, p);
    }
  }

  /** Filtering a list without repeats leaves a list without repeats. */
  lemma {:induction false} FilterDistinct<T>(s: seq<T>, p: T -> bool)
    requires Sorting.Distinct(s)
    ensures Sorting.Distinct(Filter(s, p))
    decreases |s|
  {
    if s != [] {
      FilterDistinct(s[1..], p);
      var rest := Filter(s[1..], p);
      assert forall i :: 0 <= i < |rest| ==> rest[i] in s[1..];
      assert s[0] !in s[1..];
    }
  }

  /** `f` of each element satisfying `p`, in order: a loop that filters and maps as it appends. */
  function Select<A, B>(s: seq<A>, p: A -> bool, f: A -> B): (r: seq<B>)
    ensures |r| <= |s|
  {
    if s == [] then [] else Select(s[..|s| - 1], p, f) + (if p(s[|s| - 1]) then [f(s[|s| - 1])] else [])
  }

  /** What `Select` holds: exactly the images of the elements that satisfy `p`. */
  lemma {:induction false} SelectMembers<A, B>(s: seq<A>, p: A -> bool, f: A -> B)
    ensures forall y :: y in Select(s, p, f) ==> exists i :: 0 <= i < |s| && p(s[i]) && y == f(s[i])
    ensures forall i :: 0 <= i < |s| && p(s[i]) ==> f(s[i]) in Select(s, p, f)
    decreases |s|
  {
    if s != [] {
      var n := |s| - 1;
      var prefix := s[..n];
      SelectMembers(prefix, p, f);
      assert Select(s, p, f) == Select(prefix, p, f) + (if p(s[n]) then [f(s[n])] else []);
      forall y | y in Select(s, p, f) ensures exists i :: 0 <= i < |s| && p(s[i]) && y == f(s[i]) {
        if y in Select(prefix, p, f) {
          var i :| 0 <= i < |prefix| && p(prefix[i]) && y == f(prefix[i]);
          assert s[i] == prefix[i];
        } else {
          assert p(s[n]) && y == f(s[n]);
        }
      }
      forall i | 0 <= i < |s| && p(s[i]) ensures f(s[i]) in Select(s, p, f) {
        if i < n {
          assert prefix[i] == s[i];
        }
      }
    }
  }

  /** Two tests that agree everywhere select the same elements. */
  lemma {:induction false} SelectSameTest<A, B>(s: seq<A>, p: A -> bool, q: A -> bool, f: A -> B)
    requires forall a :: p(a) == q(a)
    ensures Select(s, p, f) == Select(s, q, f)
    decreases |s|
  {
    if s != [] {
      SelectSameTest(s[..|s| - 1], p, q, f);
    }
  }

  /** `->limit(n)` / `->take(n)` */
  function Take<T>(s: seq<T>, n: nat): (r: seq<T>)
    ensures |r| == if |s| <= n then |s| else n
    ensures r == s[..|r|]
  {
    if |s| <= n then s else s[..n]
  }

  /** `Setting::getValue($key)` over the settings table (key to value): null when the key is absent. */
  function SettingValue(settings: map<string, string>, key: string): (v: Option<string>)
    ensures v.Some? <==> key in settings
    ensures v.Some? ==> v.value == settings[key]
  {
    if key in settings then Some(settings[key]) else None
  }
}
