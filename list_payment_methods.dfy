/**
 * The admin payment-method list's "Get Payment Channel" action (`ListPaymentMethods`): the
 * provider select, the dispatch on the chosen provider, and the Tokopay import, which creates a
 * row for every channel of a fixed catalogue whose code the table does not hold yet.
 *
 * The merchant-info request is a `MerchantClient` holding the reply it will give; `md5` arrives
 * as a parameter.
 */
module PaymentMethods {
  import opened Wrappers
  import Php
  import opened Records
  import opened AppCache
  import Sorting

  // ---------------------------------------------------------------- provider select

  /** `!empty(...)` on both settings a gateway needs. */
  predicate Configured(settings: map<string, string>, idKey: string, secretKey: string) {
    !Php.IsEmpty(SettingValue(settings, idKey)) && !Php.IsEmpty(SettingValue(settings, secretKey))
  }

  predicate TokopayConfigured(settings: map<string, string>) {
    Configured(settings, "tokopay_merchant_id", "tokopay_secret_key")
  }

  predicate DuitkuConfigured(settings: map<string, string>) {
    Configured(settings, "duitku_merchant_id", "duitku_api_key")
  }

  /** The options of the provider select: each gateway whose two settings are filled in, Tokopay first. */
  function ProviderOptions(settings: map<string, string>): (r: seq<SelectOption>)
    ensures SelectOption("tokopay", "Tokopay") in r <==> TokopayConfigured(settings)
    ensures SelectOption("duitku", "Duitku") in r <==> DuitkuConfigured(settings)
    ensures forall o :: o in r ==> o == SelectOption("tokopay", "Tokopay") || o == SelectOption("duitku", "Duitku")
    ensures TokopayConfigured(settings) ==> r[0] == SelectOption("tokopay", "Tokopay")
  {
    (if TokopayConfigured(settings) then [SelectOption("tokopay", "Tokopay")] else []) +
    (if DuitkuConfigured(settings) then [SelectOption("duitku", "Duitku")] else [])
  }

  // ---------------------------------------------------------------- the Tokopay catalogue

  /** One channel of the built-in Tokopay catalogue. */
  datatype Channel = Channel(code: string, name: string, channelType: string, group: string)

  /** The channels the import creates, by position in the order `importTokopayPaymentMethods` lists them. */
  function CatalogueEntry(i: nat): Channel
    requires i < 23
  {
    match i
    case 0 => Channel("QRIS", "QRIS", "qris", "QRIS")
    case 1 => Channel("QRISREALTIME", "QRIS Realtime", "qris", "QRIS")
    case 2 => Channel("QRIS_REALTIME_NOBU", "QRIS Realtime Nobu", "qris", "QRIS")
    case 3 => Channel("BRIVA", "BRI Virtual Account", "va", "Virtual Account")
    case 4 => Channel("BCAVA", "BCA Virtual Account", "va", "Virtual Account")
    case 5 => Channel("BNIVA", "BNI Virtual Account", "va", "Virtual Account")
    case 6 => Channel("MANDIRIVA", "MANDIRI Virtual Account", "va", "Virtual Account")
    case 7 => Channel("PERMATAVA", "PERMATA Virtual Account", "va", "Virtual Account")
    case 8 => Channel("PERMATAVAA", "PERMATA Virtual Account 2", "va", "Virtual Account")
    case 9 => Channel("CIMBVA", "CIMB Virtual Account", "va", "Virtual Account")
    case 10 => Channel("DANAMONVA", "DANAMON Virtual Account", "va", "Virtual Account")
    case 11 => Channel("BSIVA", "BSI Virtual Account", "va", "Virtual Account")
    case 12 => Channel("BNCVA", "BNC Virtual Account (NEO)", "va", "Virtual Account")
    case 13 => Channel("SHOPEEPAY", "Shopee Pay", "e-wallet", "E-Wallet")
    case 14 => Channel("GOPAY", "Gopay", "e-wallet", "E-Wallet")
    case 15 => Channel("DANA", "DANA", "e-wallet", "E-Wallet")
    case 16 => Channel("LINKAJA", "LINK AJA", "e-wallet", "E-Wallet")
    case 17 => Channel("ALFAMART", "Alfamart", "convenience_store", "Convenience Store")
    case 18 => Channel("INDOMARET", "Indomaret", "convenience_store", "Convenience Store")
    case 19 => Channel("TELKOMSEL", "Telkomsel", "pulsa", "Pulsa")
    case 20 => Channel("AXIS", "AXIS", "pulsa", "Pulsa")
    case 21 => Channel("XL", "XL", "pulsa", "Pulsa")
    case _ => Channel("TRI", "Tri", "pulsa", "Pulsa")
  }

  /** The 23 channels of the catalogue. */
  const TokopayCatalogue: seq<Channel> := seq(23, i requires 0 <= i < 23 => CatalogueEntry(i))

  /** `$typeOrder[$type] ?? 6`: QRIS first, then e-wallets, virtual accounts, stores, pulsa, the rest. */
  function TypeRank(channelType: string): (rank: int)
    ensures 1 <= rank <= 6
    ensures rank < 6 <==> channelType in {"qris", "e-wallet", "va", "convenience_store", "pulsa"}
  {
    match channelType
    case "qris" => 1
    case "e-wallet" => 2
    case "va" => 3
    case "convenience_store" => 4
    case "pulsa" => 5
    case _ => 6
  }

  function RankOf(c: Channel): int {
    TypeRank(c.channelType)
  }

  /**
   * What `usort` by type rank promises: ranks ascend, `order` is a permutation of `channels`, and
   * channels of one rank keep their listed order.
   */
  ghost predicate TypeOrdered(order: seq<Channel>, channels: seq<Channel>) {
    Sorting.SortedByKey(order, RankOf) &&
    multiset(order) == multiset(channels) &&
    forall k :: Sorting.WithKey(order, RankOf, k) == Sorting.WithKey(channels, RankOf, k)
  }

  /** `usort($paymentMethods, ...)` on the type rank, which is stable in PHP 8. */
  method SortByType(channels: seq<Channel>) returns (order: seq<Channel>)
    ensures TypeOrdered(order, channels)
    ensures order == Sorting.SortByKey(channels, RankOf)
  {
    order := Sorting.SortByKey(channels, RankOf);
    SortByKeyTypeOrdered(channels);
  }

  /** The stable insertion sort by rank orders channels as `usort` by type rank promises. */
  lemma SortByKeyTypeOrdered(channels: seq<Channel>)
    ensures TypeOrdered(Sorting.SortByKey(channels, RankOf), channels)
  {
    var order := Sorting.SortByKey(channels, RankOf);
    forall k ensures Sorting.WithKey(order, RankOf, k) == Sorting.WithKey(channels, RankOf, k) {
      Sorting.SortByKeyStable(channels, RankOf, k);
    }
  }

  // ---------------------------------------------------------------- the payment_methods table

  /** The columns of a payment method the import writes. */
  datatype PaymentMethodRow = PaymentMethodRow(
    name: string, provider: string, code: string, group: string, methodType: string,
    feeFlat: int, feePercent: int, minAmount: int, maxAmount: int, isActive: bool)

  /** `PaymentMethod::where('code', $code)->exists()`, over every provider. */
  predicate HasCode(rows: seq<PaymentMethodRow>, code: string) {
    exists i :: 0 <= i < |rows| && rows[i].code == code
  }

  /** The row the import creates for a channel: Tokopay, no fee, no bounds, active. */
  function NewRow(c: Channel): PaymentMethodRow {
    PaymentMethodRow(c.name, "tokopay", c.code, c.group, c.channelType, 0, 0, 0, 0, true)
  }

  class PaymentMethodTable {
    var rows: seq<PaymentMethodRow>

    constructor (initial: seq<PaymentMethodRow>)
      ensures rows == initial
    {
      rows := initial;
    }

    /** `PaymentMethod::create(...)`: appends the row. */
    method Create(row: PaymentMethodRow)
      modifies this
      ensures rows == old(rows) + [row]
    {
      rows := rows + [row];
    }
  }

  /** The table after the import loop has seen `channels`: a channel whose code exists is skipped. */
  function Imported(rows: seq<PaymentMethodRow>, channels: seq<Channel>): seq<PaymentMethodRow> {
    if channels == [] then rows
    else
      var before := Imported(rows, channels[..|channels| - 1]);
      var c := channels[|channels| - 1];
      if HasCode(before, c.code) then before else before + [NewRow(c)]
  }

  /** The import loop: each channel whose code is not in the table yet is created and counted. */
  method ImportChannels(table: PaymentMethodTable, channels: seq<Channel>) returns (importedCount: nat)
    modifies table
    ensures table.rows == Imported(old(table.rows), channels)
    ensures importedCount == |table.rows| - |old(table.rows)|
  {
    importedCount := 0;
    for i := 0 to |channels|
      invariant table.rows == Imported(old(table.rows), channels[..i])
      invariant importedCount == |table.rows| - |old(table.rows)|
    {
      assert channels[..i + 1][..i] == channels[..i];
      var c := channels[i];
      if HasCode(table.rows, c.code) {
        continue;
      }
      table.Create(NewRow(c));
      importedCount := importedCount + 1;
    }
    assert channels[..|channels|] == channels;
  }

  /** The import only appends: the old rows stay, in front and unchanged. */
  lemma {:induction false} ImportedKeepsRows(rows: seq<PaymentMethodRow>, channels: seq<Channel>)
    ensures |Imported(rows, channels)| >= |rows|
    ensures Imported(rows, channels)[..|rows|] == rows
    decreases |channels|
  {
    if channels != [] {
      var before := Imported(rows, channels[..|channels| - 1]);
      ImportedKeepsRows(rows, channels[..|channels| - 1]);
      var c := channels[|channels| - 1];
      if !HasCode(before, c.code) {
        assert (before + [NewRow(c)])[..|rows|] == before[..|rows|];
      }
    }
  }

  /** Every appended row is a channel's new Tokopay row whose code no earlier row has. */
  lemma {:induction false} ImportedNewRows(rows: seq<PaymentMethodRow>, channels: seq<Channel>)
    ensures forall j :: |rows| <= j < |Imported(rows, channels)| ==>
      (exists c :: c in channels && Imported(rows, channels)[j] == NewRow(c)) &&
      !HasCode(Imported(rows, channels)[..j], Imported(rows, channels)[j].code)
    decreases |channels|
  {
    if channels != [] {
      var prefix := channels[..|channels| - 1];
      var c := channels[|channels| - 1];
      ImportedNewRows(rows, prefix);
      var before := Imported(rows, prefix);
      var after := Imported(rows, channels);
      ImportedKeepsRows(rows, prefix);
      assert c in channels;
      forall j | |rows| <= j < |after|
        ensures (exists d :: d in channels && after[j] == NewRow(d)) && !HasCode(after[..j], after[j].code)
      {
        if j < |before| {
          assert after[j] == before[j];
          assert after[..j] == before[..j];
          var d :| d in prefix && before[j] == NewRow(d);
          assert d in channels;
        } else {
          assert !HasCode(before, c.code) && after == before + [NewRow(c)];
          assert after[j] == NewRow(c);
          assert after[..j] == before;
        }
      }
      assert Imported(rows, channels) == after;
    } else {
      assert Imported(rows, channels) == rows;
    }
  }

  /** After the import every channel's code is in the table. */
  lemma {:induction false} ImportedCovers(rows: seq<PaymentMethodRow>, channels: seq<Channel>)
    ensures forall c :: c in channels ==> HasCode(Imported(rows, channels), c.code)
    decreases |channels|
  {
    if channels != [] {
      var prefix := channels[..|channels| - 1];
      var c := channels[|channels| - 1];
      ImportedCovers(rows, prefix);
      var before := Imported(rows, prefix);
      var after := Imported(rows, channels);
      assert forall i :: 0 <= i < |before| ==> after[i] == before[i];
      forall d | d in channels ensures HasCode(after, d.code) {
        if d != c {
          assert d in prefix;
          var i :| 0 <= i < |before| && before[i].code == d.code;
          assert after[i].code == d.code;
        } else if !HasCode(before, c.code) {
          assert after[|before|].code == c.code;
        } else {
          var i :| 0 <= i < |before| && before[i].code == c.code;
          assert after[i].code == c.code;
        }
      }
    }
  }

  /** No code appears twice: a table without repeated codes keeps none after the import. */
  lemma ImportedCodesDistinct(rows: seq<PaymentMethodRow>, channels: seq<Channel>)
    requires forall i, j :: 0 <= i < j < |rows| ==> rows[i].code != rows[j].code
    ensures var after := Imported(rows, channels);
      forall i, j :: 0 <= i < j < |after| ==> after[i].code != after[j].code
  {
    var after := Imported(rows, channels);
    ImportedKeepsRows(rows, channels);
    ImportedNewRows(rows, channels);
    forall i, j | 0 <= i < j < |after| ensures after[i].code != after[j].code {
      if j >= |rows| {
        assert after[..j][i] == after[i];
      } else {
        assert after[i] == rows[i] && after[j] == rows[j];
      }
    }
  }

  /** Importing twice adds nothing the first import did not. */
  lemma ImportedIdempotent(rows: seq<PaymentMethodRow>, channels: seq<Channel>)
    ensures Imported(Imported(rows, channels), channels) == Imported(rows, channels)
  {
    ImportedCovers(rows, channels);
    ImportSkipsPresent(Imported(rows, channels), channels);
  }

  /** Channels whose codes are all present create nothing. */
  lemma {:induction false} ImportSkipsPresent(rows: seq<PaymentMethodRow>, channels: seq<Channel>)
    requires forall c :: c in channels ==> HasCode(rows, c.code)
    ensures Imported(rows, channels) == rows
    decreases |channels|
  {
    if channels != [] {
      var prefix := channels[..|channels| - 1];
      assert forall d :: d in prefix ==> d in channels;
      ImportSkipsPresent(rows, prefix);
      assert channels[|channels| - 1] in channels;
    }
  }

  /** Channels with distinct codes, none of them in the table, are all created. */
  lemma {:induction false} ImportFreshCount(rows: seq<PaymentMethodRow>, channels: seq<Channel>)
    requires forall c :: c in channels ==> !HasCode(rows, c.code)
    requires forall i, j :: 0 <= i < j < |channels| ==> channels[i].code != channels[j].code
    ensures |Imported(rows, channels)| == |rows| + |channels|
    decreases |channels|
  {
    if channels != [] {
      var n := |channels| - 1;
      var prefix := channels[..n];
      var c := channels[n];
      assert forall d :: d in prefix ==> d in channels;
      ImportFreshCount(rows, prefix);
      ImportedKeepsRows(rows, prefix);
      ImportedNewRows(rows, prefix);
      var before := Imported(rows, prefix);
      forall i | 0 <= i < |before| ensures before[i].code != c.code {
        if i < |rows| {
          assert before[..|rows|][i] == rows[i];
        } else {
          var d :| d in prefix && before[i] == NewRow(d);
          var k :| 0 <= k < n && prefix[k] == d;
          assert channels[k] == d;
        }
      }
      assert !HasCode(before, c.code);
      assert Imported(rows, channels) == before + [NewRow(c)];
    }
  }

  /** The catalogue position a code names, if any. */
  function CataloguePosition(code: string): Option<nat> {
    match code
    case "QRIS" => Some(0)
    case "QRISREALTIME" => Some(1)
    case "QRIS_REALTIME_NOBU" => Some(2)
    case "BRIVA" => Some(3)
    case "BCAVA" => Some(4)
    case "BNIVA" => Some(5)
    case "MANDIRIVA" => Some(6)
    case "PERMATAVA" => Some(7)
    case "PERMATAVAA" => Some(8)
    case "CIMBVA" => Some(9)
    case "DANAMONVA" => Some(10)
    case "BSIVA" => Some(11)
    case "BNCVA" => Some(12)
    case "SHOPEEPAY" => Some(13)
    case "GOPAY" => Some(14)
    case "DANA" => Some(15)
    case "LINKAJA" => Some(16)
    case "ALFAMART" => Some(17)
    case "INDOMARET" => Some(18)
    case "TELKOMSEL" => Some(19)
    case "AXIS" => Some(20)
    case "XL" => Some(21)
    case "TRI" => Some(22)
    case _ => None
  }

  /** Each entry's code names that entry's position, so no two entries share a code. */
  lemma CataloguePositionOfCode(i: nat)
    requires i < 23
    ensures CataloguePosition(CatalogueEntry(i).code) == Some(i)
  {
    if i < 12 {
      CataloguePositionOfCodeLow(i);
    } else {
      CataloguePositionOfCodeHigh(i);
    }
  }

  lemma CataloguePositionOfCodeLow(i: nat)
    requires i < 12
    ensures CataloguePosition(CatalogueEntry(i).code) == Some(i)
  {
  }

  lemma CataloguePositionOfCodeHigh(i: nat)
    requires 12 <= i < 23
    ensures CataloguePosition(CatalogueEntry(i).code) == Some(i)
  {
  }

  lemma CatalogueCodesDistinct()
    ensures forall i, j :: 0 <= i < j < |TokopayCatalogue| ==> TokopayCatalogue[i].code != TokopayCatalogue[j].code
  {
    forall i, j | 0 <= i < j < |TokopayCatalogue| ensures TokopayCatalogue[i].code != TokopayCatalogue[j].code {
      CataloguePositionOfCode(i);
      CataloguePositionOfCode(j);
    }
  }

  /** A permutation of channels with distinct codes has distinct codes. */
  lemma PermutationCodesDistinct(order: seq<Channel>, channels: seq<Channel>)
    requires multiset(order) == multiset(channels)
    requires forall i, j :: 0 <= i < j < |channels| ==> channels[i].code != channels[j].code
    ensures forall i, j :: 0 <= i < j < |order| ==> order[i].code != order[j].code
  {
    assert Sorting.Distinct(channels);
    forall x ensures multiset(order)[x] <= 1 {
      Sorting.DistinctCount(channels, x);
    }
    Sorting.CountDistinct(order);
    forall i, j | 0 <= i < j < |order| ensures order[i].code != order[j].code {
      assert order[i] in multiset(channels) && order[j] in multiset(channels);
      var a :| 0 <= a < |channels| && channels[a] == order[i];
      var b :| 0 <= b < |channels| && channels[b] == order[j];
      assert a != b;
      if a < b {
        assert channels[a].code != channels[b].code;
      } else {
        assert channels[b].code != channels[a].code;
      }
    }
  }

  /** Channels in type order whose codes are distinct and absent from the table are all created. */
  lemma ImportOrderedFreshCount(rows: seq<PaymentMethodRow>, order: seq<Channel>, channels: seq<Channel>)
    requires TypeOrdered(order, channels)
    requires forall i, j :: 0 <= i < j < |channels| ==> channels[i].code != channels[j].code
    requires forall c :: c in channels ==> !HasCode(rows, c.code)
    ensures |Imported(rows, order)| == |rows| + |channels|
  {
    assert forall c :: c in order ==> c in channels by {
      forall c | c in order ensures c in channels {
        assert c in multiset(order);
      }
    }
    PermutationCodesDistinct(order, channels);
    assert |order| == |multiset(order)| == |multiset(channels)| == |channels|;
    ImportFreshCount(rows, order);
  }

  // ---------------------------------------------------------------- the action

  /** The merchant-info reply: HTTP success, status and body, and the JSON `status` and `message`. */
  datatype MerchantReply = MerchantReply(successful: bool, httpStatus: int, body: string, status: Option<int>, message: Option<string>)

  /** The Tokopay merchant endpoint: every call posts the merchant id and signature and gets the same reply. */
  class MerchantClient {
    const reply: MerchantReply
    var requests: seq<(string, string)>

    constructor (reply: MerchantReply)
      ensures this.reply == reply && requests == []
    {
      this.reply := reply;
      requests := [];
    }

    method Post(merchantId: string, signature: string) returns (r: MerchantReply)
      modifies this
      ensures r == reply
      ensures requests == old(requests) + [(merchantId, signature)]
    {
      requests := requests + [(merchantId, signature)];
      r := reply;
    }
  }

  /** How the action ended: the notification it sends. */
  datatype ImportOutcome =
    | NoProvider
    | Unsupported
    | TokopayNotConfigured
    | FetchFailed(httpStatus: int, body: string)
    | ApiError(message: string)
    | ImportedFromTokopay(importedCount: nat)
    | DuitkuNotConfigured
    | DuitkuNotImplemented

  /** `md5($merchantId . ':' . $secretKey)` */
  function TokopaySignature(settings: map<string, string>, md5: string -> string): string {
    md5(Php.OrEmpty(SettingValue(settings, "tokopay_merchant_id")) + ":" + Php.OrEmpty(SettingValue(settings, "tokopay_secret_key")))
  }

  /** The catalogue in the order the import walks it: sorted by type rank, stably. */
  function TokopayOrder(): seq<Channel> {
    Sorting.SortByKey(TokopayCatalogue, RankOf)
  }

  /** The outcome of an import together with the rows the table then holds. */
  datatype ImportResult = ImportResult(outcome: ImportOutcome, rows: seq<PaymentMethodRow>)

  /**
   * What `importTokopayPaymentMethods` does to a table, given the merchant reply: the settings
   * guard, the HTTP failure, the API error, or the import of the catalogue in type order.
   */
  function TokopayResult(rows: seq<PaymentMethodRow>, reply: MerchantReply, settings: map<string, string>): (r: ImportResult)
    ensures !TokopayConfigured(settings) ==> r.outcome == TokopayNotConfigured
    ensures TokopayConfigured(settings) && !reply.successful ==> r.outcome == FetchFailed(reply.httpStatus, reply.body)
    ensures TokopayConfigured(settings) && reply.successful && reply.status != Some(1) ==>
      r.outcome == ApiError(reply.message.GetOr("Unknown error"))
    ensures r.outcome.ImportedFromTokopay? <==> TokopayConfigured(settings) && reply.successful && reply.status == Some(1)
    ensures !r.outcome.ImportedFromTokopay? ==> r.rows == rows
    ensures r.outcome.ImportedFromTokopay? ==> r.rows == Imported(rows, TokopayOrder())
    ensures r.outcome.ImportedFromTokopay? ==> r.outcome.importedCount == |r.rows| - |rows|
  {
    if !TokopayConfigured(settings) then ImportResult(TokopayNotConfigured, rows)
    else if !reply.successful then ImportResult(FetchFailed(reply.httpStatus, reply.body), rows)
    else if reply.status != Some(1) then ImportResult(ApiError(reply.message.GetOr("Unknown error")), rows)
    else
      var order := TokopayOrder();
      ImportedKeepsRows(rows, order);
      var after := Imported(rows, order);
      ImportResult(ImportedFromTokopay(|after| - |rows|), after)
  }

  /** The merchant-info requests the import sends: one when Tokopay is configured, none otherwise. */
  function TokopayRequests(settings: map<string, string>, md5: string -> string): (r: seq<(string, string)>)
    ensures |r| == if TokopayConfigured(settings) then 1 else 0
    ensures TokopayConfigured(settings) ==> r[0].0 == settings["tokopay_merchant_id"] && r[0].1 == TokopaySignature(settings, md5)
  {
    if TokopayConfigured(settings) then [(SettingValue(settings, "tokopay_merchant_id").value, TokopaySignature(settings, md5))] else []
  }

  /** `importTokopayPaymentMethods` */
  method ImportTokopay(table: PaymentMethodTable, client: MerchantClient, md5: string -> string, settings: map<string, string>)
    returns (outcome: ImportOutcome)
    modifies table, client
    ensures !TokopayConfigured(settings) ==> outcome == TokopayNotConfigured && client.requests == old(client.requests)
    ensures TokopayConfigured(settings) ==>
      client.requests == old(client.requests) + [(SettingValue(settings, "tokopay_merchant_id").value, TokopaySignature(settings, md5))]
    ensures TokopayConfigured(settings) && !client.reply.successful ==> outcome == FetchFailed(client.reply.httpStatus, client.reply.body)
    ensures TokopayConfigured(settings) && client.reply.successful && client.reply.status != Some(1) ==>
      outcome == ApiError(client.reply.message.GetOr("Unknown error"))
    ensures !outcome.ImportedFromTokopay? ==> table.rows == old(table.rows)
    ensures outcome.ImportedFromTokopay? <==> TokopayConfigured(settings) && client.reply.successful && client.reply.status == Some(1)
    ensures outcome.ImportedFromTokopay? ==>
      exists order :: TypeOrdered(order, TokopayCatalogue) &&
        table.rows == Imported(old(table.rows), order) &&
        outcome.importedCount == |table.rows| - |old(table.rows)|
    ensures ImportResult(outcome, table.rows) == TokopayResult(old(table.rows), client.reply, settings)
    ensures client.requests == old(client.requests) + TokopayRequests(settings, md5)
  {
    if !TokopayConfigured(settings) {
      return TokopayNotConfigured;
    }
    var merchantId := SettingValue(settings, "tokopay_merchant_id").value;
    var reply := client.Post(merchantId, TokopaySignature(settings, md5));
    if !reply.successful {
      return FetchFailed(reply.httpStatus, reply.body);
    }
    if reply.status != Some(1) {
      return ApiError(reply.message.GetOr("Unknown error"));
    }
    var order := SortByType(TokopayCatalogue);
    var count := ImportChannels(table, order);
    outcome := ImportedFromTokopay(count);
  }

  /** `getPaymentMethodsFromProvider`: no provider, Tokopay, Duitku (only checked, nothing created), or unsupported. */
  method GetPaymentMethodsFromProvider(table: PaymentMethodTable, client: MerchantClient, md5: string -> string,
                                       settings: map<string, string>, provider: Option<string>)
    returns (outcome: ImportOutcome)
    modifies table, client
    ensures !Php.TruthyOpt(provider) ==> outcome == NoProvider
    ensures Php.TruthyOpt(provider) && provider.value !in {"tokopay", "duitku"} ==> outcome == Unsupported
    ensures provider == Some("duitku") ==> outcome == (if DuitkuConfigured(settings) then DuitkuNotImplemented else DuitkuNotConfigured)
    ensures provider != Some("tokopay") ==> table.rows == old(table.rows) && client.requests == old(client.requests)
    ensures outcome.ImportedFromTokopay? ==> (provider == Some("tokopay") &&
      exists order :: TypeOrdered(order, TokopayCatalogue) && table.rows == Imported(old(table.rows), order))
    ensures provider == Some("tokopay") ==>
      ImportResult(outcome, table.rows) == TokopayResult(old(table.rows), client.reply, settings) &&
      client.requests == old(client.requests) + TokopayRequests(settings, md5)
  {
    if !Php.TruthyOpt(provider) {
      return NoProvider;
    }
    match provider.value
    case "tokopay" =>
      outcome := ImportTokopay(table, client, md5, settings);
    case "duitku" =>
      outcome := if DuitkuConfigured(settings) then DuitkuNotImplemented else DuitkuNotConfigured;
    case _ =>
      outcome := Unsupported;
  }

  /** On a table holding none of the catalogue's codes, a successful import creates all 23 channels. */
  lemma ImportIntoFreshTable(rows: seq<PaymentMethodRow>, order: seq<Channel>)
    requires TypeOrdered(order, TokopayCatalogue)
    requires forall c :: c in TokopayCatalogue ==> !HasCode(rows, c.code)
    ensures |Imported(rows, order)| == |rows| + 23
  {
    CatalogueCodesDistinct();
    ImportOrderedFreshCount(rows, order, TokopayCatalogue);
  }
}
