/**
 * The row normalizer of the report service: the channel and category
 * lookups and the reshape of each fetched sales record into the row the
 * report embeds (src/app/report.service.ts, getSalesChannel,
 * getProductCategory and the map inside getDataSource).
 */
module RowNormalizer {

  /** A calendar date. The source holds a JavaScript Date; its time of day is not modelled. */
  datatype Date = Date(year: int, month: int, day: int)

  /*
   * Calendar validity. A JavaScript Date always denotes a real calendar day;
   * these predicates let TruncateToMonth state that the first of the month is
   * one too, so the SalesDate column holds only real dates.
   */

  predicate IsLeapYear(year: int) {
    (year % 4 == 0 && year % 100 != 0) || year % 400 == 0
  }

  function DaysInMonth(year: int, month: int): (n: int)
    requires 1 <= month <= 12
    ensures 28 <= n <= 31
  {
    if month == 2 then (if IsLeapYear(year) then 29 else 28)
    else if month == 4 || month == 6 || month == 9 || month == 11 then 30
    else 31
  }

  predicate ValidDate(d: Date) {
    1 <= d.month <= 12 && 1 <= d.day <= DaysInMonth(d.year, d.month)
  }

  /** A record as the sales endpoint returns it (only the four selected columns). */
  datatype RawRecord = RawRecord(ProductKey: int, SalesAmount: real, ChannelKey: int, DateKey: Date)

  /** A record as the report embeds it. */
  datatype NormalizedRecord = NormalizedRecord(SalesAmount: real, SalesDate: Date, SalesChannel: string, ProductCategory: string)

  /** The names of the fields of a NormalizedRecord, in declaration order. */
  const NormalizedFieldNames: seq<string> := ["SalesAmount", "SalesDate", "SalesChannel", "ProductCategory"]

  /** The labels of channel keys 1, 2, 3 and 4. */
  const ChannelLabels: seq<string> := ["Store", "Online", "Catalog", "Reseller"]

  /** The label of a sales channel: keys 1 to 4 are known, every other key is "Unknown". */
  function SalesChannel(channelKey: int): (r: string)
    ensures 1 <= channelKey <= 4 ==> r == ChannelLabels[channelKey - 1]
    ensures r == "Unknown" <==> !(1 <= channelKey <= 4)
  {
    match channelKey
    case 1 => "Store"
    case 2 => "Online"
    case 3 => "Catalog"
    case 4 => "Reseller"
    case _ => "Unknown"
  }

  /** Distinct known channel keys get distinct labels. */
  lemma SalesChannelInjective(a: int, b: int)
    requires SalesChannel(a) == SalesChannel(b)
    requires 1 <= a <= 4
    ensures a == b
  {
  }

  /** The exclusive upper bounds of the first four product buckets, ascending. */
  const CategoryBounds: seq<int> := [116, 338, 944, 1316]

  /** The labels of the five product buckets, in bucket order. */
  const CategoryLabels: seq<string> := ["Audio", "TV and Video", "Computers", "Cameras", "Cell phones"]

  /**
   * First-match bucketing: the index of the first bound the key lies below,
   * or the number of bounds when it lies below none.
   */
  function BucketIndex(bounds: seq<int>, key: int): (i: nat)
    ensures i <= |bounds|
    ensures i < |bounds| ==> key < bounds[i]
    ensures forall j :: 0 <= j < i ==> bounds[j] <= key
  {
    if bounds == [] then 0
    else if key < bounds[0] then 0
    else 1 + BucketIndex(bounds[1..], key)
  }

  /** First-match bucketing is monotone in the key, whatever the bounds. */
  lemma BucketIndexMonotone(bounds: seq<int>, k1: int, k2: int)
    requires k1 <= k2
    ensures BucketIndex(bounds, k1) <= BucketIndex(bounds, k2)
  {
  }

  /** The product category of a product key, by the source's chain of `<` tests. */
  function ProductCategory(productKey: int): (r: string)
    ensures r in CategoryLabels
  {
    if productKey < 116 then "Audio"
    else if productKey < 338 then "TV and Video"
    else if productKey < 944 then "Computers"
    else if productKey < 1316 then "Cameras"
    else "Cell phones"
  }

  /** The source's chain of tests is first-match bucketing over CategoryBounds, labelled by CategoryLabels. */
  lemma ProductCategoryIsFirstMatch(productKey: int)
    ensures ProductCategory(productKey) == CategoryLabels[BucketIndex(CategoryBounds, productKey)]
  {
    var b := CategoryBounds;
    if productKey >= 116 {
      assert BucketIndex(b, productKey) == 1 + BucketIndex(b[1..], productKey);
      if productKey >= 338 {
        assert BucketIndex(b[1..], productKey) == 1 + BucketIndex(b[2..], productKey);
        if productKey >= 944 {
          assert BucketIndex(b[2..], productKey) == 1 + BucketIndex(b[3..], productKey);
        }
      }
    }
  }

  /** The five buckets as half-open key ranges; each boundary key belongs to the bucket above it. */
  lemma ProductCategoryRanges(p: int)
    ensures ProductCategory(p) == "Audio" <==> p < 116
    ensures ProductCategory(p) == "TV and Video" <==> 116 <= p < 338
    ensures ProductCategory(p) == "Computers" <==> 338 <= p < 944
    ensures ProductCategory(p) == "Cameras" <==> 944 <= p < 1316
    ensures ProductCategory(p) == "Cell phones" <==> 1316 <= p
  {
  }

  lemma ProductCategoryBoundaries()
    ensures ProductCategory(115) == "Audio" && ProductCategory(116) == "TV and Video"
    ensures ProductCategory(337) == "TV and Video" && ProductCategory(338) == "Computers"
    ensures ProductCategory(943) == "Computers" && ProductCategory(944) == "Cameras"
    ensures ProductCategory(1315) == "Cameras" && ProductCategory(1316) == "Cell phones"
  {
  }

  /** A larger product key never falls into an earlier bucket. */
  lemma ProductCategoryMonotone(k1: int, k2: int)
    requires k1 <= k2
    ensures BucketIndex(CategoryBounds, k1) <= BucketIndex(CategoryBounds, k2)
    ensures CategoryLabels[BucketIndex(CategoryBounds, k1)] == ProductCategory(k1)
    ensures CategoryLabels[BucketIndex(CategoryBounds, k2)] == ProductCategory(k2)
  {
    BucketIndexMonotone(CategoryBounds, k1, k2);
    ProductCategoryIsFirstMatch(k1);
    ProductCategoryIsFirstMatch(k2);
  }

  /** The date moved to the first day of its month. */
  function TruncateToMonth(d: Date): (r: Date)
    ensures r.year == d.year && r.month == d.month && r.day == 1
    ensures ValidDate(d) ==> ValidDate(r)
  {
    d.(day := 1)
  }

  /** Truncating twice is truncating once. */
  lemma TruncateIdempotent(d: Date)
    ensures TruncateToMonth(TruncateToMonth(d)) == TruncateToMonth(d)
  {
  }

  /** Two dates truncate alike exactly when they lie in the same month of the same year. */
  lemma TruncateIdentifiesMonth(a: Date, b: Date)
    ensures TruncateToMonth(a) == TruncateToMonth(b) <==> a.year == b.year && a.month == b.month
  {
  }

  /** The reshape of one fetched record. */
  function NormalizeRow(raw: RawRecord): (r: NormalizedRecord)
    ensures r.SalesAmount == raw.SalesAmount
    ensures r.SalesDate.year == raw.DateKey.year && r.SalesDate.month == raw.DateKey.month && r.SalesDate.day == 1
    ensures r.SalesChannel in ChannelLabels + ["Unknown"]
    ensures r.ProductCategory in CategoryLabels
  {
    NormalizedRecord(
      raw.SalesAmount,
      TruncateToMonth(raw.DateKey),
      SalesChannel(raw.ChannelKey),
      ProductCategory(raw.ProductKey))
  }

  /** The reshape of the fetched value array: one output per input, in order. */
  function NormalizeRows(rows: seq<RawRecord>): (r: seq<NormalizedRecord>)
    ensures |r| == |rows|
    ensures forall i :: 0 <= i < |rows| ==> r[i] == NormalizeRow(rows[i])
  {
    if rows == [] then [] else [NormalizeRow(rows[0])] + NormalizeRows(rows[1..])
  }

  /** The reshape distributes over concatenation: it neither reorders, drops nor merges rows. */
  lemma {:induction false} NormalizeRowsAppend(a: seq<RawRecord>, b: seq<RawRecord>)
    ensures NormalizeRows(a + b) == NormalizeRows(a) + NormalizeRows(b)
  {
    if a == [] {
      assert a + b == b;
    } else {
      assert (a + b)[1..] == a[1..] + b;
      NormalizeRowsAppend(a[1..], b);
    }
  }

  /**
   * Each output row keeps the amount, the year and the month of its input,
   * has day 1, holds the looked-up labels, and is already truncated.
   */
  lemma NormalizedRowFacts(rows: seq<RawRecord>, i: int)
    requires 0 <= i < |rows|
    ensures NormalizeRows(rows)[i].SalesAmount == rows[i].SalesAmount
    ensures NormalizeRows(rows)[i].SalesDate.year == rows[i].DateKey.year
    ensures NormalizeRows(rows)[i].SalesDate.month == rows[i].DateKey.month
    ensures NormalizeRows(rows)[i].SalesDate.day == 1
    ensures NormalizeRows(rows)[i].SalesChannel == SalesChannel(rows[i].ChannelKey)
    ensures NormalizeRows(rows)[i].ProductCategory == ProductCategory(rows[i].ProductKey)
    ensures TruncateToMonth(NormalizeRows(rows)[i].SalesDate) == NormalizeRows(rows)[i].SalesDate
    ensures ValidDate(rows[i].DateKey) ==> ValidDate(NormalizeRows(rows)[i].SalesDate)
  {
  }

  /** An example: one fetched record and the row it becomes. */
  lemma NormalizeExampleRow()
    ensures NormalizeRows([RawRecord(100, 50.0, 1, Date(2023, 3, 15))])
         == [NormalizedRecord(50.0, Date(2023, 3, 1), "Store", "Audio")]
  {
  }
}
