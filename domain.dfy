/**
 * The records the ingestion moves around: what the price API returns,
 * what the two database tables store, and their primary keys.
 *
 * Date-times are naive (time-zone-less) Python `datetime` values, counted in
 * microseconds since 1970-01-01 00:00 on the same clock.  Decimal amounts
 * are exact `real`s.
 */
module Domain {

  type AssetId = string

  /** A naive local `datetime`, in microseconds since 1970-01-01 00:00. */
  type DateTime = int

  /** `timedelta(days=1)` in microseconds. */
  const Day: int := 86_400_000_000

  /** A naive UTC `datetime`, as the database's `created_at` default stamps it. */
  type Instant = int

  /** 2018-01-01 00:00, the first instant fetched for an asset that has no stored history. */
  const DefaultStart: DateTime := 1_514_764_800_000_000

  /** One entry of the API's `/assets/{id}/history` answer. */
  datatype ApiHistory = ApiHistory(priceUsd: real, time: int, isoDate: string)

  /** One entry of the API's `/assets/{id}/markets` answer. */
  datatype ApiMarket = ApiMarket(
    exchangeId: string, baseId: string, quoteId: string,
    baseSymbol: string, quoteSymbol: string,
    volumeUsd24h: real, priceUsd: real, volumePercent: real)

  /** A row of the `asset_history` table. */
  datatype HistoryRow = HistoryRow(assetId: AssetId, priceUsd: real, date: DateTime, time: int)

  /** A row of the `markets` table. */
  datatype MarketRow = MarketRow(
    exchangeId: string, baseId: string, quoteId: string,
    baseSymbol: string, quoteSymbol: string,
    volumeUsd24h: real, priceUsd: real, volumePercent: real,
    createdAt: Instant)

  /** Primary key of `asset_history`: (asset_id, date). */
  datatype HistoryKey = HistoryKey(assetId: AssetId, date: DateTime)

  /** Primary key of `markets`: (base_id, quote_id, exchange_id, created_at). */
  datatype MarketKey = MarketKey(baseId: string, quoteId: string, exchangeId: string, createdAt: Instant)

  function HistoryKeyOf(row: HistoryRow): HistoryKey
  {
    HistoryKey(row.assetId, row.date)
  }

  function MarketKeyOf(row: MarketRow): MarketKey
  {
    MarketKey(row.baseId, row.quoteId, row.exchangeId, row.createdAt)
  }

  /**
   * What the ingestion reads from the host rather than computes: the current
   * local date-time, the conversions between local date-times and epoch
   * milliseconds (which depend on the host's time zone), and the float cast
   * applied to a history price before it is stored.
   */
  datatype Env = Env(
    now: DateTime,
    millisOf: DateTime -> int,
    dateOf: int -> DateTime,
    toFloat: real -> real)
}
