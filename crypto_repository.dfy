/**
 * The crypto repository: the `asset_history` and `markets` tables behind one
 * session, the two history queries the ingestion relies on, and the inserts.
 */
module CryptoRepo {
  import opened Wrappers
  import opened Domain
  import opened Store

  /**
   * The rows of `assetId` dated within [start, end], both ends included, in
   * table order (the SQL query has no ORDER BY; any order is allowed, the
   * ingestion only uses the set of their dates).
   */
  function RowsInRange(rows: seq<HistoryRow>, assetId: AssetId, start: DateTime, end: DateTime): (r: seq<HistoryRow>)
    ensures forall x :: x in r <==> x in rows && x.assetId == assetId && start <= x.date <= end
    ensures |r| <= |rows|
  {
    if rows == [] then []
    else
      var rest := RowsInRange(rows[1..], assetId, start, end);
      var x := rows[0];
      if x.assetId == assetId && start <= x.date <= end then [x] + rest else rest
  }

  /** The latest stored date of `assetId`, or None when it has no rows. */
  function LatestDate(rows: seq<HistoryRow>, assetId: AssetId): (d: Option<DateTime>)
    ensures d.None? <==> forall x :: x in rows ==> x.assetId != assetId
    ensures d.Some? ==> exists x :: x in rows && x.assetId == assetId && x.date == d.value
    ensures d.Some? ==> forall x :: x in rows && x.assetId == assetId ==> x.date <= d.value
  {
    if rows == [] then None
    else
      var rest := LatestDate(rows[1..], assetId);
      var x := rows[0];
      if x.assetId != assetId then rest
      else if rest.Some? && rest.value > x.date then rest
      else Some(x.date)
  }

  /** Rows of other assets do not affect either query. */
  lemma {:induction false} QueriesIgnoreOtherAssets(rows: seq<HistoryRow>, other: seq<HistoryRow>, assetId: AssetId, start: DateTime, end: DateTime)
    requires forall x :: x in other ==> x.assetId != assetId
    ensures RowsInRange(rows + other, assetId, start, end) == RowsInRange(rows, assetId, start, end)
    ensures LatestDate(rows + other, assetId) == LatestDate(rows, assetId)
  {
    if rows == [] {
      assert rows + other == other;
      NoRowsOfAsset(other, assetId, start, end);
    } else {
      assert (rows + other)[1..] == rows[1..] + other;
      QueriesIgnoreOtherAssets(rows[1..], other, assetId, start, end);
    }
  }

  lemma {:induction false} NoRowsOfAsset(rows: seq<HistoryRow>, assetId: AssetId, start: DateTime, end: DateTime)
    requires forall x :: x in rows ==> x.assetId != assetId
    ensures RowsInRange(rows, assetId, start, end) == []
    ensures LatestDate(rows, assetId) == None
  {
    if rows != [] {
      NoRowsOfAsset(rows[1..], assetId, start, end);
    }
  }

  /** The two tables, sharing one session. */
  class CryptoRepository {
    const history: Table<HistoryRow, HistoryKey>
    const markets: Table<MarketRow, MarketKey>

    ghost predicate Valid()
      reads this, history, markets
    {
      && history.Valid() && markets.Valid()
      && history.key == HistoryKeyOf && markets.key == MarketKeyOf
    }

    /** A repository over a database that already holds `history0` and `markets0`. */
    constructor (history0: seq<HistoryRow>, markets0: seq<MarketRow>)
      requires UniqueKeys(history0, HistoryKeyOf) && UniqueKeys(markets0, MarketKeyOf)
      ensures Valid() && fresh(history) && fresh(markets)
      ensures history.rows == history0 && markets.rows == markets0
    {
      history := new Table(HistoryKeyOf, history0);
      markets := new Table(MarketKeyOf, markets0);
    }

    /** The stored rows of `assetId` dated within [start, end]. */
    function GetAssetHistoryByDateRange(assetId: AssetId, start: DateTime, end: DateTime): (r: seq<HistoryRow>)
      reads this, history
      ensures forall x :: x in r <==> x in history.rows && x.assetId == assetId && start <= x.date <= end
    {
      RowsInRange(history.rows, assetId, start, end)
    }

    /** The latest stored date of `assetId`, or None when it has no rows. */
    function GetLatestDate(assetId: AssetId): (d: Option<DateTime>)
      reads this, history
      ensures d.None? <==> forall x :: x in history.rows ==> x.assetId != assetId
      ensures d.Some? ==> exists x :: x in history.rows && x.assetId == assetId && x.date == d.value
      ensures d.Some? ==> forall x :: x in history.rows && x.assetId == assetId ==> x.date <= d.value
    {
      LatestDate(history.rows, assetId)
    }

    /** Builds a history row from its fields and stores it. */
    method InsertAssetHistory(assetId: AssetId, priceUsd: real, date: DateTime, time: int) returns (r: Result<HistoryRow, DbError>)
      requires Valid()
      modifies history
      ensures Valid()
      ensures r.Success? ==>
        r.value.assetId == assetId && r.value.priceUsd == priceUsd && r.value.date == date && r.value.time == time
      ensures r.Success? ==> history.rows == old(history.rows) + [r.value]
      ensures r.Success? <==> forall x :: x in old(history.rows) ==> x.assetId != assetId || x.date != date
      ensures r.Failure? ==> r.error == IntegrityError && history.rows == old(history.rows)
    {
      var row := HistoryRow(assetId, priceUsd, date, time);
      ghost var before := history.rows;
      r := history.Create(row);
      if r.Success? {
        forall x | x in before ensures x.assetId != assetId || x.date != date {
          var k :| 0 <= k < |before| && before[k] == x;
          assert HistoryKeyOf(before[k]) != HistoryKeyOf([row][0]);
        }
      } else {
        ghost var i :| 0 <= i < |old(history.rows)| && HistoryKeyOf(old(history.rows)[i]) == HistoryKeyOf(row);
        assert old(history.rows)[i] in old(history.rows);
      }
    }

    /** Stores every given history row; returns the same list. */
    method InsertAssetHistories(histories: seq<HistoryRow>) returns (r: Result<seq<HistoryRow>, DbError>)
      requires Valid()
      modifies history
      ensures Valid()
      ensures Admits(old(history.rows), histories, HistoryKeyOf) ==> r == Success(histories) && history.rows == old(history.rows) + histories
      ensures !Admits(old(history.rows), histories, HistoryKeyOf) ==> r == Failure(IntegrityError) && history.rows == old(history.rows)
    {
      r := history.CreateMany(histories);
    }

    /** Stores every given market row; returns the same list. */
    method InsertMarkets(rows: seq<MarketRow>) returns (r: Result<seq<MarketRow>, DbError>)
      requires Valid()
      modifies markets
      ensures Valid()
      ensures Admits(old(markets.rows), rows, MarketKeyOf) ==> r == Success(rows) && markets.rows == old(markets.rows) + rows
      ensures !Admits(old(markets.rows), rows, MarketKeyOf) ==> r == Failure(IntegrityError) && markets.rows == old(markets.rows)
    {
      r := markets.CreateMany(rows);
    }
  }
}
