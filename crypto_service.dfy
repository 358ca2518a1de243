/**
 * The ingestion service: per asset, the watermark that decides where the
 * fetch starts, the filter that drops fetched dates already stored, the mapping of
 * fetched markets to rows, and the loop over several assets that keeps going
 * when one of them fails.
 */
module Service {
  import opened Wrappers
  import opened Domain
  import opened Store
  import opened CryptoRepo
  import opened CoinCap

  /** The exceptions an ingestion step raises. */
  datatype ServiceError = Api(api: ApiError) | Db(db: DbError)

  /** What one ingestion step does: its outcome and the rows it appends. */
  datatype Effect<T> = Effect(outcome: Outcome<ServiceError>, inserted: seq<T>)

  // -------------------------------------------------------------- watermark

  /** The inclusive range of dates to fetch. */
  datatype Window = Window(start: DateTime, end: DateTime)

  /**
   * The caller's start date if given; otherwise one day after the asset's
   * latest stored date, or 2018-01-01 when nothing is stored for it.  The end
   * is always one day before `now`, and nothing checks that start <= end.
   */
  function ResolveWindow(rows: seq<HistoryRow>, assetId: AssetId, startDate: Option<DateTime>, now: DateTime): (w: Window)
    ensures w.end == now - Day
    ensures startDate.Some? ==> w.start == startDate.value
    ensures startDate.None? && (forall x :: x in rows ==> x.assetId != assetId) ==> w.start == DefaultStart
    ensures startDate.None? && (exists x :: x in rows && x.assetId == assetId) ==>
      && (exists x :: x in rows && x.assetId == assetId && x.date == w.start - Day)
      && (forall x :: x in rows && x.assetId == assetId ==> x.date <= w.start - Day)
  {
    var start :=
      match startDate
      case Some(s) => s
      case None =>
        match LatestDate(rows, assetId)
        case Some(latest) => latest + Day
        case None => DefaultStart;
    Window(start, now - Day)
  }

  // ------------------------------------------------------------------ dedup

  /** The dates already stored for `assetId` within the window. */
  function StoredDates(rows: seq<HistoryRow>, assetId: AssetId, w: Window): (r: set<DateTime>)
    ensures forall d :: d in r <==> exists x :: x in rows && x.assetId == assetId && w.start <= x.date <= w.end && x.date == d
  {
    set x | x in RowsInRange(rows, assetId, w.start, w.end) :: x.date
  }

  /** The row stored for a fetched entry: its date-time from its timestamp, its price through a float. */
  function ToHistoryRow(assetId: AssetId, item: ApiHistory, env: Env): (r: HistoryRow)
    ensures HistoryKeyOf(r) == HistoryKey(assetId, env.dateOf(item.time))
    ensures r.time == item.time && r.priceUsd == env.toFloat(item.priceUsd)
  {
    HistoryRow(assetId, env.toFloat(item.priceUsd), env.dateOf(item.time), item.time)
  }

  /**
   * The rows for the fetched entries, in fetched order, whose date-time is not
   * in `existing`.  Date-times repeated within `fetched` are not filtered.
   */
  function NewRows(assetId: AssetId, fetched: seq<ApiHistory>, existing: set<DateTime>, env: Env): (r: seq<HistoryRow>)
    ensures |r| <= |fetched|
    ensures forall x :: x in r ==> x.assetId == assetId && x.date !in existing
    ensures forall x :: x in r ==> exists i :: 0 <= i < |fetched| && x == ToHistoryRow(assetId, fetched[i], env)
  {
    if fetched == [] then []
    else
      var init := NewRows(assetId, fetched[..|fetched| - 1], existing, env);
      var last := fetched[|fetched| - 1];
      if env.dateOf(last.time) in existing then init else init + [ToHistoryRow(assetId, last, env)]
  }

  /** A fetched entry is kept exactly when its date-time is not stored. */
  lemma {:induction false} NewRowsKeepExactlyUnstored(assetId: AssetId, fetched: seq<ApiHistory>, existing: set<DateTime>, env: Env, i: nat)
    requires i < |fetched|
    ensures ToHistoryRow(assetId, fetched[i], env) in NewRows(assetId, fetched, existing, env)
        <==> env.dateOf(fetched[i].time) !in existing
  {
    var n := |fetched|;
    if i < n - 1 {
      assert fetched[..n - 1][i] == fetched[i];
      NewRowsKeepExactlyUnstored(assetId, fetched[..n - 1], existing, env, i);
    }
  }

  /** The filter works entry by entry, so it keeps fetched order. */
  lemma {:induction false} NewRowsDistribute(assetId: AssetId, a: seq<ApiHistory>, b: seq<ApiHistory>, existing: set<DateTime>, env: Env)
    ensures NewRows(assetId, a + b, existing, env) == NewRows(assetId, a, existing, env) + NewRows(assetId, b, existing, env)
    decreases |b|
  {
    if b == [] {
      assert a + b == a;
    } else {
      var n := |b|;
      assert (a + b)[..|a + b| - 1] == a + b[..n - 1];
      assert (a + b)[|a + b| - 1] == b[n - 1];
      NewRowsDistribute(assetId, a, b[..n - 1], existing, env);
    }
  }

  /** Nothing is kept exactly when every fetched date-time is already stored. */
  lemma {:induction false} NewRowsEmptyIffAllStored(assetId: AssetId, fetched: seq<ApiHistory>, existing: set<DateTime>, env: Env)
    ensures NewRows(assetId, fetched, existing, env) == []
        <==> forall i :: 0 <= i < |fetched| ==> env.dateOf(fetched[i].time) in existing
  {
    if NewRows(assetId, fetched, existing, env) == [] {
      forall i | 0 <= i < |fetched| ensures env.dateOf(fetched[i].time) in existing {
        NewRowsKeepExactlyUnstored(assetId, fetched, existing, env, i);
      }
    } else {
      var x := NewRows(assetId, fetched, existing, env)[0];
      var i :| 0 <= i < |fetched| && x == ToHistoryRow(assetId, fetched[i], env);
      assert env.dateOf(fetched[i].time) !in existing;
    }
  }

  /** Runs the filter with a loop that appends, as the service does. */
  method BuildHistoryRows(assetId: AssetId, fetched: seq<ApiHistory>, existing: set<DateTime>, env: Env)
    returns (rows: seq<HistoryRow>)
    ensures rows == NewRows(assetId, fetched, existing, env)
  {
    rows := [];
    for i := 0 to |fetched|
      invariant rows == NewRows(assetId, fetched[..i], existing, env)
    {
      var item := fetched[i];
      var recordDate := env.dateOf(item.time);
      assert fetched[..i + 1][..i] == fetched[..i];
      if recordDate !in existing {
        rows := rows + [HistoryRow(assetId, env.toFloat(item.priceUsd), recordDate, item.time)];
      }
    }
    assert fetched[..|fetched|] == fetched;
  }

  /**
   * One history ingestion once the fetch is done: nothing is written when
   * every fetched date-time is stored (or nothing was fetched), and the commit of
   * the new rows either stores all of them or, on a key clash, none.
   */
  function HistoryEffect(rows: seq<HistoryRow>, assetId: AssetId, startDate: Option<DateTime>, env: Env,
                         fetch: Result<seq<ApiHistory>, ApiError>): (e: Effect<HistoryRow>)
    ensures e.outcome.Fail? ==> e.inserted == []
    ensures fetch.Failure? ==> e == Effect(Fail(Api(fetch.error)), [])
    ensures forall x :: x in e.inserted ==>
      x.assetId == assetId && x.date !in StoredDates(rows, assetId, ResolveWindow(rows, assetId, startDate, env.now))
    ensures e.inserted != [] ==> e.outcome.Pass? && Admits(rows, e.inserted, HistoryKeyOf)
    ensures fetch.Success? ==>
      (e.outcome.Pass? <==>
        Admits(rows, NewRows(assetId, fetch.value, StoredDates(rows, assetId, ResolveWindow(rows, assetId, startDate, env.now)), env), HistoryKeyOf))
    ensures fetch.Success? && e.outcome.Fail? ==> e.outcome.error == Db(IntegrityError)
    ensures fetch.Success? && e.outcome.Pass? ==>
      e.inserted == NewRows(assetId, fetch.value, StoredDates(rows, assetId, ResolveWindow(rows, assetId, startDate, env.now)), env)
  {
    match fetch
    case Failure(err) => Effect(Fail(Api(err)), [])
    case Success(fetched) =>
      var w := ResolveWindow(rows, assetId, startDate, env.now);
      var batch := NewRows(assetId, fetched, StoredDates(rows, assetId, w), env);
      if batch == [] then Effect(Pass, [])
      else if Admits(rows, batch, HistoryKeyOf) then Effect(Pass, batch)
      else Effect(Fail(Db(IntegrityError)), [])
  }

  /**
   * A second run over the same window with the same answer inserts nothing,
   * provided every fetched date-time lies in the window and the first run succeeded.
   */
  lemma RerunInsertsNothing(rows: seq<HistoryRow>, assetId: AssetId, start: DateTime, env: Env, fetched: seq<ApiHistory>)
    requires forall i :: 0 <= i < |fetched| ==> start <= env.dateOf(fetched[i].time) <= env.now - Day
    requires HistoryEffect(rows, assetId, Some(start), env, Success(fetched)).outcome.Pass?
    ensures var first := HistoryEffect(rows, assetId, Some(start), env, Success(fetched));
      HistoryEffect(rows + first.inserted, assetId, Some(start), env, Success(fetched)) == Effect(Pass, [])
  {
    var w := Window(start, env.now - Day);
    var first := HistoryEffect(rows, assetId, Some(start), env, Success(fetched));
    var after := rows + first.inserted;
    var before := StoredDates(rows, assetId, w);
    var now := StoredDates(after, assetId, w);
    forall i | 0 <= i < |fetched| ensures env.dateOf(fetched[i].time) in now {
      var d := env.dateOf(fetched[i].time);
      var x := ToHistoryRow(assetId, fetched[i], env);
      if d in before {
        var y :| y in rows && y.assetId == assetId && w.start <= y.date <= w.end && y.date == d;
        assert y in after;
      } else {
        NewRowsKeepExactlyUnstored(assetId, fetched, before, env, i);
        assert x in after && x.assetId == assetId && x.date == d;
      }
    }
    NewRowsEmptyIffAllStored(assetId, fetched, now, env);
  }

  /**
   * The filter compares with stored date-times only: two fetched entries with
   * the same unstored date-time make the commit fail, and nothing is stored.
   */
  lemma RepeatedDateInOneFetchFails(rows: seq<HistoryRow>, assetId: AssetId, startDate: Option<DateTime>, env: Env,
                                   fetched: seq<ApiHistory>, i: nat, j: nat)
    requires i < j < |fetched|
    requires env.dateOf(fetched[i].time) == env.dateOf(fetched[j].time)
    requires env.dateOf(fetched[i].time) !in StoredDates(rows, assetId, ResolveWindow(rows, assetId, startDate, env.now))
    ensures HistoryEffect(rows, assetId, startDate, env, Success(fetched)) == Effect(Fail(Db(IntegrityError)), [])
  {
    var existing := StoredDates(rows, assetId, ResolveWindow(rows, assetId, startDate, env.now));
    RepeatedDateBreaksKey(assetId, fetched, existing, env, i, j);
  }

  lemma RepeatedDateBreaksKey(assetId: AssetId, fetched: seq<ApiHistory>, existing: set<DateTime>, env: Env, i: nat, j: nat)
    requires i < j < |fetched|
    requires env.dateOf(fetched[i].time) == env.dateOf(fetched[j].time)
    requires env.dateOf(fetched[i].time) !in existing
    ensures !UniqueKeys(NewRows(assetId, fetched, existing, env), HistoryKeyOf)
  {
    var a, b := fetched[..j], fetched[j..];
    assert fetched == a + b;
    NewRowsDistribute(assetId, a, b, existing, env);
    var left := NewRows(assetId, a, existing, env);
    var right := NewRows(assetId, b, existing, env);
    assert a[i] == fetched[i] && b[0] == fetched[j];
    NewRowsKeepExactlyUnstored(assetId, a, existing, env, i);
    NewRowsKeepExactlyUnstored(assetId, b, existing, env, 0);
    var p :| 0 <= p < |left| && left[p] == ToHistoryRow(assetId, fetched[i], env);
    var q :| 0 <= q < |right| && right[q] == ToHistoryRow(assetId, fetched[j], env);
    ConcatIndex(left, right, p, q);
    assert HistoryKeyOf((left + right)[p]) == HistoryKeyOf((left + right)[|left| + q]);
  }

  /** Where the elements of two joined sequences sit. */
  lemma ConcatIndex<T>(left: seq<T>, right: seq<T>, p: nat, q: nat)
    requires p < |left| && q < |right|
    ensures (left + right)[p] == left[p] && (left + right)[|left| + q] == right[q]
  {
  }

  // ---------------------------------------------------------------- markets

  /** The row stored for a fetched market, stamped by the database at `createdAt`. */
  function ToMarketRow(m: ApiMarket, createdAt: Instant): (r: MarketRow)
    ensures MarketOf(r) == m && r.createdAt == createdAt
  {
    MarketRow(m.exchangeId, m.baseId, m.quoteId, m.baseSymbol, m.quoteSymbol,
              m.volumeUsd24h, m.priceUsd, m.volumePercent, createdAt)
  }

  /** The market a row was made from. */
  function MarketOf(row: MarketRow): ApiMarket
  {
    ApiMarket(row.exchangeId, row.baseId, row.quoteId, row.baseSymbol, row.quoteSymbol,
              row.volumeUsd24h, row.priceUsd, row.volumePercent)
  }

  /** Mapping a market to a row loses nothing but adds the stamp. */
  lemma MarketRowRoundTrip(m: ApiMarket, row: MarketRow, createdAt: Instant)
    ensures MarketOf(ToMarketRow(m, createdAt)) == m
    ensures ToMarketRow(MarketOf(row), row.createdAt) == row
  {
  }

  /** Runs the mapping with a loop that appends, as the service does. */
  method BuildMarketRows(fetched: seq<ApiMarket>, createdAt: Instant) returns (rows: seq<MarketRow>)
    ensures |rows| == |fetched|
    ensures forall i :: 0 <= i < |fetched| ==> MarketOf(rows[i]) == fetched[i] && rows[i].createdAt == createdAt
  {
    rows := [];
    for i := 0 to |fetched|
      invariant |rows| == i
      invariant forall k :: 0 <= k < i ==> rows[k] == ToMarketRow(fetched[k], createdAt)
    {
      var market := fetched[i];
      rows := rows + [MarketRow(market.exchangeId, market.baseId, market.quoteId,
                                market.baseSymbol, market.quoteSymbol,
                                market.volumeUsd24h, market.priceUsd, market.volumePercent, createdAt)];
    }
  }

  /** The rows for a fetched page of markets, one per market, in order. */
  function MarketRows(fetched: seq<ApiMarket>, createdAt: Instant): (r: seq<MarketRow>)
    ensures |r| == |fetched|
    ensures forall i :: 0 <= i < |fetched| ==> MarketOf(r[i]) == fetched[i] && r[i].createdAt == createdAt
  {
    seq(|fetched|, i requires 0 <= i < |fetched| => ToMarketRow(fetched[i], createdAt))
  }

  /** One market ingestion once the fetch is done. */
  function MarketEffect(rows: seq<MarketRow>, fetch: Result<seq<ApiMarket>, ApiError>, createdAt: Instant): (e: Effect<MarketRow>)
    ensures e.outcome.Fail? ==> e.inserted == []
    ensures fetch.Failure? ==> e == Effect(Fail(Api(fetch.error)), [])
    ensures fetch == Success([]) ==> e == Effect(Pass, [])
    ensures fetch.Success? && e.outcome.Pass? ==>
      && |e.inserted| == |fetch.value|
      && forall i :: 0 <= i < |fetch.value| ==> MarketOf(e.inserted[i]) == fetch.value[i] && e.inserted[i].createdAt == createdAt
    ensures e.inserted != [] ==> Admits(rows, e.inserted, MarketKeyOf)
    ensures fetch.Success? ==> (e.outcome.Pass? <==> Admits(rows, MarketRows(fetch.value, createdAt), MarketKeyOf))
    ensures fetch.Success? && e.outcome.Fail? ==> e.outcome.error == Db(IntegrityError)
  {
    match fetch
    case Failure(err) => Effect(Fail(Api(err)), [])
    case Success(fetched) =>
      var batch := MarketRows(fetched, createdAt);
      if batch == [] then Effect(Pass, [])
      else if Admits(rows, batch, MarketKeyOf) then Effect(Pass, batch)
      else Effect(Fail(Db(IntegrityError)), [])
  }

  /**
   * A snapshot stamped at an instant no stored row has, whose pairs are
   * distinct, is always stored in full: snapshots only ever clash within one
   * instant.
   */
  lemma FreshSnapshotIsStored(rows: seq<MarketRow>, fetched: seq<ApiMarket>, createdAt: Instant)
    requires forall x :: x in rows ==> x.createdAt != createdAt
    requires forall i, j :: 0 <= i < j < |fetched| ==>
      (fetched[i].baseId, fetched[i].quoteId, fetched[i].exchangeId) != (fetched[j].baseId, fetched[j].quoteId, fetched[j].exchangeId)
    ensures MarketEffect(rows, Success(fetched), createdAt) == Effect(Pass, MarketRows(fetched, createdAt))
  {
    var batch := MarketRows(fetched, createdAt);
    forall i, j | 0 <= i < |rows| && 0 <= j < |batch| ensures MarketKeyOf(rows[i]) != MarketKeyOf(batch[j]) {
      assert rows[i] in rows;
    }
    forall i, j | 0 <= i < j < |batch| ensures MarketKeyOf(batch[i]) != MarketKeyOf(batch[j]) {
      assert MarketOf(batch[i]) == fetched[i] && MarketOf(batch[j]) == fetched[j];
    }
  }

  // ---------------------------------------------------------- orchestration

  datatype StepKind = HistoryStep | MarketStep

  /** The steps run for one asset: history first, then market unless the history step raised. */
  function AssetSteps(assetId: AssetId, ingestHistory: bool, ingestMarket: bool, historyRaised: bool): seq<(AssetId, StepKind)>
  {
    (if ingestHistory then [(assetId, HistoryStep)] else [])
    + (if ingestMarket && !(ingestHistory && historyRaised) then [(assetId, MarketStep)] else [])
  }

  /**
   * The history step runs exactly when history is enabled, the market step
   * exactly when markets are enabled and no history step raised, and history
   * comes first.
   */
  lemma AssetStepsShape(assetId: AssetId, ingestHistory: bool, ingestMarket: bool, historyRaised: bool)
    ensures var s := AssetSteps(assetId, ingestHistory, ingestMarket, historyRaised);
      && ((assetId, HistoryStep) in s <==> ingestHistory)
      && ((assetId, MarketStep) in s <==> ingestMarket && !(ingestHistory && historyRaised))
      && (forall p :: 0 <= p < |s| ==> s[p].0 == assetId)
      && (|s| == 2 ==> s[0].1 == HistoryStep && s[1].1 == MarketStep)
  {
  }

  /** The steps of a whole run, asset after asset in list order. */
  function Schedule(assetIds: seq<AssetId>, ingestHistory: bool, ingestMarket: bool, historyRaised: seq<bool>): seq<(AssetId, StepKind)>
    requires |historyRaised| == |assetIds|
  {
    if assetIds == [] then []
    else
      var n := |assetIds| - 1;
      Schedule(assetIds[..n], ingestHistory, ingestMarket, historyRaised[..n])
      + AssetSteps(assetIds[n], ingestHistory, ingestMarket, historyRaised[n])
  }

  /**
   * The run splits at any asset into the steps before it, its own steps and
   * the steps after it; neither side depends on whether that asset's history
   * step raised.
   */
  lemma {:induction false} ScheduleSplits(assetIds: seq<AssetId>, ingestHistory: bool, ingestMarket: bool, historyRaised: seq<bool>, k: nat)
    requires |historyRaised| == |assetIds| && k < |assetIds|
    ensures Schedule(assetIds, ingestHistory, ingestMarket, historyRaised)
      == Schedule(assetIds[..k], ingestHistory, ingestMarket, historyRaised[..k])
       + AssetSteps(assetIds[k], ingestHistory, ingestMarket, historyRaised[k])
       + Schedule(assetIds[k + 1..], ingestHistory, ingestMarket, historyRaised[k + 1..])
    decreases |assetIds|
  {
    var n := |assetIds| - 1;
    var ids, flags := assetIds[..n], historyRaised[..n];
    if k == n {
      assert assetIds[k + 1..] == [] && historyRaised[k + 1..] == [];
      assert ids == assetIds[..k] && flags == historyRaised[..k];
    } else {
      ScheduleSplits(ids, ingestHistory, ingestMarket, flags, k);
      assert ids[..k] == assetIds[..k] && flags[..k] == historyRaised[..k];
      assert ids[k] == assetIds[k] && flags[k] == historyRaised[k];
      var tailIds, tailFlags := assetIds[k + 1..], historyRaised[k + 1..];
      assert tailIds[..|tailIds| - 1] == ids[k + 1..];
      assert tailFlags[..|tailFlags| - 1] == flags[k + 1..];
      assert tailIds[|tailIds| - 1] == assetIds[n] && tailFlags[|tailFlags| - 1] == historyRaised[n];
      var before := Schedule(assetIds[..k], ingestHistory, ingestMarket, historyRaised[..k]);
      var own := AssetSteps(assetIds[k], ingestHistory, ingestMarket, historyRaised[k]);
      var middle := Schedule(ids[k + 1..], ingestHistory, ingestMarket, flags[k + 1..]);
      var last := AssetSteps(assetIds[n], ingestHistory, ingestMarket, historyRaised[n]);
      assert Schedule(tailIds, ingestHistory, ingestMarket, tailFlags) == middle + last;
      assert Schedule(assetIds, ingestHistory, ingestMarket, historyRaised) == before + own + middle + last;
    }
  }

  /** An asset's failure changes only its own steps: the other assets run the same steps. */
  lemma FailureIsIsolated(assetIds: seq<AssetId>, ingestHistory: bool, ingestMarket: bool, historyRaised: seq<bool>, k: nat)
    requires |historyRaised| == |assetIds| && k < |assetIds|
    ensures var ok := Schedule(assetIds, ingestHistory, ingestMarket, historyRaised[k := false]);
            var failed := Schedule(assetIds, ingestHistory, ingestMarket, historyRaised[k := true]);
            var before := Schedule(assetIds[..k], ingestHistory, ingestMarket, historyRaised[..k]);
            var after := Schedule(assetIds[k + 1..], ingestHistory, ingestMarket, historyRaised[k + 1..]);
            && ok == before + AssetSteps(assetIds[k], ingestHistory, ingestMarket, false) + after
            && failed == before + AssetSteps(assetIds[k], ingestHistory, ingestMarket, true) + after
  {
    var up := historyRaised[k := true];
    var down := historyRaised[k := false];
    ScheduleSplits(assetIds, ingestHistory, ingestMarket, up, k);
    ScheduleSplits(assetIds, ingestHistory, ingestMarket, down, k);
    assert up[..k] == historyRaised[..k] == down[..k];
    assert up[k + 1..] == historyRaised[k + 1..] == down[k + 1..];
  }

  /** How a step of one asset ended. */
  datatype StepResult = Skipped | Succeeded | Raised(error: ServiceError)

  /** What the run did for one asset: step results, the requests sent and the rows appended by each step. */
  datatype AssetReport = AssetReport(
    assetId: AssetId, history: StepResult, market: StepResult,
    historySent: seq<Request>, marketSent: seq<Request>,
    historyAdded: seq<HistoryRow>, marketAdded: seq<MarketRow>)

  function StepsOf(reports: seq<AssetReport>): seq<(AssetId, StepKind)>
  {
    if reports == [] then []
    else
      var r := reports[|reports| - 1];
      StepsOf(reports[..|reports| - 1])
      + (if r.history.Skipped? then [] else [(r.assetId, HistoryStep)])
      + (if r.market.Skipped? then [] else [(r.assetId, MarketStep)])
  }

  function RaisedFlags(reports: seq<AssetReport>): (f: seq<bool>)
    ensures |f| == |reports|
    ensures forall i :: 0 <= i < |reports| ==> f[i] == reports[i].history.Raised?
  {
    seq(|reports|, i requires 0 <= i < |reports| => reports[i].history.Raised?)
  }

  function Ids(reports: seq<AssetReport>): (ids: seq<AssetId>)
    ensures |ids| == |reports|
    ensures forall i :: 0 <= i < |reports| ==> ids[i] == reports[i].assetId
  {
    seq(|reports|, i requires 0 <= i < |reports| => reports[i].assetId)
  }

  /** Every request of the run, asset after asset, history requests before market requests. */
  function SentBy(reports: seq<AssetReport>): seq<Request>
  {
    if reports == [] then []
    else
      var r := reports[|reports| - 1];
      SentBy(reports[..|reports| - 1]) + r.historySent + r.marketSent
  }

  function HistoryAddedBy(reports: seq<AssetReport>): seq<HistoryRow>
  {
    if reports == [] then [] else HistoryAddedBy(reports[..|reports| - 1]) + reports[|reports| - 1].historyAdded
  }

  function MarketsAddedBy(reports: seq<AssetReport>): seq<MarketRow>
  {
    if reports == [] then [] else MarketsAddedBy(reports[..|reports| - 1]) + reports[|reports| - 1].marketAdded
  }

  /** The history step ran exactly when enabled, the market step exactly when enabled and history did not raise. */
  predicate RanByFlags(r: AssetReport, ingestHistory: bool, ingestMarket: bool)
  {
    && (r.history.Skipped? <==> !ingestHistory)
    && (r.market.Skipped? <==> !ingestMarket || r.history.Raised?)
  }

  /** Regrouping a log that grows by two pieces. */
  lemma Regroup<T>(start: seq<T>, earlier: seq<T>, a: seq<T>, b: seq<T>)
    ensures start + earlier + a + b == start + (earlier + a + b)
    ensures start + earlier + a == start + (earlier + a)
  {
  }

  /** The run's logs grow by one asset's report at a time. */
  lemma ReportAppended(reports: seq<AssetReport>, r: AssetReport)
    ensures Ids(reports + [r]) == Ids(reports) + [r.assetId]
    ensures SentBy(reports + [r]) == SentBy(reports) + r.historySent + r.marketSent
    ensures HistoryAddedBy(reports + [r]) == HistoryAddedBy(reports) + r.historyAdded
    ensures MarketsAddedBy(reports + [r]) == MarketsAddedBy(reports) + r.marketAdded
  {
    assert (reports + [r])[..|reports|] == reports;
  }

  /** The report of one asset is consistent with the flags and with what each step may do. */
  ghost predicate Reported(r: AssetReport, ingestHistory: bool, ingestMarket: bool)
  {
    && RanByFlags(r, ingestHistory, ingestMarket)
    && (r.history.Skipped? ==> r.historySent == [] && r.historyAdded == [])
    && (r.market.Skipped? ==> r.marketSent == [] && r.marketAdded == [])
    && (!r.history.Skipped? ==> 1 <= |r.historySent| <= MaxRetries)
    && (!r.market.Skipped? ==> 1 <= |r.marketSent| <= MaxRetries)
    && (r.history.Raised? ==> r.historyAdded == [])
    && (r.market.Raised? ==> r.marketAdded == [])
    && (forall q :: q in r.historySent ==> q.path == HistoryPath(r.assetId))
    && (forall q :: q in r.marketSent ==> q.path == MarketsPath(r.assetId))
    && (forall x :: x in r.historyAdded ==> x.assetId == r.assetId)
  }

  lemma ReportsFollowSchedule(reports: seq<AssetReport>, ingestHistory: bool, ingestMarket: bool)
    requires forall i :: 0 <= i < |reports| ==> Reported(reports[i], ingestHistory, ingestMarket)
    ensures StepsOf(reports) == Schedule(Ids(reports), ingestHistory, ingestMarket, RaisedFlags(reports))
  {
    StepsFollowSchedule(reports, ingestHistory, ingestMarket);
  }

  lemma {:induction false} StepsFollowSchedule(reports: seq<AssetReport>, ingestHistory: bool, ingestMarket: bool)
    requires forall i :: 0 <= i < |reports| ==> RanByFlags(reports[i], ingestHistory, ingestMarket)
    ensures StepsOf(reports) == Schedule(Ids(reports), ingestHistory, ingestMarket, RaisedFlags(reports))
  {
    if reports != [] {
      var n := |reports| - 1;
      var init, r := reports[..n], reports[n];
      StepsFollowSchedule(init, ingestHistory, ingestMarket);
      var ids, flags := Ids(reports), RaisedFlags(reports);
      assert ids[..n] == Ids(init);
      assert flags[..n] == RaisedFlags(init);
      OwnStepsFollowFlags(r, ingestHistory, ingestMarket);
      assert ids[n] == r.assetId && flags[n] == r.history.Raised?;
    }
  }

  /** The steps one report records are the steps the flags call for. */
  lemma OwnStepsFollowFlags(r: AssetReport, ingestHistory: bool, ingestMarket: bool)
    requires RanByFlags(r, ingestHistory, ingestMarket)
    ensures AssetSteps(r.assetId, ingestHistory, ingestMarket, r.history.Raised?)
      == (if r.history.Skipped? then [] else [(r.assetId, HistoryStep)])
       + (if r.market.Skipped? then [] else [(r.assetId, MarketStep)])
  {
  }

  /** How a step ended, from what it returned or raised. */
  function ResultOf(o: Outcome<ServiceError>): (s: StepResult)
    ensures s.Raised? <==> o.Fail?
    ensures s.Raised? ==> s.error == o.error
    ensures !s.Skipped?
  {
    if o.Fail? then Raised(o.error) else Succeeded
  }

  /** One step of one asset: how it ended, the requests it sent and the rows it appended. */
  datatype StepRun<T> = StepRun(result: StepResult, sent: seq<Request>, added: seq<T>)

  /** The history step over a table holding `rows`, when `sent` requests went out before it. */
  function HistoryStepRun(client: CoinCapClient, rows: seq<HistoryRow>, sent: nat,
                          assetId: AssetId, startDate: Option<DateTime>, env: Env): StepRun<HistoryRow>
  {
    var w := ResolveWindow(rows, assetId, startDate, env.now);
    var run := Attempts(client.transport.respond, sent, 0);
    var e := HistoryEffect(rows, assetId, startDate, env, AsHistory(run.result));
    StepRun(ResultOf(e.outcome),
            Repeat(client.HistoryRequest(assetId, "d1", Some(env.millisOf(w.start)), Some(env.millisOf(w.end))), run.issued),
            e.inserted)
  }

  /** The market step over a table holding `rows`, when `sent` requests went out before it. */
  function MarketStepRun(client: CoinCapClient, rows: seq<MarketRow>, sent: nat,
                         assetId: AssetId, limit: int, offset: int, createdAt: Instant): StepRun<MarketRow>
  {
    var run := Attempts(client.transport.respond, sent, 0);
    var e := MarketEffect(rows, AsMarkets(run.result), createdAt);
    StepRun(ResultOf(e.outcome), Repeat(client.MarketsRequest(assetId, limit, offset), run.issued), e.inserted)
  }

  /**
   * The history step always runs: it sends the window's daily request 1 to
   * MaxRetries times, adds no rows when it raises, and adds only rows of the
   * asset that the key admits.
   */
  lemma HistoryStepRunShape(client: CoinCapClient, rows: seq<HistoryRow>, sent: nat,
                            assetId: AssetId, startDate: Option<DateTime>, env: Env)
    ensures var r := HistoryStepRun(client, rows, sent, assetId, startDate, env);
      var w := ResolveWindow(rows, assetId, startDate, env.now);
      && !r.result.Skipped? && 1 <= |r.sent| <= MaxRetries
      && (forall q :: q in r.sent ==> q == client.HistoryRequest(assetId, "d1", Some(env.millisOf(w.start)), Some(env.millisOf(w.end))))
      && (r.result.Raised? ==> r.added == [])
      && (r.added != [] ==> Admits(rows, r.added, HistoryKeyOf) && forall x :: x in r.added ==> x.assetId == assetId)
  {
    var w := ResolveWindow(rows, assetId, startDate, env.now);
    RepeatHolds(client.HistoryRequest(assetId, "d1", Some(env.millisOf(w.start)), Some(env.millisOf(w.end))),
                Attempts(client.transport.respond, sent, 0).issued);
  }

  /**
   * The market step always runs: it sends the page's request 1 to MaxRetries
   * times, adds no rows when it raises, and adds only rows with the batch
   * stamp that the key admits.
   */
  lemma MarketStepRunShape(client: CoinCapClient, rows: seq<MarketRow>, sent: nat,
                           assetId: AssetId, limit: int, offset: int, createdAt: Instant)
    ensures var r := MarketStepRun(client, rows, sent, assetId, limit, offset, createdAt);
      && !r.result.Skipped? && 1 <= |r.sent| <= MaxRetries
      && (forall q :: q in r.sent ==> q == client.MarketsRequest(assetId, limit, offset))
      && (r.result.Raised? ==> r.added == [])
      && (r.added != [] ==> Admits(rows, r.added, MarketKeyOf) && forall x :: x in r.added ==> x.createdAt == createdAt)
  {
    RepeatHolds(client.MarketsRequest(assetId, limit, offset), Attempts(client.transport.respond, sent, 0).issued);
  }

  /** The options a run applies to every asset. */
  datatype Settings = Settings(startDate: Option<DateTime>, ingestHistory: bool, ingestMarket: bool,
                               marketLimit: int, marketOffset: int)

  /**
   * What the body of the orchestrator's `try` does for one asset over tables
   * holding `history` and `markets`, when `sent` requests went out before it:
   * history if enabled, then markets if enabled and history did not raise.
   */
  function AssetRun(client: CoinCapClient, history: seq<HistoryRow>, markets: seq<MarketRow>, sent: nat,
                    assetId: AssetId, s: Settings, env: Env, createdAt: Instant): AssetReport
  {
    var h := HistoryPart(client, history, sent, assetId, s, env);
    var m := MarketPart(client, markets, sent + |h.sent|, assetId, s, h.result.Raised?, createdAt);
    AssetReport(assetId, h.result, m.result, h.sent, m.sent, h.added, m.added)
  }

  /** The history step of one asset, when the flags enable it. */
  function HistoryPart(client: CoinCapClient, history: seq<HistoryRow>, sent: nat, assetId: AssetId, s: Settings, env: Env): StepRun<HistoryRow>
  {
    if s.ingestHistory then HistoryStepRun(client, history, sent, assetId, s.startDate, env) else StepRun(Skipped, [], [])
  }

  /** The market step of one asset, when the flags enable it and the history step did not raise. */
  function MarketPart(client: CoinCapClient, markets: seq<MarketRow>, sent: nat, assetId: AssetId, s: Settings,
                      historyRaised: bool, createdAt: Instant): StepRun<MarketRow>
  {
    if s.ingestMarket && !historyRaised then MarketStepRun(client, markets, sent, assetId, s.marketLimit, s.marketOffset, createdAt)
    else StepRun(Skipped, [], [])
  }

  /** A request repeated n times is n copies of it. */
  lemma RepeatHolds<T>(x: T, n: nat)
    ensures |Repeat(x, n)| == n && forall y :: y in Repeat(x, n) ==> y == x
  {
  }

  /** Every asset's run follows the flags, sends 1 to MaxRetries requests per step to its own paths, and adds rows only in steps that did not raise. */
  lemma AssetRunReported(client: CoinCapClient, history: seq<HistoryRow>, markets: seq<MarketRow>, sent: nat,
                         assetId: AssetId, s: Settings, env: Env, createdAt: Instant)
    ensures Reported(AssetRun(client, history, markets, sent, assetId, s, env, createdAt), s.ingestHistory, s.ingestMarket)
  {
    var r := AssetRun(client, history, markets, sent, assetId, s, env, createdAt);
    if s.ingestHistory {
      var w := ResolveWindow(history, assetId, s.startDate, env.now);
      var run := Attempts(client.transport.respond, sent, 0);
      RepeatHolds(client.HistoryRequest(assetId, "d1", Some(env.millisOf(w.start)), Some(env.millisOf(w.end))), run.issued);
    }
    if s.ingestMarket && !r.history.Raised? {
      var run := Attempts(client.transport.respond, sent + |r.historySent|, 0);
      RepeatHolds(client.MarketsRequest(assetId, s.marketLimit, s.marketOffset), run.issued);
    }
  }

  /** One asset's run, from the tables and the request count left before it, its id and its position. */
  type AssetStep = (seq<HistoryRow>, seq<MarketRow>, nat, AssetId, nat) -> AssetReport

  /** The orchestrator's step: `AssetRun` with the i-th clock reading and stamp. */
  function Ingestion(client: CoinCapClient, s: Settings, envOf: nat -> Env, stampOf: nat -> Instant): AssetStep
  {
    (history: seq<HistoryRow>, markets: seq<MarketRow>, sent: nat, assetId: AssetId, i: nat) => AssetRun(client, history, markets, sent, assetId, s, envOf(i), stampOf(i))
  }

  /** Every report of `step` is about the asset it was given and consistent with the flags. */
  ghost predicate WellReported(step: AssetStep, ingestHistory: bool, ingestMarket: bool)
  {
    forall h: seq<HistoryRow>, m: seq<MarketRow>, n: nat, id: AssetId, i: nat ::
      step(h, m, n, id, i).assetId == id && Reported(step(h, m, n, id, i), ingestHistory, ingestMarket)
  }

  lemma IngestionReported(client: CoinCapClient, s: Settings, envOf: nat -> Env, stampOf: nat -> Instant)
    ensures WellReported(Ingestion(client, s, envOf, stampOf), s.ingestHistory, s.ingestMarket)
  {
    var step := Ingestion(client, s, envOf, stampOf);
    forall h: seq<HistoryRow>, m: seq<MarketRow>, n: nat, id: AssetId, i: nat
      ensures step(h, m, n, id, i).assetId == id && Reported(step(h, m, n, id, i), s.ingestHistory, s.ingestMarket)
    {
      AssetRunReported(client, h, m, n, id, s, envOf(i), stampOf(i));
    }
  }

  /**
   * The reports of a whole run, asset after asset: each asset runs over the
   * tables and the connection as the assets before it left them.
   */
  function RunReports(step: AssetStep, assetIds: seq<AssetId>,
                      history0: seq<HistoryRow>, markets0: seq<MarketRow>, sent0: nat): (r: seq<AssetReport>)
    ensures |r| == |assetIds|
    decreases |assetIds|, 1
  {
    if assetIds == [] then []
    else RunReports(step, assetIds[..|assetIds| - 1], history0, markets0, sent0) + [LastReport(step, assetIds, history0, markets0, sent0)]
  }

  /** The report of the last asset of `assetIds`, run on what the assets before it left. */
  function LastReport(step: AssetStep, assetIds: seq<AssetId>,
                      history0: seq<HistoryRow>, markets0: seq<MarketRow>, sent0: nat): AssetReport
    requires assetIds != []
    decreases |assetIds|, 0
  {
    var n := |assetIds| - 1;
    var prev := RunReports(step, assetIds[..n], history0, markets0, sent0);
    step(history0 + HistoryAddedBy(prev), markets0 + MarketsAddedBy(prev), sent0 + |SentBy(prev)|, assetIds[n], n)
  }

  /** Running one more asset appends the report of that asset, run on what the earlier ones left. */
  lemma RunReportsExtend(step: AssetStep, assetIds: seq<AssetId>, history0: seq<HistoryRow>, markets0: seq<MarketRow>, sent0: nat,
                         i: nat, prev: seq<AssetReport>, history: seq<HistoryRow>, markets: seq<MarketRow>, sent: nat, next: AssetReport)
    requires i < |assetIds| && prev == RunReports(step, assetIds[..i], history0, markets0, sent0)
    requires history == history0 + HistoryAddedBy(prev) && markets == markets0 + MarketsAddedBy(prev) && sent == sent0 + |SentBy(prev)|
    requires next == step(history, markets, sent, assetIds[i], i)
    ensures RunReports(step, assetIds[..i + 1], history0, markets0, sent0) == prev + [next]
  {
    assert assetIds[..i + 1][..i] == assetIds[..i];
  }

  lemma {:induction false} RunReportsPrefix(step: AssetStep, assetIds: seq<AssetId>,
                                            history0: seq<HistoryRow>, markets0: seq<MarketRow>, sent0: nat, k: nat)
    requires k <= |assetIds|
    ensures RunReports(step, assetIds, history0, markets0, sent0)[..k] == RunReports(step, assetIds[..k], history0, markets0, sent0)
    decreases |assetIds|
  {
    if k < |assetIds| {
      var n := |assetIds| - 1;
      RunReportsPrefix(step, assetIds[..n], history0, markets0, sent0, k);
      assert assetIds[..n][..k] == assetIds[..k];
    } else {
      assert assetIds[..k] == assetIds;
    }
  }

  /**
   * The i-th asset's report is its run over the tables and the connection as
   * the assets before it left them: an earlier asset's error reaches the i-th
   * asset only through the rows and requests it left behind.
   */
  lemma EachAssetRunsOnWhatEarlierLeft(step: AssetStep, assetIds: seq<AssetId>,
                                       history0: seq<HistoryRow>, markets0: seq<MarketRow>, sent0: nat, i: nat)
    requires i < |assetIds|
    ensures var before := RunReports(step, assetIds[..i], history0, markets0, sent0);
      RunReports(step, assetIds, history0, markets0, sent0)[i]
        == step(history0 + HistoryAddedBy(before), markets0 + MarketsAddedBy(before), sent0 + |SentBy(before)|, assetIds[i], i)
  {
    var all := RunReports(step, assetIds, history0, markets0, sent0);
    var upTo := RunReports(step, assetIds[..i + 1], history0, markets0, sent0);
    var before := RunReports(step, assetIds[..i], history0, markets0, sent0);
    var history, markets, sent := history0 + HistoryAddedBy(before), markets0 + MarketsAddedBy(before), sent0 + |SentBy(before)|;
    RunReportsPrefix(step, assetIds, history0, markets0, sent0, i + 1);
    assert all[i] == all[..i + 1][i] == upTo[i];
    RunReportsExtend(step, assetIds, history0, markets0, sent0, i, before, history, markets, sent, step(history, markets, sent, assetIds[i], i));
  }

  /** A run of a well-reported step has one consistent report per asset, in list order. */
  lemma {:induction false} RunReportsReported(step: AssetStep, assetIds: seq<AssetId>, history0: seq<HistoryRow>, markets0: seq<MarketRow>,
                                              sent0: nat, ingestHistory: bool, ingestMarket: bool)
    requires WellReported(step, ingestHistory, ingestMarket)
    ensures var reports := RunReports(step, assetIds, history0, markets0, sent0);
      && Ids(reports) == assetIds
      && forall r :: r in reports ==> Reported(r, ingestHistory, ingestMarket)
    decreases |assetIds|
  {
    if assetIds != [] {
      var n := |assetIds| - 1;
      var prev := RunReports(step, assetIds[..n], history0, markets0, sent0);
      var reports := RunReports(step, assetIds, history0, markets0, sent0);
      RunReportsReported(step, assetIds[..n], history0, markets0, sent0, ingestHistory, ingestMarket);
      var history, markets, sent := history0 + HistoryAddedBy(prev), markets0 + MarketsAddedBy(prev), sent0 + |SentBy(prev)|;
      RunReportsExtend(step, assetIds, history0, markets0, sent0, n, prev, history, markets, sent, step(history, markets, sent, assetIds[n], n));
      assert assetIds[..n + 1] == assetIds;
      assert reports == prev + [step(history, markets, sent, assetIds[n], n)];
      forall i | 0 <= i < |reports| ensures reports[i].assetId == assetIds[i] {
        if i < n {
          assert reports[i] == prev[i] && assetIds[i] == assetIds[..n][i];
        }
      }
    }
  }

  /**
   * Every report of an ingestion run is about its own asset and follows the
   * flags, and the steps of the run follow the orchestrator's schedule.
   */
  lemma IngestionRunReported(client: CoinCapClient, s: Settings, envOf: nat -> Env, stampOf: nat -> Instant,
                             assetIds: seq<AssetId>, history0: seq<HistoryRow>, markets0: seq<MarketRow>, sent0: nat)
    ensures var reports := RunReports(Ingestion(client, s, envOf, stampOf), assetIds, history0, markets0, sent0);
      && Ids(reports) == assetIds
      && (forall i :: 0 <= i < |reports| ==> Reported(reports[i], s.ingestHistory, s.ingestMarket))
      && StepsOf(reports) == Schedule(assetIds, s.ingestHistory, s.ingestMarket, RaisedFlags(reports))
  {
    var step := Ingestion(client, s, envOf, stampOf);
    IngestionReported(client, s, envOf, stampOf);
    var reports := RunReports(step, assetIds, history0, markets0, sent0);
    RunReportsReported(step, assetIds, history0, markets0, sent0, s.ingestHistory, s.ingestMarket);
    forall i | 0 <= i < |reports| ensures Reported(reports[i], s.ingestHistory, s.ingestMarket) {
      assert reports[i] in reports;
    }
    ReportsFollowSchedule(reports, s.ingestHistory, s.ingestMarket);
  }

  // ---------------------------------------------------------------- service

  class CryptoService {
    const repo: CryptoRepository

    /** A service over a database that already holds `history0` and `markets0`. */
    constructor (history0: seq<HistoryRow>, markets0: seq<MarketRow>)
      requires UniqueKeys(history0, HistoryKeyOf) && UniqueKeys(markets0, MarketKeyOf)
      ensures repo.Valid() && fresh(repo) && fresh(repo.history) && fresh(repo.markets)
      ensures repo.history.rows == history0 && repo.markets.rows == markets0
    {
      repo := new CryptoRepository(history0, markets0);
    }

    /**
     * Fetches the asset's daily history over its window and stores the entries
     * not yet stored; re-raises every error.
     */
    method IngestAssetHistory(client: CoinCapClient, assetId: AssetId, startDate: Option<DateTime>, env: Env)
      returns (r: Outcome<ServiceError>)
      requires repo.Valid()
      modifies repo.history, client.transport
      ensures repo.Valid()
      ensures var w := ResolveWindow(old(repo.history.rows), assetId, startDate, env.now);
        var run := Attempts(client.transport.respond, |old(client.transport.sent)|, 0);
        var req := client.HistoryRequest(assetId, "d1", Some(env.millisOf(w.start)), Some(env.millisOf(w.end)));
        var e := HistoryEffect(old(repo.history.rows), assetId, startDate, env, AsHistory(run.result));
        && client.transport.sent == old(client.transport.sent) + Repeat(req, run.issued)
        && r == e.outcome
        && repo.history.rows == old(repo.history.rows) + e.inserted
    {
      ghost var rows0 := repo.history.rows;
      var start: DateTime;
      if startDate.None? {
        var latest := repo.GetLatestDate(assetId);
        if latest.Some? {
          start := latest.value + Day;
        } else {
          start := DefaultStart;
        }
      } else {
        start := startDate.value;
      }
      var end := env.now - Day;
      var w := Window(start, end);
      assert w == ResolveWindow(rows0, assetId, startDate, env.now);

      var fetch := client.GetHistory(assetId, "d1", Some(env.millisOf(start)), Some(env.millisOf(end)));
      if fetch.Failure? {
        return Fail(Api(fetch.error));
      }
      var historyData := fetch.value;
      if historyData == [] {
        return Pass;
      }

      var existingRecords := repo.GetAssetHistoryByDateRange(assetId, start, end);
      var existingDates := set x | x in existingRecords :: x.date;
      var dbModels := BuildHistoryRows(assetId, historyData, existingDates, env);
      if dbModels == [] {
        return Pass;
      }
      var inserted := repo.InsertAssetHistories(dbModels);
      if inserted.Failure? {
        return Fail(Db(inserted.error));
      }
      r := Pass;
    }

    /** Fetches one page of the asset's markets and stores one row per market; re-raises every error. */
    method IngestMarketData(client: CoinCapClient, assetId: AssetId, limit: int, offset: int, createdAt: Instant)
      returns (r: Outcome<ServiceError>)
      requires repo.Valid()
      modifies repo.markets, client.transport
      ensures repo.Valid()
      ensures var run := Attempts(client.transport.respond, |old(client.transport.sent)|, 0);
        var e := MarketEffect(old(repo.markets.rows), AsMarkets(run.result), createdAt);
        && client.transport.sent == old(client.transport.sent) + Repeat(client.MarketsRequest(assetId, limit, offset), run.issued)
        && r == e.outcome
        && repo.markets.rows == old(repo.markets.rows) + e.inserted
    {
      var fetch := client.GetMarkets(assetId, limit, offset);
      if fetch.Failure? {
        return Fail(Api(fetch.error));
      }
      var marketData := fetch.value;
      if marketData == [] {
        return Pass;
      }
      var dbModels := BuildMarketRows(marketData, createdAt);
      assert dbModels == MarketRows(marketData, createdAt);
      if dbModels == [] {
        return Pass;
      }
      var inserted := repo.InsertMarkets(dbModels);
      if inserted.Failure? {
        return Fail(Db(inserted.error));
      }
      r := Pass;
    }

    /**
     * The body of the orchestrator's `try` for one asset: history if enabled,
     * then markets if enabled and the history step did not raise.
     */
    method IngestOneAsset(client: CoinCapClient, assetId: AssetId, startDate: Option<DateTime>,
                          ingestHistory: bool, ingestMarket: bool, marketLimit: int, marketOffset: int,
                          env: Env, createdAt: Instant)
      returns (ghost report: AssetReport)
      requires repo.Valid()
      modifies repo.history, repo.markets, client.transport
      ensures repo.Valid()
      ensures report == AssetRun(client, old(repo.history.rows), old(repo.markets.rows), |old(client.transport.sent)|,
                                 assetId, Settings(startDate, ingestHistory, ingestMarket, marketLimit, marketOffset), env, createdAt)
      ensures client.transport.sent == old(client.transport.sent) + report.historySent + report.marketSent
      ensures repo.history.rows == old(repo.history.rows) + report.historyAdded
      ensures repo.markets.rows == old(repo.markets.rows) + report.marketAdded
    {
      ghost var sent0, hist0, mark0 := client.transport.sent, repo.history.rows, repo.markets.rows;
      ghost var s := Settings(startDate, ingestHistory, ingestMarket, marketLimit, marketOffset);
      ghost var h := HistoryPart(client, hist0, |sent0|, assetId, s, env);
      var raised := false;
      if ingestHistory {
        var o := IngestAssetHistory(client, assetId, startDate, env);
        raised := o.Fail?;
      }
      ghost var sent1 := client.transport.sent;
      assert sent1 == sent0 + h.sent && |sent1| == |sent0| + |h.sent|;
      assert raised == h.result.Raised?;
      ghost var m := MarketPart(client, mark0, |sent0| + |h.sent|, assetId, s, h.result.Raised?, createdAt);
      if ingestMarket && !raised {
        var o := IngestMarketData(client, assetId, marketLimit, marketOffset, createdAt);
      }
      assert client.transport.sent == sent1 + m.sent;
      Regroup(sent0, [], h.sent, m.sent);
      report := AssetReport(assetId, h.result, m.result, h.sent, m.sent, h.added, m.added);
    }

    /**
     * Ingests each asset in list order, history before market; an error in
     * one asset ends that asset's steps and the loop goes on with the next.
     * The i-th asset reads the clock as `envOf(i)` and its market rows are
     * stamped `stampOf(i)`.
     */
    method IngestMultipleAssets(client: CoinCapClient, assetIds: seq<AssetId>, startDate: Option<DateTime>,
                                ingestHistory: bool, ingestMarket: bool, marketLimit: int, marketOffset: int,
                                envOf: nat -> Env, stampOf: nat -> Instant)
      returns (ghost reports: seq<AssetReport>)
      requires repo.Valid()
      modifies repo.history, repo.markets, client.transport
      ensures repo.Valid()
      ensures reports == RunReports(Ingestion(client, Settings(startDate, ingestHistory, ingestMarket, marketLimit, marketOffset), envOf, stampOf),
                                    assetIds, old(repo.history.rows), old(repo.markets.rows), |old(client.transport.sent)|)
      ensures Ids(reports) == assetIds
      ensures forall i :: 0 <= i < |reports| ==> Reported(reports[i], ingestHistory, ingestMarket)
      ensures StepsOf(reports) == Schedule(assetIds, ingestHistory, ingestMarket, RaisedFlags(reports))
      ensures client.transport.sent == old(client.transport.sent) + SentBy(reports)
      ensures repo.history.rows == old(repo.history.rows) + HistoryAddedBy(reports)
      ensures repo.markets.rows == old(repo.markets.rows) + MarketsAddedBy(reports)
    {
      ghost var settings := Settings(startDate, ingestHistory, ingestMarket, marketLimit, marketOffset);
      ghost var step := Ingestion(client, settings, envOf, stampOf);
      ghost var sent0, hist0, mark0 := client.transport.sent, repo.history.rows, repo.markets.rows;
      reports := [];
      for i := 0 to |assetIds|
        invariant repo.Valid()
        invariant reports == RunReports(step, assetIds[..i], hist0, mark0, |sent0|)
        invariant client.transport.sent == sent0 + SentBy(reports)
        invariant repo.history.rows == hist0 + HistoryAddedBy(reports)
        invariant repo.markets.rows == mark0 + MarketsAddedBy(reports)
      {
        var assetId := assetIds[i];
        ghost var history, markets, sent := repo.history.rows, repo.markets.rows, |client.transport.sent|;
        ghost var report := IngestOneAsset(client, assetId, startDate, ingestHistory, ingestMarket,
                                           marketLimit, marketOffset, envOf(i), stampOf(i));
        assert report == AssetRun(client, history, markets, sent, assetId, settings, envOf(i), stampOf(i));
        assert report == step(history, markets, sent, assetId, i);
        ReportAppended(reports, report);
        Regroup(sent0, SentBy(reports), report.historySent, report.marketSent);
        Regroup(hist0, HistoryAddedBy(reports), report.historyAdded, []);
        Regroup(mark0, MarketsAddedBy(reports), report.marketAdded, []);
        RunReportsExtend(step, assetIds, hist0, mark0, |sent0|, i, reports, history, markets, sent, report);
        reports := reports + [report];
      }
      assert assetIds[..|assetIds|] == assetIds;
      IngestionRunReported(client, settings, envOf, stampOf, assetIds, hist0, mark0, |sent0|);
    }
  }
}
