/** What one `generate` call does to the generator's pool, as functions of
    the pool's remaining identifiers, the configuration, and the rows the
    database returns to the batch SELECT. */
module Replenishment {
  import opened Failures
  import opened Extraction

  /** What executing the batch SELECT yields: every row's first column (None
      for SQL NULL), or an SQLException from preparing or executing it. */
  datatype FetchResult = Executed(rows: seq<Option<Decimal>>) | StatementFailed

  /** The configuration `generate` reads: fetch size, extractor and the
      statement built by `initialize`. */
  datatype Settings = Settings(fetchSize: int, extractor: ExtractorKind, select: string)

  /** The outcome of one `generate` call and the identifiers left after it. */
  datatype Served = Served(result: Result<Identifier>, remaining: seq<Identifier>)

  /** Decoding the rows front to back, stopping at the first row the
      extractor refuses. */
  function DecodeRows(kind: ExtractorKind, rows: seq<Option<Decimal>>): (r: Result<seq<Identifier>>)
    ensures r.Ok? <==> forall i :: 0 <= i < |rows| ==> Extract(kind, rows[i]).Ok?
    ensures r.Ok? ==>
      && |r.value| == |rows|
      && forall i :: 0 <= i < |rows| ==> Extract(kind, rows[i]) == Ok(r.value[i])
    ensures r.Err? ==>
      exists i :: && 0 <= i < |rows| && Extract(kind, rows[i]) == Err(r.error)
                  && forall j :: 0 <= j < i ==> Extract(kind, rows[j]).Ok?
  {
    if rows == [] then Ok([])
    else
      var last := |rows| - 1;
      var init := rows[..last];
      assert forall i :: 0 <= i < last ==> init[i] == rows[i];
      match DecodeRows(kind, init)
      case Err(e) => Err(e)
      case Ok(vs) =>
        match Extract(kind, rows[last])
        case Err(e) => Err(e)
        case Ok(v) =>
          assert forall i :: 0 <= i < last ==> (vs + [v])[i] == vs[i];
          Ok(vs + [v])
  }

  /** Once a prefix of the rows fails to decode, the rows after it are never
      looked at: the batch fails with the prefix's error. */
  lemma {:induction false} DecodeRowsFirstError(kind: ExtractorKind, rows: seq<Option<Decimal>>, i: nat)
    requires i <= |rows|
    requires DecodeRows(kind, rows[..i]).Err?
    ensures DecodeRows(kind, rows) == DecodeRows(kind, rows[..i])
    decreases |rows|
  {
    if i < |rows| {
      var init := rows[..|rows| - 1];
      assert init[..i] == rows[..i];
      DecodeRowsFirstError(kind, init, i);
    } else {
      assert rows[..i] == rows;
    }
  }

  /** The host's translation of an SQLException raised while the statement
      runs; every other exception passes through unchanged. */
  function Translate(e: Failure, select: string): (t: Failure)
    ensures t != SqlException
    ensures e == SqlException ==> t == JdbcFailure(select)
    ensures e != SqlException ==> t == e
  {
    if e == SqlException then JdbcFailure(select) else e
  }

  /** `replenishIdentifierPool`: the identifiers of a fresh pool, or the
      exception that leaves the current pool in place. */
  function Replenish(s: Settings, fetched: FetchResult): (r: Result<seq<Identifier>>)
    ensures r.Ok? <==>
      s.fetchSize >= 0 && fetched.Executed? && |fetched.rows| == s.fetchSize
      && forall i :: 0 <= i < |fetched.rows| ==> Extract(s.extractor, fetched.rows[i]).Ok?
    ensures r.Ok? ==>
      && |r.value| == s.fetchSize
      && forall i :: 0 <= i < |r.value| ==> Extract(s.extractor, fetched.rows[i]) == Ok(r.value[i])
    ensures r.Err? ==> r.error != SqlException
    ensures s.fetchSize < 0 ==> r == Err(IllegalArgument)
    ensures s.fetchSize >= 0 && fetched.StatementFailed? ==> r == Err(JdbcFailure(s.select))
    ensures s.fetchSize >= 0 && fetched.Executed? && |fetched.rows| != s.fetchSize
            && (forall i :: 0 <= i < |fetched.rows| ==> Extract(s.extractor, fetched.rows[i]).Ok?)
            ==> r == Err(GenerationError(CountMismatch(s.fetchSize, |fetched.rows|)))
    ensures s.fetchSize >= 0 && fetched.Executed? && DecodeRows(s.extractor, fetched.rows).Err? ==>
      r == Err(Translate(DecodeRows(s.extractor, fetched.rows).error, s.select))
  {
    if s.fetchSize < 0 then Err(IllegalArgument)
    else
      match fetched
      case StatementFailed => Err(JdbcFailure(s.select))
      case Executed(rows) =>
        match DecodeRows(s.extractor, rows)
        case Err(e) => Err(Translate(e, s.select))
        case Ok(ids) =>
          if |ids| != s.fetchSize then Err(GenerationError(CountMismatch(s.fetchSize, |ids|)))
          else Ok(ids)
  }

  /** A batch with a NULL row is refused even when the rows before it
      decoded, and whatever its size; a NULL first failure is reported as such. */
  lemma NullRowRejectsBatch(s: Settings, rows: seq<Option<Decimal>>, i: nat)
    requires s.fetchSize >= 0 && i < |rows| && rows[i].None?
    ensures Replenish(s, Executed(rows)).Err?
    ensures (forall j :: 0 <= j < i ==> Extract(s.extractor, rows[j]).Ok?) ==>
      Replenish(s, Executed(rows)) == Err(GenerationError(SequenceReturnedNull))
  {
    if forall j :: 0 <= j < i ==> Extract(s.extractor, rows[j]).Ok? {
      var r := DecodeRows(s.extractor, rows);
      var k :| 0 <= k < |rows| && Extract(s.extractor, rows[k]) == Err(r.error)
               && forall j :: 0 <= j < k ==> Extract(s.extractor, rows[j]).Ok?;
      assert k == i;
    }
  }

  /** The statement is prepared and executed only when the pool is empty, and
      not at all when the list for its results cannot be allocated. */
  predicate RoundTrip(remaining: seq<Identifier>, s: Settings)
  {
    remaining == [] && s.fetchSize >= 0
  }

  /** One `generate` call: pop the front identifier; only an empty pool is
      replenished first, and a failed replenish leaves the pool as it was. */
  function GenerateStep(remaining: seq<Identifier>, s: Settings, fetched: FetchResult): (step: Served)
    ensures remaining != [] ==> step == Served(Ok(remaining[0]), remaining[1..])
    ensures step.result.Err? ==> step.remaining == remaining
    ensures remaining == [] ==> (step.result.Ok? <==> Replenish(s, fetched).Ok? && s.fetchSize > 0)
    ensures remaining == [] && step.result.Ok? ==>
      [step.result.value] + step.remaining == Replenish(s, fetched).value
    ensures remaining == [] && Replenish(s, fetched).Err? ==> step.result == Err(Replenish(s, fetched).error)
    ensures remaining == [] && Replenish(s, fetched) == Ok([]) ==> step.result == Err(NoSuchElement)
  {
    if remaining != [] then Served(Ok(remaining[0]), remaining[1..])
    else
      match Replenish(s, fetched)
      case Err(e) => Served(Err(e), remaining)
      case Ok(ids) =>
        // the replenished pool is popped at once; an empty one throws
        if ids == [] then Served(Err(NoSuchElement), ids) else Served(Ok(ids[0]), ids[1..])
  }

  /** The effect of `n` successive `generate` calls; the database answers
      its `k`-th execution of the batch SELECT with `db(k)`. */
  datatype Run = Run(results: seq<Result<Identifier>>, remaining: seq<Identifier>, trips: nat)

  function Serve(remaining: seq<Identifier>, s: Settings, db: nat -> FetchResult, k: nat, n: nat): (run: Run)
    ensures |run.results| == n && run.trips >= k
    decreases n
  {
    if n == 0 then Run([], remaining, k)
    else
      var step := GenerateStep(remaining, s, db(k));
      var next := if RoundTrip(remaining, s) then k + 1 else k;
      var rest := Serve(step.remaining, s, db, next, n - 1);
      Run([step.result] + rest.results, rest.remaining, rest.trips)
  }

  /** The identifiers of the `count` batches answered from execution `k` on. */
  function Supplied(s: Settings, db: nat -> FetchResult, k: nat, count: nat): seq<Identifier>
    decreases count
  {
    if count == 0 then []
    else
      var batch := match Replenish(s, db(k)) case Ok(ids) => ids case Err(_) => [];
      batch + Supplied(s, db, k + 1, count - 1)
  }

  /** Executions needed to serve `n` calls with `have` identifiers in the
      pool: one more for every `fetchSize` calls still short. */
  function TripsNeeded(have: nat, fetchSize: int, n: nat): nat
    requires fetchSize >= 1
    decreases n - have
  {
    if n <= have then 0 else 1 + TripsNeeded(have + fetchSize, fetchSize, n)
  }

  /** `TripsNeeded` is the ceiling of the shortfall over the fetch size. */
  lemma {:induction false} TripsNeededIsCeiling(have: nat, fetchSize: int, n: nat)
    requires fetchSize >= 1
    ensures var c := TripsNeeded(have, fetchSize, n);
            && (n <= have ==> c == 0)
            && (n > have ==> have + (c - 1) * fetchSize < n <= have + c * fetchSize)
    decreases n - have
  {
    if n > have {
      var c := TripsNeeded(have + fetchSize, fetchSize, n);
      TripsNeededIsCeiling(have + fetchSize, fetchSize, n);
      assert have + (c + 1) * fetchSize == have + fetchSize + c * fetchSize;
    }
  }

  /** One identifier fewer to serve and one fewer in hand needs the same
      number of executions. */
  lemma {:induction false} TripsNeededShift(have: nat, fetchSize: int, n: nat)
    requires fetchSize >= 1 && n >= 1
    ensures TripsNeeded(have + 1, fetchSize, n) == TripsNeeded(have, fetchSize, n - 1)
    decreases n - have
  {
    if n > have + 1 {
      TripsNeededShift(have + fetchSize, fetchSize, n);
    }
  }

  /** Putting one identifier in front of a run served in order from
      `supply'` gives a run served in order from `[x] + supply'`. */
  lemma ConsRun(x: Identifier, tail: Run, run: Run, supply': seq<Identifier>, supply: seq<Identifier>, n: nat, trips: nat)
    requires n >= 1 && |tail.results| == n - 1
    requires run == Run([Ok(x)] + tail.results, tail.remaining, tail.trips)
    requires supply == [x] + supply'
    requires && tail.trips == trips && n - 1 <= |supply'|
             && (forall i :: 0 <= i < n - 1 ==> tail.results[i] == Ok(supply'[i]))
             && tail.remaining == supply'[n - 1..]
    ensures && run.trips == trips && n <= |supply|
            && (forall i :: 0 <= i < n ==> run.results[i] == Ok(supply[i]))
            && run.remaining == supply[n..]
  {
    assert supply[n..] == supply'[n - 1..];
  }

  /** `n` calls starting from `remaining` and execution `k` return the pool's
      identifiers followed by those of the next batches, in row order, and
      execute the statement once for each batch they draw on. */
  ghost predicate ServedInOrder(remaining: seq<Identifier>, s: Settings, db: nat -> FetchResult, k: nat, n: nat)
    requires s.fetchSize >= 1
  {
    var c := TripsNeeded(|remaining|, s.fetchSize, n);
    var supply := remaining + Supplied(s, db, k, c);
    var run := Serve(remaining, s, db, k, n);
    && run.trips == k + c
    && n <= |supply|
    && (forall i :: 0 <= i < n ==> run.results[i] == Ok(supply[i]))
    && run.remaining == supply[n..]
  }

  /** A non-empty pool followed by more identifiers, split at its front. */
  lemma SplitFirst(ids: seq<Identifier>, later: seq<Identifier>)
    requires |ids| >= 1
    ensures ids + later == [ids[0]] + (ids[1..] + later)
  {
    assert ids == [ids[0]] + ids[1..];
  }

  /** A call served from a non-empty pool, followed by an in-order run. */
  lemma FromPoolInOrder(remaining: seq<Identifier>, s: Settings, db: nat -> FetchResult, k: nat, n: nat)
    requires s.fetchSize >= 1 && n >= 1 && remaining != []
    requires ServedInOrder(remaining[1..], s, db, k, n - 1)
    ensures ServedInOrder(remaining, s, db, k, n)
  {
    var rest := remaining[1..];
    var c := TripsNeeded(|remaining|, s.fetchSize, n);
    TripsNeededShift(|rest|, s.fetchSize, n);
    assert GenerateStep(remaining, s, db(k)) == Served(Ok(remaining[0]), rest);
    assert !RoundTrip(remaining, s);
    var tail := Serve(rest, s, db, k, n - 1);
    var run := Serve(remaining, s, db, k, n);
    assert run == Run([Ok(remaining[0])] + tail.results, tail.remaining, tail.trips);
    var later := Supplied(s, db, k, c);
    SplitFirst(remaining, later);
    ConsRun(remaining[0], tail, run, rest + later, remaining + later, n, k + c);
  }

  /** A call on an empty pool that gets a full batch pops its first row and
      counts one execution. */
  lemma ServeAfterFetch(s: Settings, db: nat -> FetchResult, k: nat, n: nat)
    requires s.fetchSize >= 1 && n >= 1
    requires Replenish(s, db(k)).Ok?
    ensures var ids := Replenish(s, db(k)).value;
            var tail := Serve(ids[1..], s, db, k + 1, n - 1);
            Serve([], s, db, k, n) == Run([Ok(ids[0])] + tail.results, tail.remaining, tail.trips)
  {
    var ids := Replenish(s, db(k)).value;
    assert GenerateStep([], s, db(k)) == Served(Ok(ids[0]), ids[1..]);
    assert RoundTrip([], s);
  }

  /** The first of `count` answered executions contributes its whole batch. */
  lemma SuppliedFirst(s: Settings, db: nat -> FetchResult, k: nat, count: nat)
    requires count >= 1 && Replenish(s, db(k)).Ok?
    ensures Supplied(s, db, k, count) == Replenish(s, db(k)).value + Supplied(s, db, k + 1, count - 1)
  {
  }

  /** A call that replenishes an empty pool with a full batch, followed by
      an in-order run from that batch. */
  lemma AfterFetchInOrder(s: Settings, db: nat -> FetchResult, k: nat, n: nat)
    requires s.fetchSize >= 1 && n >= 1
    requires Replenish(s, db(k)).Ok?
    requires ServedInOrder(Replenish(s, db(k)).value[1..], s, db, k + 1, n - 1)
    ensures ServedInOrder([], s, db, k, n)
  {
    var K := s.fetchSize;
    var ids := Replenish(s, db(k)).value;
    var c := TripsNeeded(0, K, n);
    var c' := TripsNeeded(K - 1, K, n - 1);
    TripsNeededShift(K - 1, K, n);
    assert c == c' + 1;
    ServeAfterFetch(s, db, k, n);
    SuppliedFirst(s, db, k, c);
    var later := Supplied(s, db, k + 1, c');
    var supply := [] + Supplied(s, db, k, c);
    assert |ids| >= 1;
    assert supply == ids + later;
    SplitFirst(ids, later);
    ConsRun(ids[0], Serve(ids[1..], s, db, k + 1, n - 1), Serve([], s, db, k, n),
            ids[1..] + later, supply, n, k + c);
  }

  /** Induction over the number of calls, one call per step. */
  lemma {:induction false} ServedInOrderFrom(remaining: seq<Identifier>, s: Settings, db: nat -> FetchResult, k: nat, n: nat)
    requires s.fetchSize >= 1
    requires forall j :: k <= j ==> Replenish(s, db(j)).Ok?
    ensures ServedInOrder(remaining, s, db, k, n)
    decreases n
  {
    if n == 0 {
      var c := TripsNeeded(|remaining|, s.fetchSize, n);
      assert (remaining + Supplied(s, db, k, c))[0..] == remaining;
    } else if remaining != [] {
      ServedInOrderFrom(remaining[1..], s, db, k, n - 1);
      FromPoolInOrder(remaining, s, db, k, n);
    } else {
      ServedInOrderFrom(Replenish(s, db(k)).value[1..], s, db, k + 1, n - 1);
      AfterFetchInOrder(s, db, k, n);
    }
  }

  /** With a positive fetch size and a database that answers every execution
      with a full batch, `n` calls return the pool's identifiers and then the
      batches' identifiers, in row order, none skipped or repeated; they
      execute the statement exactly as often as the shortfall needs, each
      execution serving `fetchSize` calls before the next one. */
  lemma ServeInOrder(remaining: seq<Identifier>, s: Settings, db: nat -> FetchResult, k: nat, n: nat)
    requires s.fetchSize >= 1
    requires forall j :: k <= j ==> Replenish(s, db(j)).Ok?
    ensures var c := TripsNeeded(|remaining|, s.fetchSize, n);
            var supply := remaining + Supplied(s, db, k, c);
            var run := Serve(remaining, s, db, k, n);
            && run.trips == k + c
            && n <= |supply|
            && (forall i :: 0 <= i < n ==> run.results[i] == Ok(supply[i]))
            && run.remaining == supply[n..]
  {
    ServedInOrderFrom(remaining, s, db, k, n);
  }

  /** A fetch size of zero or less never yields an identifier from an empty
      pool, whatever the database returns. */
  lemma NonPositiveFetchSizeNeverServes(s: Settings, fetched: FetchResult)
    requires s.fetchSize <= 0
    ensures GenerateStep([], s, fetched).result.Err?
    ensures s.fetchSize < 0 ==> GenerateStep([], s, fetched).result == Err(IllegalArgument)
    ensures s.fetchSize == 0 && fetched == Executed([]) ==>
      GenerateStep([], s, fetched).result == Err(NoSuchElement)
  {
  }
}
