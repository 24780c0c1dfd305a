/**
 * Properties of one buildModel of a DrillDownModelBuilder: what it returns,
 * the order in which it drives its builders, that every builder it starts is
 * closed, and that drill-down builders are reset only after a run that
 * returned.
 */
module DrillDownProperties {
  import opened Wrappers
  import opened DistributorContext
  import opened ModelBuilders
  import opened DrillDownPipeline

  // ---------------------------------------------------------------------------
  // From the nested loops to the flat schedule

  lemma RunOfIsPerform(b: BuilderSpec, context: Context)
    ensures RunOf(b, context) == Perform(Call(b, context, false))
  {
  }

  lemma DrillDownRunOfIsPerform(b: BuilderSpec, baseline: Context, row: Row)
    ensures DrillDownRunOf(b, baseline, row) == Perform(Call(b, Derived(baseline, row), true))
  {
  }

  /** Running a concatenation of plans is running the first, then, if it returned, the second. */
  lemma {:induction false} ExecuteAppend(a: seq<Call>, b: seq<Call>, acc: Graph)
    ensures Execute(a + b, acc) ==
              var ra := Execute(a, acc);
              if ra.result.Failure? then ra else Prepend(ra.events, Execute(b, ra.result.value))
  {
    if a == [] {
      assert a + b == b;
    } else {
      assert (a + b)[0] == a[0];
      assert (a + b)[1..] == a[1..] + b;
      var r := Perform(a[0]);
      if r.result.Success? {
        ExecuteAppend(a[1..], b, acc + r.result.value);
        var rest := Execute(a[1..], acc + r.result.value);
        if rest.result.Success? {
          assert r.events + (rest.events + Execute(b, rest.result.value).events)
              == (r.events + rest.events) + Execute(b, rest.result.value).events;
        }
      }
    }
  }

  lemma {:induction false} TopLevelPhaseIsExecute(builders: seq<BuilderSpec>, context: Context, acc: Graph)
    ensures TopLevelPhase(builders, context, acc) == Execute(TopLevelCalls(builders, context), acc)
  {
    if builders != [] {
      var calls := TopLevelCalls(builders, context);
      assert calls[0] == Call(builders[0], context, false);
      assert calls[1..] == TopLevelCalls(builders[1..], context);
      RunOfIsPerform(builders[0], context);
      var r := RunOf(builders[0], context);
      if r.result.Success? {
        TopLevelPhaseIsExecute(builders[1..], context, acc + r.result.value);
      }
    }
  }

  lemma {:induction false} RowPhaseIsExecute(builders: seq<BuilderSpec>, baseline: Context, row: Row, acc: Graph)
    ensures RowPhase(builders, baseline, row, acc) == Execute(RowCalls(builders, baseline, row), acc)
  {
    if builders != [] {
      var calls := RowCalls(builders, baseline, row);
      assert calls[0] == Call(builders[0], Derived(baseline, row), true);
      assert calls[1..] == RowCalls(builders[1..], baseline, row);
      DrillDownRunOfIsPerform(builders[0], baseline, row);
      var r := DrillDownRunOf(builders[0], baseline, row);
      if r.result.Success? {
        RowPhaseIsExecute(builders[1..], baseline, row, acc + r.result.value);
      }
    }
  }

  lemma {:induction false} DrillDownPhaseIsExecute(rows: seq<Row>, builders: seq<BuilderSpec>, baseline: Context, acc: Graph)
    ensures DrillDownPhase(rows, builders, baseline, acc) == Execute(DrillDownCalls(rows, builders, baseline), acc)
  {
    if rows != [] {
      RowPhaseIsExecute(builders, baseline, rows[0], acc);
      ExecuteAppend(RowCalls(builders, baseline, rows[0]), DrillDownCalls(rows[1..], builders, baseline), acc);
      var r := RowPhase(builders, baseline, rows[0], acc);
      if r.result.Success? {
        DrillDownPhaseIsExecute(rows[1..], builders, baseline, r.result.value);
      }
    }
  }

  /** A run that returns yields what it started with plus every planned output. */
  lemma {:induction false} ExecuteSuccess(calls: seq<Call>, acc: Graph)
    ensures Execute(calls, acc).result.Success? ==> Execute(calls, acc).result.value == acc + Union(calls)
  {
    if calls != [] {
      var r := Perform(calls[0]);
      if r.result.Success? {
        assert r.result.value == Output(calls[0].builder, calls[0].context);
        ExecuteSuccess(calls[1..], acc + r.result.value);
      }
    }
  }

  lemma {:induction false} UnionMembership(calls: seq<Call>, t: Triple)
    ensures t in Union(calls) <==> exists i :: 0 <= i < |calls| && t in Output(calls[i].builder, calls[i].context)
  {
    if calls != [] {
      UnionMembership(calls[1..], t);
      if t in Union(calls[1..]) {
        var i :| 0 <= i < |calls[1..]| && t in Output(calls[1..][i].builder, calls[1..][i].context);
        assert calls[i + 1] == calls[1..][i];
      }
      if exists i :: 0 <= i < |calls| && t in Output(calls[i].builder, calls[i].context) {
        var i :| 0 <= i < |calls| && t in Output(calls[i].builder, calls[i].context);
        if i > 0 {
          assert calls[1..][i - 1] == calls[i];
        }
      }
    }
  }

  lemma {:induction false} UnionAppend(a: seq<Call>, b: seq<Call>)
    ensures Union(a + b) == Union(a) + Union(b)
  {
    if a == [] {
      assert a + b == b;
    } else {
      assert (a + b)[0] == a[0];
      assert (a + b)[1..] == a[1..] + b;
      UnionAppend(a[1..], b);
    }
  }

  lemma SeedIsUnion(top: seq<BuilderSpec>, context: Context)
    ensures Seed(top, context) == Union(TopLevelCalls(top, context))
  {
    var calls := TopLevelCalls(top, context);
    forall t ensures t in Seed(top, context) <==> t in Union(calls) {
      UnionMembership(calls, t);
      if t in Union(calls) {
        var i :| 0 <= i < |calls| && t in Output(calls[i].builder, calls[i].context);
        assert 0 <= i < |top| && t in Output(top[i], context);
      }
      if t in Seed(top, context) {
        var i :| 0 <= i < |top| && t in Output(top[i], context);
        assert calls[i].builder == top[i] && calls[i].context == context;
      }
    }
  }

  lemma {:induction false} DrillDownOutputsIsUnion(rows: seq<Row>, drillDown: seq<BuilderSpec>, baseline: Context)
    ensures DrillDownOutputs(rows, drillDown, baseline) == Union(DrillDownCalls(rows, drillDown, baseline))
  {
    if rows != [] {
      var first := RowCalls(drillDown, baseline, rows[0]);
      var rest := DrillDownCalls(rows[1..], drillDown, baseline);
      UnionAppend(first, rest);
      DrillDownOutputsIsUnion(rows[1..], drillDown, baseline);
      RowOutputsIsUnion(drillDown, baseline, rows[0]);
      DrillDownOutputsSplit(rows, drillDown, baseline);
    }
  }

  /** What the drill-down builders yield for one row. */
  ghost function RowOutputs(drillDown: seq<BuilderSpec>, baseline: Context, row: Row): (g: Graph)
  {
    set k, t | 0 <= k < |drillDown| && t in Output(drillDown[k], Derived(baseline, row)) :: t
  }

  lemma RowOutputsIsUnion(drillDown: seq<BuilderSpec>, baseline: Context, row: Row)
    ensures RowOutputs(drillDown, baseline, row) == Union(RowCalls(drillDown, baseline, row))
  {
    var calls := RowCalls(drillDown, baseline, row);
    forall t ensures t in RowOutputs(drillDown, baseline, row) <==> t in Union(calls) {
      UnionMembership(calls, t);
      if t in Union(calls) {
        var k :| 0 <= k < |calls| && t in Output(calls[k].builder, calls[k].context);
        assert 0 <= k < |drillDown| && t in Output(drillDown[k], Derived(baseline, row));
      }
      if t in RowOutputs(drillDown, baseline, row) {
        var k :| 0 <= k < |drillDown| && t in Output(drillDown[k], Derived(baseline, row));
        assert calls[k].builder == drillDown[k] && calls[k].context == Derived(baseline, row);
      }
    }
  }

  lemma DrillDownOutputsSplit(rows: seq<Row>, drillDown: seq<BuilderSpec>, baseline: Context)
    requires rows != []
    ensures DrillDownOutputs(rows, drillDown, baseline)
         == RowOutputs(drillDown, baseline, rows[0]) + DrillDownOutputs(rows[1..], drillDown, baseline)
  {
    forall t
      ensures t in DrillDownOutputs(rows, drillDown, baseline) <==>
              t in RowOutputs(drillDown, baseline, rows[0]) + DrillDownOutputs(rows[1..], drillDown, baseline)
    {
      if t in DrillDownOutputs(rows, drillDown, baseline) {
        var j, k :| 0 <= j < |rows| && 0 <= k < |drillDown| && t in Output(drillDown[k], Derived(baseline, rows[j]));
        if j > 0 {
          assert rows[1..][j - 1] == rows[j];
        }
      }
      if t in RowOutputs(drillDown, baseline, rows[0]) {
        var k :| 0 <= k < |drillDown| && t in Output(drillDown[k], Derived(baseline, rows[0]));
        assert 0 <= 0 < |rows| && t in Output(drillDown[k], Derived(baseline, rows[0]));
      }
      if t in DrillDownOutputs(rows[1..], drillDown, baseline) {
        var j, k :| 0 <= j < |rows[1..]| && 0 <= k < |drillDown| && t in Output(drillDown[k], Derived(baseline, rows[1..][j]));
        assert 0 <= j + 1 < |rows| && t in Output(drillDown[k], Derived(baseline, rows[j + 1]));
      }
    }
  }

  /**
   * The nested loops of buildModel perform exactly the flat schedule: the
   * query is run on the union of the top-level outputs, and each row's
   * drill-down builders run in list order before the next row's.
   */
  lemma PipelineIsExecute(top: seq<BuilderSpec>, query: string, drillDown: seq<BuilderSpec>,
                          select: SelectExecutor, context: Context)
    ensures Pipeline(top, query, drillDown, select, context) == Execute(Schedule(top, query, drillDown, select, context), {})
  {
    var calls := TopLevelCalls(top, context);
    var rows := select(Seed(top, context), query);
    TopLevelPhaseIsExecute(top, context, {});
    SeedIsUnion(top, context);
    ExecuteSuccess(calls, {});
    ExecuteAppend(calls, DrillDownCalls(rows, drillDown, context), {});
    var seeded := Execute(calls, {});
    if seeded.result.Success? {
      assert seeded.result.value == Seed(top, context);
      DrillDownPhaseIsExecute(rows, drillDown, context, seeded.result.value);
    }
  }

  // ---------------------------------------------------------------------------
  // The shape of a flat run

  lemma {:induction false} InitsOfAppend(a: seq<Event>, b: seq<Event>)
    ensures InitsOf(a + b) == InitsOf(a) + InitsOf(b)
  {
    if a == [] {
      assert a + b == b;
    } else {
      assert (a + b)[0] == a[0];
      assert (a + b)[1..] == a[1..] + b;
      InitsOfAppend(a[1..], b);
    }
  }

  /** The init calls of one session: its first call only. */
  lemma InitsOfSession(id: BuilderId, context: Context, rest: seq<Event>)
    requires forall e :: e in rest ==> !e.Init?
    ensures InitsOf([Init(id, context)] + rest) == [Init(id, context)]
  {
    InitsOfAppend([Init(id, context)], rest);
    InitsOfNone(rest);
  }

  lemma {:induction false} InitsOfNone(events: seq<Event>)
    requires forall e :: e in events ==> !e.Init?
    ensures InitsOf(events) == []
  {
    if events != [] {
      InitsOfNone(events[1..]);
    }
  }

  lemma PerformShape(c: Call)
    ensures Perform(c).result == if Throws(c) then Failure(Thrown(c)) else Success(Output(c.builder, c.context))
    ensures !Throws(c) ==> Perform(c).events == SuccessTrace([c])
    ensures Throws(c) ==> (Perform(c).events ==
              var id := c.builder.id;
              if c.builder.behaviour.initFailure(c.context).Some? then [Init(id, c.context), Close(id)]
              else [Init(id, c.context), Build(id), Close(id)])
  {
  }

  /**
   * A flat run performs every planned run whole and in order up to the first
   * that throws; that one is closed, not reset, and its error is the result.
   */
  lemma {:induction false} ExecuteShape(calls: seq<Call>, acc: Graph)
    ensures var n := FirstThrow(calls); var r := Execute(calls, acc);
      && (n == |calls| ==> r.events == SuccessTrace(calls) && r.result == Success(acc + Union(calls)))
      && (n < |calls| ==> r.events == SuccessTrace(calls[..n]) + Perform(calls[n]).events
                          && r.result == Failure(Thrown(calls[n])))
  {
    if calls != [] {
      var c := calls[0];
      PerformShape(c);
      if !Throws(c) {
        var acc' := acc + Output(c.builder, c.context);
        ExecuteShape(calls[1..], acc');
        var n := FirstThrow(calls[1..]);
        assert FirstThrow(calls) == n + 1;
        assert Union(calls) == Output(c.builder, c.context) + Union(calls[1..]);
        if n == |calls[1..]| {
          var rest := Execute(calls[1..], acc');
          assert Execute(calls, acc) == Prepend(Perform(c).events, rest);
          assert rest.result == Success(acc' + Union(calls[1..]));
          assert acc' + Union(calls[1..]) == acc + Union(calls);
        }
        assert SuccessTrace(calls) == SuccessTrace([c]) + SuccessTrace(calls[1..]);
        if n < |calls[1..]| {
          assert calls[..n + 1][0] == c;
          assert calls[..n + 1][1..] == calls[1..][..n];
          assert calls[1..][n] == calls[n + 1];
          assert SuccessTrace(calls[..n + 1]) == SuccessTrace([c]) + SuccessTrace(calls[1..][..n]);
        }
      } else {
        assert calls[..0] == [];
      }
    } else {
      assert acc + Union(calls) == acc;
    }
  }

  lemma {:induction false} InitsOfSuccessTrace(calls: seq<Call>)
    ensures InitsOf(SuccessTrace(calls)) == Inits(calls)
  {
    if calls != [] {
      var c := calls[0];
      var id := c.builder.id;
      var head := [Init(id, c.context), Build(id), Close(id)] + (if c.resettable then [Reset(id)] else []);
      InitsOfAppend(head, SuccessTrace(calls[1..]));
      assert head == [Init(id, c.context)] + head[1..];
      InitsOfSession(id, c.context, head[1..]);
      InitsOfSuccessTrace(calls[1..]);
      assert Inits(calls) == [Init(id, c.context)] + Inits(calls[1..]);
    }
  }

  /** One completed session followed by whole sessions is whole sessions. */
  lemma BracketedSession(id: BuilderId, context: Context, resettable: bool, rest: seq<Event>)
    requires Bracketed(rest)
    ensures Bracketed([Init(id, context), Build(id), Close(id)] + (if resettable then [Reset(id)] else []) + rest)
  {
    var ev := [Init(id, context), Build(id), Close(id)] + (if resettable then [Reset(id)] else []) + rest;
    assert ev[0] == Init(id, context) && ev[1] == Build(id) && ev[2] == Close(id);
    assert ev[1] != Close(id);
    if resettable {
      assert ev[3] == Reset(id);
      assert ev[4..] == rest;
    } else {
      assert rest != [] ==> rest[0].Init?;
      assert |ev| >= 4 ==> ev[3] == rest[0] && ev[3] != Reset(id);
      assert ev[3..] == rest;
    }
  }

  lemma {:induction false} BracketedSuccessTrace(calls: seq<Call>, tail: seq<Event>)
    requires Bracketed(tail)
    ensures Bracketed(SuccessTrace(calls) + tail)
  {
    if calls != [] {
      var c := calls[0];
      var id := c.builder.id;
      var rest := SuccessTrace(calls[1..]) + tail;
      BracketedSuccessTrace(calls[1..], tail);
      var head := [Init(id, c.context), Build(id), Close(id)] + (if c.resettable then [Reset(id)] else []);
      assert SuccessTrace(calls) + tail == head + rest;
      BracketedSession(id, c.context, c.resettable, rest);
    } else {
      assert SuccessTrace(calls) + tail == tail;
    }
  }

  /** The trace of a run that stopped at a throwing one: whole sessions, in plan order. */
  lemma ThrowingTrace(calls: seq<Call>, n: nat)
    requires n < |calls| && Throws(calls[n])
    ensures Bracketed(SuccessTrace(calls[..n]) + Perform(calls[n]).events)
    ensures InitsOf(SuccessTrace(calls[..n]) + Perform(calls[n]).events) == Inits(calls)[..n + 1]
  {
    ThrowingSession(calls[n]);
    BracketedSuccessTrace(calls[..n], Perform(calls[n]).events);
    ThrowingInits(calls, n);
  }

  /** The session of a run that throws is whole, and starts with its only init. */
  lemma ThrowingSession(c: Call)
    requires Throws(c)
    ensures Bracketed(Perform(c).events)
    ensures InitsOf(Perform(c).events) == [Init(c.builder.id, c.context)]
  {
    PerformShape(c);
    var tail := Perform(c).events;
    assert tail == [Init(c.builder.id, c.context)] + tail[1..];
    InitsOfSession(c.builder.id, c.context, tail[1..]);
  }

  lemma ThrowingInits(calls: seq<Call>, n: nat)
    requires n < |calls| && Throws(calls[n])
    ensures InitsOf(SuccessTrace(calls[..n]) + Perform(calls[n]).events) == Inits(calls)[..n + 1]
  {
    var c := calls[n];
    assert InitsOf(Perform(c).events) == [Init(c.builder.id, c.context)] by {
      ThrowingSession(c);
    }
    assert InitsOf(SuccessTrace(calls[..n])) == Inits(calls[..n]) by {
      InitsOfSuccessTrace(calls[..n]);
    }
    InitsOfAppend(SuccessTrace(calls[..n]), Perform(c).events);
    assert Inits(calls[..n]) + [Init(c.builder.id, c.context)] == Inits(calls)[..n + 1];
  }

  /** A flat run is made of whole sessions, started in plan order. */
  lemma ExecuteTrace(calls: seq<Call>, acc: Graph)
    ensures Bracketed(Execute(calls, acc).events) && InitsOf(Execute(calls, acc).events) <= Inits(calls)
  {
    ExecuteShape(calls, acc);
    var n := FirstThrow(calls);
    if n == |calls| {
      BracketedSuccessTrace(calls, []);
      assert SuccessTrace(calls) + [] == SuccessTrace(calls);
      InitsOfSuccessTrace(calls);
    } else {
      ThrowingTrace(calls, n);
    }
  }

  // ---------------------------------------------------------------------------
  // Properties of buildModel

  /**
   * buildModel returns exactly when no scheduled builder run throws, and then
   * returns the union of every top-level output and, for every row the query
   * yields on that union, every drill-down output; the builders receive their
   * calls in schedule order, each closed after use and each drill-down builder
   * reset after its close.
   */
  lemma PipelineReturns(top: seq<BuilderSpec>, query: string, drillDown: seq<BuilderSpec>,
                        select: SelectExecutor, context: Context)
    ensures var s := Schedule(top, query, drillDown, select, context);
            var r := Pipeline(top, query, drillDown, select, context);
      && (r.result.Success? <==> forall i :: 0 <= i < |s| ==> !Throws(s[i]))
      && (r.result.Success? ==>
            && r.result.value == Seed(top, context) + DrillDownOutputs(select(Seed(top, context), query), drillDown, context)
            && r.events == SuccessTrace(s))
  {
    var s := Schedule(top, query, drillDown, select, context);
    var rows := select(Seed(top, context), query);
    PipelineIsExecute(top, query, drillDown, select, context);
    ExecuteShape(s, {});
    UnionAppend(TopLevelCalls(top, context), DrillDownCalls(rows, drillDown, context));
    SeedIsUnion(top, context);
    DrillDownOutputsIsUnion(rows, drillDown, context);
  }

  /**
   * When buildModel throws, it throws the error of the first scheduled run
   * that throws; every run before it completed (and drill-down ones were
   * reset); the throwing builder was closed, whether init or buildModel threw,
   * and was not reset; nothing runs after it.
   */
  lemma PipelineThrows(top: seq<BuilderSpec>, query: string, drillDown: seq<BuilderSpec>,
                       select: SelectExecutor, context: Context)
    ensures var s := Schedule(top, query, drillDown, select, context);
            var r := Pipeline(top, query, drillDown, select, context);
            var n := FirstThrow(s);
      r.result.Failure? ==>
        && n < |s|
        && r.result.error == Thrown(s[n])
        && |SuccessTrace(s[..n])| <= |r.events|
        && r.events[..|SuccessTrace(s[..n])|] == SuccessTrace(s[..n])
        && r.events[|SuccessTrace(s[..n])|..] ==
             var id := s[n].builder.id;
             if s[n].builder.behaviour.initFailure(s[n].context).Some? then [Init(id, s[n].context), Close(id)]
             else [Init(id, s[n].context), Build(id), Close(id)]
  {
    var s := Schedule(top, query, drillDown, select, context);
    PipelineIsExecute(top, query, drillDown, select, context);
    ExecuteShape(s, {});
    var n := FirstThrow(s);
    if n < |s| {
      PerformShape(s[n]);
    }
  }

  /**
   * Every builder buildModel starts is closed before any other builder is
   * touched, and the builders are started in schedule order: the calls made
   * are always a prefix of the schedule.
   */
  lemma PipelineTrace(top: seq<BuilderSpec>, query: string, drillDown: seq<BuilderSpec>,
                      select: SelectExecutor, context: Context)
    ensures var s := Schedule(top, query, drillDown, select, context);
            var r := Pipeline(top, query, drillDown, select, context);
      Bracketed(r.events) && InitsOf(r.events) <= Inits(s)
  {
    PipelineIsExecute(top, query, drillDown, select, context);
    ExecuteTrace(Schedule(top, query, drillDown, select, context), {});
  }

  /**
   * When the drill-down query yields no rows, buildModel is the top-level
   * phase alone: the only builders started are the top-level ones, in their
   * order, each in the request's own context and, if nothing throws, the
   * result is the union of the top-level outputs.
   */
  lemma NoDrillDownRows(top: seq<BuilderSpec>, query: string, drillDown: seq<BuilderSpec>,
                        select: SelectExecutor, context: Context)
    requires select(Seed(top, context), query) == []
    ensures var r := Pipeline(top, query, drillDown, select, context);
      && (r.result.Success? ==> r.result.value == Seed(top, context))
      && InitsOf(r.events) <= Inits(TopLevelCalls(top, context))
      && forall e :: e in InitsOf(r.events) ==> e.Init? && e.context == context
  {
    var s := Schedule(top, query, drillDown, select, context);
    assert s == TopLevelCalls(top, context);
    PipelineReturns(top, query, drillDown, select, context);
    PipelineTrace(top, query, drillDown, select, context);
    var r := Pipeline(top, query, drillDown, select, context);
    forall e | e in InitsOf(r.events) ensures e.Init? && e.context == context {
      var i :| 0 <= i < |InitsOf(r.events)| && InitsOf(r.events)[i] == e;
      assert e == Inits(s)[i];
    }
  }

  // ---------------------------------------------------------------------------
  // One iteration of each loop of buildModel

  lemma TopLevelStep(builders: seq<BuilderSpec>, i: nat, context: Context, acc: Graph, done: seq<Event>)
    requires i < |builders|
    ensures var r := RunOf(builders[i], context);
      Prepend(done, TopLevelPhase(builders[i..], context, acc)) ==
        if r.result.Failure? then Prepend(done, r)
        else Prepend(done + r.events, TopLevelPhase(builders[i + 1..], context, acc + r.result.value))
  {
    assert builders[i..][0] == builders[i] && builders[i..][1..] == builders[i + 1..];
    var r := RunOf(builders[i], context);
    if r.result.Success? {
      var rest := TopLevelPhase(builders[i + 1..], context, acc + r.result.value);
      assert done + (r.events + rest.events) == (done + r.events) + rest.events;
    }
  }

  lemma RowStep(builders: seq<BuilderSpec>, k: nat, baseline: Context, row: Row, acc: Graph, done: seq<Event>)
    requires k < |builders|
    ensures var r := DrillDownRunOf(builders[k], baseline, row);
      Prepend(done, RowPhase(builders[k..], baseline, row, acc)) ==
        if r.result.Failure? then Prepend(done, r)
        else Prepend(done + r.events, RowPhase(builders[k + 1..], baseline, row, acc + r.result.value))
  {
    assert builders[k..][0] == builders[k] && builders[k..][1..] == builders[k + 1..];
    var r := DrillDownRunOf(builders[k], baseline, row);
    if r.result.Success? {
      var rest := RowPhase(builders[k + 1..], baseline, row, acc + r.result.value);
      assert done + (r.events + rest.events) == (done + r.events) + rest.events;
    }
  }

  lemma DrillDownStep(rows: seq<Row>, j: nat, builders: seq<BuilderSpec>, baseline: Context, acc: Graph, done: seq<Event>)
    requires j < |rows|
    ensures var r := RowPhase(builders, baseline, rows[j], acc);
      Prepend(done, DrillDownPhase(rows[j..], builders, baseline, acc)) ==
        if r.result.Failure? then Prepend(done, r)
        else Prepend(done + r.events, DrillDownPhase(rows[j + 1..], builders, baseline, r.result.value))
  {
    assert rows[j..][0] == rows[j] && rows[j..][1..] == rows[j + 1..];
    var r := RowPhase(builders, baseline, rows[j], acc);
    if r.result.Success? {
      var rest := DrillDownPhase(rows[j + 1..], builders, baseline, r.result.value);
      assert done + (r.events + rest.events) == (done + r.events) + rest.events;
    }
  }
}
