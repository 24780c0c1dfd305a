/**
 * The DrillDownModelBuilder itself: its configuration lists, the context
 * stored by `init`, and the nested loops of `buildModel`, each builder run
 * through init / buildModel / close (and reset, for drill-down builders).
 */
module DrillDown {
  import opened Wrappers
  import opened DistributorContext
  import opened ModelBuilders
  import opened DrillDownPipeline
  import opened DrillDownProperties

  /** What a list of builders does, builder by builder. */
  function Specs(builders: seq<ModelBuilder>): (specs: seq<BuilderSpec>)
  {
    seq(|builders|, i requires 0 <= i < |builders| => builders[i].spec)
  }

  /**
   * Regrouping a call log. Proved on its own, so that the loops below
   * take the step without searching their whole context for it.
   */
  lemma AppendAssoc(a: seq<Event>, b: seq<Event>, c: seq<Event>)
    ensures a + (b + c) == (a + b) + c
  {
  }

  class DrillDownModelBuilder {
    var topLevelModelBuilders: seq<ModelBuilder>
    var drillDownQuery: string
    var drillDownModelBuilders: seq<ModelBuilder>
    /** The context stored by `init`; absent before it. */
    var ddContext: Option<Context>
    /** The engine that runs the drill-down SELECT query. */
    const select: SelectExecutor

    constructor (select: SelectExecutor)
      ensures topLevelModelBuilders == [] && drillDownModelBuilders == []
      ensures drillDownQuery == "" && ddContext == None && this.select == select
    {
      topLevelModelBuilders := [];
      drillDownQuery := "";
      drillDownModelBuilders := [];
      ddContext := None;
      this.select := select;
    }

    method AddTopLevelModelBuilder(builder: ModelBuilder)
      modifies this
      ensures topLevelModelBuilders == old(topLevelModelBuilders) + [builder]
      ensures drillDownQuery == old(drillDownQuery) && drillDownModelBuilders == old(drillDownModelBuilders)
      ensures ddContext == old(ddContext)
    {
      topLevelModelBuilders := topLevelModelBuilders + [builder];
    }

    method AddDrillDownQuery(query: string)
      modifies this
      ensures drillDownQuery == query
      ensures topLevelModelBuilders == old(topLevelModelBuilders) && drillDownModelBuilders == old(drillDownModelBuilders)
      ensures ddContext == old(ddContext)
    {
      drillDownQuery := query;
    }

    method AddDrillDownModelBuilder(builder: ModelBuilder)
      modifies this
      ensures drillDownModelBuilders == old(drillDownModelBuilders) + [builder]
      ensures topLevelModelBuilders == old(topLevelModelBuilders) && drillDownQuery == old(drillDownQuery)
      ensures ddContext == old(ddContext)
    {
      drillDownModelBuilders := drillDownModelBuilders + [builder];
    }

    /** init only stores the context. */
    method Init(ddc: Context)
      modifies this
      ensures ddContext == Some(ddc)
      ensures topLevelModelBuilders == old(topLevelModelBuilders) && drillDownModelBuilders == old(drillDownModelBuilders)
      ensures drillDownQuery == old(drillDownQuery)
    {
      ddContext := Some(ddc);
    }

    /** close: the drill-down builder holds nothing open, so no state changes. */
    method Close()
      ensures unchanged(this)
    {
    }

    /** reset: no state changes; the builder can be run again as it is. */
    method Reset()
      ensures unchanged(this)
    {
    }

    /** Init, then build if init returned; close whatever happened. */
    method RunModelBuilder(mb: ModelBuilder, context: Context) returns (r: Result<Graph, DistributorError>)
      modifies mb, mb.log
      ensures r == RunOf(mb.spec, context).result
      ensures mb.log.events == old(mb.log.events) + RunOf(mb.spec, context).events
    {
      var failure := mb.Init(context);
      if failure.Some? {
        mb.Close();
        return Failure(failure.value);
      }
      r := mb.BuildModel();
      mb.Close();
    }

    /** The rows of the drill-down query over the local model, in order. */
    method GetDrillDownParameterMaps(localModel: Graph) returns (rows: seq<Row>)
      ensures rows == select(localModel, drillDownQuery)
    {
      rows := select(localModel, drillDownQuery);
    }

    /** Run a drill-down builder in the row's context; reset it only if that returned. */
    method RunDrillDownModelBuilder(mb: ModelBuilder, drillDownParameters: Row) returns (r: Result<Graph, DistributorError>)
      requires ddContext.Some?
      modifies mb, mb.log
      ensures r == DrillDownRunOf(mb.spec, ddContext.value, drillDownParameters).result
      ensures mb.log.events == old(mb.log.events) + DrillDownRunOf(mb.spec, ddContext.value, drillDownParameters).events
      ensures r.Success? ==> mb.context == None
    {
      var ddc := NewDrillDownContext(ddContext.value, drillDownParameters);
      r := RunModelBuilder(mb, ddc);
      if r.Success? {
        mb.Reset();
      }
    }

    /**
     * The inner loop of buildModel: every drill-down builder, in list order,
     * for one row, merging each result into `m`.
     */
    method DrillDownRow(row: Row, m: Graph, ghost log: CallLog) returns (r: Result<Graph, DistributorError>)
      requires ddContext.Some?
      requires forall b :: b in drillDownModelBuilders ==> b.log == log
      modifies log, drillDownModelBuilders
      ensures var run := RowPhase(Specs(drillDownModelBuilders), ddContext.value, row, m);
        r == run.result && log.events == old(log.events) + run.events
    {
      ghost var drill := Specs(drillDownModelBuilders);
      ghost var whole := RowPhase(drill, ddContext.value, row, m);
      ghost var done: seq<Event> := [];
      var acc := m;
      var k := 0;
      while k < |drillDownModelBuilders|
        invariant 0 <= k <= |drillDownModelBuilders|
        invariant log.events == old(log.events) + done
        invariant whole == Prepend(done, RowPhase(drill[k..], ddContext.value, row, acc))
      {
        var mb := drillDownModelBuilders[k];
        var built := RunDrillDownModelBuilder(mb, row);
        ghost var run := DrillDownRunOf(drill[k], ddContext.value, row);
        assert log.events == old(log.events) + (done + run.events) by {
          AppendAssoc(old(log.events), done, run.events);
        }
        if built.Failure? {
          assert whole == Prepend(done, run) by {
            RowStep(drill, k, ddContext.value, row, acc, done);
          }
          r := built;
          return;
        }
        assert whole == Prepend(done + run.events, RowPhase(drill[k + 1..], ddContext.value, row, acc + built.value)) by {
          RowStep(drill, k, ddContext.value, row, acc, done);
        }
        done := done + run.events;
        acc := acc + built.value;
        k := k + 1;
      }
      r := Success(acc);
    }

    /**
     * The first loop of buildModel: every top-level builder, in list order,
     * in the stored context, merging each result into an empty model.
     */
    method SeedModel(ghost log: CallLog) returns (r: Result<Graph, DistributorError>)
      requires ddContext.Some?
      requires forall b :: b in topLevelModelBuilders ==> b.log == log
      modifies log, topLevelModelBuilders
      ensures var run := TopLevelPhase(Specs(topLevelModelBuilders), ddContext.value, {});
        r == run.result && log.events == old(log.events) + run.events
    {
      var context := ddContext.value;
      ghost var top := Specs(topLevelModelBuilders);
      ghost var seeded := TopLevelPhase(top, context, {});
      ghost var done: seq<Event> := [];
      var m: Graph := {};
      var i := 0;
      while i < |topLevelModelBuilders|
        invariant 0 <= i <= |topLevelModelBuilders|
        invariant log.events == old(log.events) + done
        invariant seeded == Prepend(done, TopLevelPhase(top[i..], context, m))
      {
        var mb := topLevelModelBuilders[i];
        var built := RunModelBuilder(mb, context);
        ghost var run := RunOf(top[i], context);
        assert log.events == old(log.events) + (done + run.events) by {
          AppendAssoc(old(log.events), done, run.events);
        }
        if built.Failure? {
          assert seeded == Prepend(done, run) by {
            TopLevelStep(top, i, context, m, done);
          }
          r := built;
          return;
        }
        assert seeded == Prepend(done + run.events, TopLevelPhase(top[i + 1..], context, m + built.value)) by {
          TopLevelStep(top, i, context, m, done);
        }
        done := done + run.events;
        m := m + built.value;
        i := i + 1;
      }
      assert top[i..] == [];
      r := Success(m);
    }

    /**
     * Seed the local model from the top-level builders, query it for the
     * drill-down rows, and run every drill-down builder for every row, merging
     * every result into the local model.
     */
    method BuildModel(ghost log: CallLog) returns (r: Result<Graph, DistributorError>)
      requires ddContext.Some?
      requires forall b :: b in topLevelModelBuilders ==> b.log == log
      requires forall b :: b in drillDownModelBuilders ==> b.log == log
      modifies log, topLevelModelBuilders, drillDownModelBuilders
      ensures var run := Pipeline(Specs(topLevelModelBuilders), drillDownQuery, Specs(drillDownModelBuilders),
                                  select, ddContext.value);
        r == run.result && log.events == old(log.events) + run.events
    {
      var context := ddContext.value;
      ghost var top := Specs(topLevelModelBuilders);
      ghost var drill := Specs(drillDownModelBuilders);
      ghost var whole := Pipeline(top, drillDownQuery, drill, select, context);
      ghost var seeded := TopLevelPhase(top, context, {});
      var seed := SeedModel(log);
      if seed.Failure? {
        r := seed;
        return;
      }
      var m := seed.value;
      ghost var done := seeded.events;
      var rows := GetDrillDownParameterMaps(m);
      assert whole == Prepend(done, DrillDownPhase(rows, drill, context, m));
      var j := 0;
      while j < |rows|
        invariant 0 <= j <= |rows|
        invariant log.events == old(log.events) + done
        invariant whole == Prepend(done, DrillDownPhase(rows[j..], drill, context, m))
      {
        var row := rows[j];
        var built := DrillDownRow(row, m, log);
        ghost var run := RowPhase(drill, context, row, m);
        assert log.events == old(log.events) + (done + run.events) by {
          AppendAssoc(old(log.events), done, run.events);
        }
        if built.Failure? {
          assert whole == Prepend(done, run) by {
            DrillDownStep(rows, j, drill, context, m, done);
          }
          r := built;
          return;
        }
        assert whole == Prepend(done + run.events, DrillDownPhase(rows[j + 1..], drill, context, built.value)) by {
          DrillDownStep(rows, j, drill, context, m, done);
        }
        done := done + run.events;
        m := built.value;
        j := j + 1;
      }
      r := Success(m);
    }
  }
}
