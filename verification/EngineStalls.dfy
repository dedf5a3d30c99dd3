/** Commands delivered exactly once and in order, the best case of a run: what stops a market. */
module EngineStalls {
  import opened BookSpec
  import opened EngineSpec
  import opened EngineTraces

  predicate InOrder(last: nat, ds: seq<Delivery>) {
    forall i :: 0 <= i < |ds| ==> ds[i].cmdSeq == last + 1 + i
  }

  /** Behind a gap every command is a gap. */
  lemma {:induction false} AllGaps(e: Engine, pair: PairId, ds: seq<Delivery>)
    requires e.last > 0 && forall d :: d in ds ==> d.cmdSeq > e.last + 1
    ensures HandleAll(e, pair, ds).0 == (if ds == [] then e else e.(state := EngineState.Failed))
    ensures Accepted(e, pair, ds) == []
    decreases |ds|
  {
    if ds != [] {
      assert Handle(e, pair, ds[0].cmd, ds[0].cmdSeq) == (e.(state := EngineState.Failed), [EngineFailed]);
      AllGaps(e.(state := EngineState.Failed), pair, ds[1..]);
    }
  }

  /** What a ready engine makes of the next command in order: only the cancellation of an order
      that does not rest is turned down, and that does not take the number of the command. */
  lemma NextInOrder(e: Engine, pair: PairId, cmd: Command, cmdSeq: nat)
    requires e.last > 0 && e.state == EngineState.Ready && cmdSeq == e.last + 1
    ensures var after := Handle(e, pair, cmd, cmdSeq).0;
      if cmd.CancelOrder? && Find(e.Orders(), cmd.order).None? then after == e
      else after.last == cmdSeq && after.state == EngineState.Ready
  {
    hide Place, Cancel, Find, PlaceEvents;
  }

  /** An open market takes commands delivered once and in order up to the first cancellation of an
      order that does not rest at that time. From there on it takes none: the next command is a
      gap, and the engine fails with its book as it was. */
  lemma {:induction false} StopsAtRejection(e: Engine, pair: PairId, ds: seq<Delivery>)
    requires e.last > 0 && e.state == EngineState.Ready && InOrder(e.last, ds)
    ensures var k := |Accepted(e, pair, ds)|;
      && k <= |ds| && Accepted(e, pair, ds) == Range(e.last, e.last + k)
      && (k < |ds| ==>
            var stopped := HandleAll(e, pair, ds[..k]).0;
            && ds[k].cmd.CancelOrder? && Find(stopped.Orders(), ds[k].cmd.order).None?
            && HandleAll(e, pair, ds).0 == if k + 1 < |ds| then stopped.(state := EngineState.Failed) else stopped)
    decreases |ds|
  {
    hide Handle, Find;
    if ds != [] {
      var mid := Handle(e, pair, ds[0].cmd, ds[0].cmdSeq).0;
      NextInOrder(e, pair, ds[0].cmd, ds[0].cmdSeq);
      if mid.last == e.last {
        AllGaps(e, pair, ds[1..]);
        assert ds[..0] == [];
      } else {
        StopsAtRejection(mid, pair, ds[1..]);
        AcceptedFirst(e, pair, ds);
        var k := |Accepted(mid, pair, ds[1..])|;
        assert ds[..k + 1][1..] == ds[1..][..k];
        RangeConcat(e.last, e.last + 1, e.last + 1 + k);
        assert Range(e.last, e.last + 1) == [e.last + 1];
      }
    }
  }

  lemma AcceptedFirst(e: Engine, pair: PairId, ds: seq<Delivery>)
    requires ds != [] && Handle(e, pair, ds[0].cmd, ds[0].cmdSeq).0.last != e.last
    ensures Accepted(e, pair, ds)
            == [ds[0].cmdSeq] + Accepted(Handle(e, pair, ds[0].cmd, ds[0].cmdSeq).0, pair, ds[1..])
  {
    hide Handle;
  }

  // ---- blocked engines ------------------------------------------------------------------------

  /** A command that the engine turns down in its turn, so that the number stays the next one. */
  predicate TurnedDown(e: Engine, cmd: Command) {
    !cmd.OpenMarket? && (e.state != EngineState.Ready || (cmd.CancelOrder? && Find(e.Orders(), cmd.order).None?))
  }

  /** The engine takes none of these deliveries: whatever has the next number is turned down, and
      an engine that has taken no command yet is not ready and gets no opening. */
  predicate Blocks(e: Engine, cmd: Command, cmdSeq: nat) {
    && (cmdSeq == e.last + 1 ==> TurnedDown(e, cmd))
    && (e.last == 0 ==> e.state != EngineState.Ready && !cmd.OpenMarket?)
  }

  lemma BlockedOnce(e: Engine, pair: PairId, cmd: Command, cmdSeq: nat)
    requires Blocks(e, cmd, cmdSeq)
    ensures var after := Handle(e, pair, cmd, cmdSeq).0; after == e || after == e.(state := EngineState.Failed)
  {
    hide Place, Cancel, Find, PlaceEvents;
  }

  lemma StillBlocks(e: Engine, cmd: Command, cmdSeq: nat)
    requires Blocks(e, cmd, cmdSeq)
    ensures Blocks(e.(state := EngineState.Failed), cmd, cmdSeq)
  {
  }

  /** A blocked engine stays as it is, but perhaps for failing, whatever is delivered how often. */
  lemma {:induction false} StaysBlocked(e: Engine, pair: PairId, ds: seq<Delivery>)
    requires forall d :: d in ds ==> Blocks(e, d.cmd, d.cmdSeq)
    ensures var after := HandleAll(e, pair, ds).0; after == e || after == e.(state := EngineState.Failed)
    ensures Accepted(e, pair, ds) == []
    decreases |ds|
  {
    hide Handle, Blocks;
    if ds != [] {
      BlockedOnce(e, pair, ds[0].cmd, ds[0].cmdSeq);
      forall d | d in ds[1..] ensures Blocks(Handle(e, pair, ds[0].cmd, ds[0].cmdSeq).0, d.cmd, d.cmdSeq) {
        StillBlocks(e, d.cmd, d.cmdSeq);
      }
      StaysBlocked(Handle(e, pair, ds[0].cmd, ds[0].cmdSeq).0, pair, ds[1..]);
    }
  }
}
