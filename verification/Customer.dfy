/** The consumer of the command stream, as far as it routes commands to pair engines. */
module Customers {
  import opened Wrappers
  import opened BookSpec
  import opened EngineSpec
  import opened PairEngines

  type Owners = map<PairId, set<object>>

  /** No two engines share an object. */
  ghost predicate Separate(reprs: Owners) {
    forall p, q :: p in reprs && q in reprs && p != q ==> reprs[p] !! reprs[q]
  }

  ghost function Owned(reprs: Owners): set<object> {
    set p, o | p in reprs && o in reprs[p] :: o
  }

  /** An engine with these objects and this state. */
  ghost predicate Runs(engine: PairEngine, pair: PairId, repr: set<object>, view: Engine)
    reads engine, repr
  {
    engine.pairId == pair && engine.Repr == repr && engine.Valid() && engine.View() == view
  }

  class Customer {
    var engines: map<PairId, PairEngine>
    ghost var reprs: Owners    // the objects of each engine,
    ghost var views: Engines   // and its state

    constructor ()
      ensures Valid() && views == map[]
    {
      engines, reprs, views := map[], map[], map[];
    }

    ghost predicate Valid()
      reads this, Owned(reprs), set p | p in engines :: engines[p]
    {
      && engines.Keys == reprs.Keys == views.Keys
      && this !in Owned(reprs)
      && Separate(reprs)
      && forall p :: p in engines ==> RunsOwn(p)
    }

    ghost predicate RunsOwn(p: PairId)
      requires p in engines && p in reprs && p in views
      reads this, Owned(reprs), set q | q in engines :: engines[q]
    {
      assert reprs[p] <= Owned(reprs);
      engines[p] in reprs[p] && Runs(engines[p], p, reprs[p], views[p])
    }

    /** A new engine, which shares nothing with those there are. */
    method Enlist(engine: PairEngine, pair: PairId)
      requires Valid() && pair !in engines && engine in engine.Repr && Runs(engine, pair, engine.Repr, NEW_ENGINE)
      requires this !in engine.Repr && Owned(reprs) !! engine.Repr
      modifies this
      ensures Valid() && engines == old(engines)[pair := engine]
      ensures reprs == old(reprs)[pair := engine.Repr] && views == old(views)[pair := NEW_ENGINE]
    {
      hide Runs, Owned, PairEngine.Valid, PairEngine.View;
      OwnsEach(reprs);
      OwnedWith(reprs, pair, engine.Repr);
      engines := engines[pair := engine];
      reprs, views := reprs[pair := engine.Repr], views[pair := NEW_ENGINE];
    }

    method GetEngine(pair: PairId) returns (engine: PairEngine)
      requires Valid()
      modifies this
      ensures Valid() && pair in engines && engines[pair] == engine
      ensures views == old(views)[pair := EngineOf(old(views), pair)]
      ensures pair in old(reprs) ==> reprs == old(reprs)
      ensures pair !in old(reprs) ==> reprs == old(reprs)[pair := reprs[pair]] && fresh(reprs[pair])
    {
      hide Runs, PairEngine.Valid, PairEngine.View;
      if pair in engines {
        engine := engines[pair];
      } else {
        engine := new PairEngine(pair);
        StartsRunning(engine, pair);
        Enlist(engine, pair);
      }
    }

    /** The engine of a pair handles a command; the other engines do not notice. */
    method Advance(engine: PairEngine, pair: PairId, cmd: Command, cmdSeq: nat) returns (events: seq<Event>)
      requires Valid() && pair in engines && engines[pair] == engine
      requires Acceptable(views[pair], cmd, cmdSeq)
      modifies reprs[pair]
      ensures engine.Valid() && engine in engine.Repr && fresh(engine.Repr - reprs[pair])
      ensures (engine.View(), events) == Handle(views[pair], pair, cmd, cmdSeq)
      ensures Runs(engine, pair, engine.Repr, engine.View())
      ensures forall p :: p in engines && p != pair ==> RunsOwn(p)
    {
      hide PairEngine.Valid, PairEngine.View, Handle, Separate, Runs, Owned, Acceptable;
      OwnsEach(reprs);
      assert RunsOwn(pair);
      RunsMeans(engine, pair, reprs[pair], views[pair]);
      SeparateWith(reprs, pair);
      events := HandleCommand(engine, cmd, cmdSeq);
      RunsMeans(engine, pair, engine.Repr, engine.View());
    }

    /** Notes what an engine has become. */
    ghost method Record(engine: PairEngine, pair: PairId)
      requires engines.Keys == reprs.Keys == views.Keys && pair in engines && engines[pair] == engine
      requires engine.Valid() && Runs(engine, pair, engine.Repr, engine.View())
      requires Separate(reprs[pair := engine.Repr]) && this !in Owned(reprs) && this !in engine.Repr
      requires forall p :: p in engines && p != pair ==> RunsOwn(p)
      modifies this`reprs, this`views
      ensures Valid() && views == old(views)[pair := engine.View()]
    {
      hide PairEngine.Valid, PairEngine.View, Separate, Runs, Owned;
      OwnsEach(reprs);
      OwnedWith(reprs, pair, engine.Repr);
      reprs, views := reprs[pair := engine.Repr], views[pair := engine.View()];
      OwnsEach(reprs);
    }

    method Route(engine: PairEngine, pair: PairId, ghost view: Engine, cmd: Command, cmdSeq: nat)
      returns (events: seq<Event>)
      requires Valid() && pair in engines && engines[pair] == engine && views[pair] == view
      requires Acceptable(view, cmd, cmdSeq)
      modifies this, reprs[pair]
      ensures Valid()
      ensures var (after, emitted) := Handle(view, pair, cmd, cmdSeq);
        views == old(views)[pair := after] && events == emitted
    {
      hide PairEngine.Valid, PairEngine.View, Handle, Separate, Runs, Owned, Acceptable;
      OwnsEach(reprs);
      SeparateWith(reprs, pair);
      events := Advance(engine, pair, cmd, cmdSeq);
      SeparateStill(reprs, pair, engine.Repr);
      Record(engine, pair);
    }

    /** Handles one message of the command stream. */
    method Dispatch(msg: Message) returns (r: Result<seq<Event>, DispatchError>)
      requires Valid()
      requires msg.Message? ==> Acceptable(EngineOf(views, msg.pair), msg.cmd, msg.cmdSeq)
      modifies this, Owned(reprs)
      ensures Valid()
      ensures (views, r) == EngineSpec.Dispatch(old(views), msg)
    {
      hide Runs, Handle, Separate, Acceptable;
      if msg.NoHeader? {
        return Err(BadMessage);
      }
      var pair := msg.pair;
      var engine := GetEngine(pair);
      if msg.NoCommand? {
        return Err(BadMessage);
      }
      assert reprs[pair] <= Owned(reprs);
      var events := Route(engine, pair, views[pair], msg.cmd, msg.cmdSeq);
      UpdatedTwice(old(views), pair, EngineOf(old(views), pair), views[pair]);
      r := Ok(events);
    }
  }

  lemma OwnsEach(reprs: Owners)
    ensures forall p :: p in reprs ==> reprs[p] <= Owned(reprs)
  {
  }

  lemma SeparateWith(reprs: Owners, pair: PairId)
    requires Separate(reprs) && pair in reprs
    ensures forall p :: p in reprs && p != pair ==> reprs[p] !! reprs[pair]
  {
  }

  lemma SeparateStill(reprs: Owners, pair: PairId, repr: set<object>)
    requires Separate(reprs) && forall p :: p in reprs && p != pair ==> reprs[p] !! repr
    ensures Separate(reprs[pair := repr])
  {
  }

  lemma OwnedWith(reprs: Owners, pair: PairId, repr: set<object>)
    ensures Owned(reprs[pair := repr]) <= Owned(reprs) + repr
    ensures pair !in reprs ==> Owned(reprs[pair := repr]) == Owned(reprs) + repr
  {
    var after := reprs[pair := repr];
    forall o | o in Owned(reprs) + repr && pair !in reprs ensures o in Owned(after) {
      if o in repr {
        assert o in after[pair];
      } else {
        var p :| p in reprs && o in reprs[p];
        assert o in after[p];
      }
    }
  }

  lemma RunsMeans(engine: PairEngine, pair: PairId, repr: set<object>, view: Engine)
    ensures Runs(engine, pair, repr, view)
            <==> engine.pairId == pair && engine.Repr == repr && engine.Valid() && engine.View() == view
    ensures Runs(engine, pair, repr, view) ==> engine in repr
  {
  }

  lemma StartsRunning(engine: PairEngine, pair: PairId)
    requires engine.Valid() && engine.pairId == pair && engine.View() == NEW_ENGINE
    ensures Runs(engine, pair, engine.Repr, NEW_ENGINE)
  {
  }
}
