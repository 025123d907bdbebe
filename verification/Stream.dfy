/**
 The active-stream counter as shared state (swarm/src/stream.rs): a reference count that every stream
 handed to a handler raises while it has not opted out, next to the connection's own reference. The
 view of it is the counter that `ConnectionModel` reasons about.
 */
module Stream {
  import opened ConnectionModel

  ghost function Handles(streams: set<Stream>): set<nat> {
    set s | s in streams :: s.handle
  }

  class ActiveStreamCounter {
    var strong: nat
    ghost var holders: set<Stream>

    /** The count is the connection's own reference and one for each stream that still holds one. */
    ghost predicate Valid()
      reads this, holders
    {
      && strong == 1 + |holders|
      && (forall s :: s in holders ==> s.counter == this)
      && (forall s, t :: s in holders && t in holders && s.handle == t.handle ==> s == t)
    }

    ghost function View(): StreamCounter
      reads this
    {
      StreamCounter(strong, Handles(holders))
    }

    constructor ()
      ensures Valid() && holders == {} && View() == StreamCounter(1, {})
    {
      strong := 1;
      holders := {};
    }

    method HasNoActiveStreams() returns (none: bool)
      requires Valid()
      ensures none <==> holders == {}
      ensures none <==> View().HasNoActiveStreams()
    {
      none := strong == 1;
    }
  }

  /** As many handles as streams, if no two share one: the view counts what the object counts. */
  lemma {:induction false} DistinctHandles(streams: set<Stream>)
    requires forall s, t :: s in streams && t in streams && s.handle == t.handle ==> s == t
    ensures |Handles(streams)| == |streams|
    decreases |streams|
  {
    if streams == {} {
    } else {
      var s :| s in streams;
      DistinctHandles(streams - {s});
      assert Handles(streams) == Handles(streams - {s}) + {s.handle};
      assert s.handle !in Handles(streams - {s});
    }
  }

  class Stream {
    var counter: ActiveStreamCounter?
    ghost const handle: nat

    /** `Stream::new` with a clone of the counter. */
    constructor (c: ActiveStreamCounter, ghost handle: nat)
      requires c.Valid() && handle !in c.View().holders
      modifies c
      ensures c.Valid() && counter == c && this.handle == handle && c.holders == old(c.holders) + {this}
      ensures c.View() == old(c.View()).Clone(handle) && c.View().Valid()
    {
      counter := c;
      this.handle := handle;
      new;
      c.strong := c.strong + 1;
      c.holders := c.holders + {this};
      DistinctHandles(c.holders);
    }

    /** A stream that holds a reference is among the holders of that counter. */
    ghost predicate Counted()
      reads this, counter
    {
      counter != null ==> this in counter.holders
    }

    /**
     `ignore_for_keep_alive`, and what dropping the stream does to the counter: the reference is taken
     out once; asking again changes nothing.
     */
    method IgnoreForKeepAlive()
      requires Counted() && (counter != null ==> counter.Valid())
      modifies this, counter
      ensures counter == null
      ensures old(counter) != null ==>
                && old(counter).Valid() && old(counter).holders == old(counter.holders) - {this}
                && old(counter).View() == old(counter.View()).Release({handle}) && old(counter).View().Valid()
    {
      if counter != null {
        ghost var held := Handles(counter.holders);
        counter.strong := counter.strong - 1;
        counter.holders := counter.holders - {this};
        DistinctHandles(counter.holders);
        assert held * {handle} == {handle} && Handles(counter.holders) == held - {handle};
        counter := null;
      }
    }
  }
}
