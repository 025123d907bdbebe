/**
 Protocol-set diffing (swarm/src/handler.rs, `ProtocolsChange`; swarm/src/connection/supported_protocols.rs).

 The local protocols live in a map from name to a "visited" mark. `from_full_sets` walks the new list
 once, marking and inserting as it goes and collecting names in a scratch buffer, and then sweeps the
 unmarked entries. `FullSets` says in closed form what comes out of that; the lemmas compare it with
 plain set difference.
 */
module ProtocolsChange {
  import opened Common

  /** `StreamProtocol::try_from_owned` takes names with a leading slash and no others. */
  predicate IsValid(protocol: string) {
    |protocol| > 0 && protocol[0] == '/'
  }

  lemma ValidMeansSlash(protocol: string)
    ensures IsValid(protocol) <==> "/" <= protocol
  {
    assert IsValid(protocol) ==> protocol[..1] == "/";
  }

  function ValidPart(protocols: set<string>): set<string> {
    set p | p in protocols && IsValid(p)
  }

  /** A change, by the protocols its iterator yields; each is yielded once. */
  datatype Change = Added(protocols: set<string>) | Removed(protocols: set<string>)

  // ----- what a receiver makes of changes -----

  /** `SupportedProtocols::on_protocols_change`, which is how handlers keep track. */
  function Replay(known: set<string>, change: Change): set<string> {
    match change
    case Added(ps) => known + ps
    case Removed(ps) => known - ps
  }

  function ReplayAll(known: set<string>, changes: seq<Change>): set<string>
    decreases |changes|
  {
    if changes == [] then known else ReplayAll(Replay(known, changes[0]), changes[1..])
  }

  lemma {:induction false} ReplayAllConcat(known: set<string>, a: seq<Change>, b: seq<Change>)
    ensures ReplayAll(known, a + b) == ReplayAll(ReplayAll(known, a), b)
    decreases |a|
  {
    if a == [] {
      assert a + b == b;
    } else {
      assert (a + b)[1..] == a[1..] + b;
      ReplayAllConcat(Replay(known, a[0]), a[1..], b);
    }
  }

  /** The receiving end keeps a set and reports whether it moved. */
  class SupportedProtocols {
    var protocols: set<string>

    constructor ()
      ensures protocols == {}
    {
      protocols := {};
    }

    method OnProtocolsChange(added: bool, names: seq<string>) returns (changed: bool)
      modifies this
      ensures protocols == Replay(old(protocols), if added then Added(Elements(names)) else Removed(Elements(names)))
      ensures changed <==> protocols != old(protocols)
    {
      changed := false;
      for i := 0 to |names|
        invariant added ==> protocols == old(protocols) + Elements(names[..i])
        invariant !added ==> protocols == old(protocols) - Elements(names[..i])
        invariant changed <==> protocols != old(protocols)
      {
        var p := names[i];
        assert Elements(names[..i + 1]) == Elements(names[..i]) + {p};
        if added {
          changed := changed || p !in protocols;
          protocols := protocols + {p};
        } else {
          changed := changed || p in protocols;
          protocols := protocols - {p};
        }
      }
      assert names[..|names|] == names;
    }
  }

  // ----- remote protocols: the set is given, the buffer collects the difference -----

  /** `ProtocolsChange::add`: what is really new, or nothing to report. */
  method Add(existing: set<string>, toAdd: set<string>, scratch: seq<string>)
    returns (change: Option<Change>, buffer: seq<string>)
    ensures change == if toAdd - existing == {} then None else Some(Added(toAdd - existing))
    ensures Elements(buffer) == toAdd - existing && NoDuplicates(buffer)
  {
    buffer := scratch;
    buffer := [];
    var todo := toAdd;
    while todo != {}
      invariant todo <= toAdd
      invariant Elements(buffer) == toAdd - todo - existing && NoDuplicates(buffer)
      decreases todo
    {
      var p :| p in todo;
      todo := todo - {p};
      if p !in existing {
        ElementsAppend(buffer, p);
        buffer := buffer + [p];
      }
    }
    ElementsEmpty(buffer);
    assert Elements(buffer) == toAdd - existing;
    change := if buffer == [] then None else Some(Added(Elements(buffer)));
  }

  /** `ProtocolsChange::remove`: takes the given protocols out of the set and reports those it found. */
  method Remove(existing: set<string>, toRemove: set<string>, scratch: seq<string>)
    returns (change: Option<Change>, left: set<string>, buffer: seq<string>)
    ensures change == if toRemove * existing == {} then None else Some(Removed(toRemove * existing))
    ensures left == existing - toRemove
    ensures Elements(buffer) == toRemove * existing && NoDuplicates(buffer)
  {
    buffer := scratch;
    buffer := [];
    left := existing;
    var todo := toRemove;
    while todo != {}
      invariant todo <= toRemove
      invariant left == existing - (toRemove - todo)
      invariant Elements(buffer) == (toRemove - todo) * existing && NoDuplicates(buffer)
      decreases todo
    {
      var p :| p in todo;
      todo := todo - {p};
      if p in left {
        left := left - {p};
        ElementsAppend(buffer, p);
        buffer := buffer + [p];
      }
    }
    ElementsEmpty(buffer);
    assert Elements(buffer) == toRemove * existing;
    change := if buffer == [] then None else Some(Removed(Elements(buffer)));
  }

  // ----- local protocols: mark and sweep -----

  /** `from_initial_protocols`: the valid names among the keys. The change may be empty. */
  method FromInitialProtocols(names: set<string>, scratch: seq<string>)
    returns (change: Change, buffer: seq<string>)
    ensures change == Added(ValidPart(names))
    ensures Elements(buffer) == ValidPart(names) && NoDuplicates(buffer)
  {
    buffer := scratch;
    buffer := [];
    var todo := names;
    while todo != {}
      invariant todo <= names
      invariant Elements(buffer) == ValidPart(names - todo) && NoDuplicates(buffer)
      decreases todo
    {
      var p :| p in todo;
      todo := todo - {p};
      if IsValid(p) {
        ElementsAppend(buffer, p);
        buffer := buffer + [p];
      }
    }
    assert names - {} == names;
    change := Added(Elements(buffer));
  }

  /** `gather_supported_protocols`: the names of the list, all marked. */
  function Gathered(names: seq<string>): map<string, bool> {
    map p | p in Elements(names) :: true
  }

  /** The early return of `from_full_sets`: as many names as entries, and nothing valid to add. */
  predicate LooksUnchanged(existing: map<string, bool>, names: seq<string>) {
    |names| == |existing.Keys + Elements(names)| && ValidPart(Elements(names) - existing.Keys) == {}
  }

  function OneIfAny(change: Change): seq<Change> {
    if change.protocols == {} then [] else [change]
  }

  /** The map and the changes that `from_full_sets` leaves behind, marks included. */
  function FullSets(existing: map<string, bool>, names: seq<string>): (map<string, bool>, seq<Change>) {
    var wanted := Elements(names);
    if LooksUnchanged(existing, names) then
      (map p | p in existing.Keys + wanted :: p in wanted, [])
    else
      (Gathered(names),
       OneIfAny(Added(ValidPart(wanted - existing.Keys))) + OneIfAny(Removed(ValidPart(existing.Keys - wanted))))
  }

  lemma MarkedAndUnmarked(existing: map<string, bool>, names: seq<string>)
    ensures var marked := map p | p in existing.Keys + Elements(names) :: p in Elements(names);
            && (set p | p in marked && !marked[p]) == existing.Keys - Elements(names)
            && (map p | p in marked && marked[p] :: true) == Gathered(names)
  {
  }

  /** The tail of `from_full_sets`: the buffer split into at most one addition and one removal. */
  method SplitChanges(buffer: seq<string>, added: nat) returns (changes: seq<Change>)
    requires added <= |buffer|
    ensures changes == OneIfAny(Added(Elements(buffer[..added]))) + OneIfAny(Removed(Elements(buffer[added..])))
  {
    ElementsEmpty(buffer[..added]);
    ElementsEmpty(buffer[added..]);
    changes := [];
    if buffer[..added] != [] {
      changes := changes + [Added(Elements(buffer[..added]))];
    }
    if buffer[added..] != [] {
      changes := changes + [Removed(Elements(buffer[added..]))];
    }
  }

  /** First loop: mark what stays, insert what is new and remember it if it is a valid name. */
  method MarkNew(existing: map<string, bool>, names: seq<string>, scratch: seq<string>)
    returns (result: map<string, bool>, buffer: seq<string>, count: nat)
    ensures result == map p | p in existing.Keys + Elements(names) :: p in Elements(names)
    ensures Elements(buffer) == ValidPart(Elements(names) - existing.Keys) && NoDuplicates(buffer)
    ensures count == |names|
  {
    buffer := scratch;
    buffer := [];
    result := map p | p in existing :: false;
    count := 0;
    while count < |names|
      invariant 0 <= count <= |names|
      invariant result == map p | p in existing.Keys + Elements(names[..count]) :: p in Elements(names[..count])
      invariant Elements(buffer) == ValidPart(Elements(names[..count]) - existing.Keys) && NoDuplicates(buffer)
    {
      var p := names[count];
      assert Elements(names[..count + 1]) == Elements(names[..count]) + {p};
      if p !in result && IsValid(p) {
        ElementsAppend(buffer, p);
        buffer := buffer + [p];
      }
      result := result[p := true];
      count := count + 1;
    }
    assert names[..|names|] == names;
  }

  /** Second loop, `retain`: drop the unmarked entries and append the valid ones among them to the buffer. */
  method SweepUnmarked(marked: map<string, bool>, added: seq<string>)
    returns (result: map<string, bool>, buffer: seq<string>)
    requires NoDuplicates(added) && forall p :: p in Elements(added) ==> p in marked && marked[p]
    ensures result == map p | p in marked && marked[p] :: true
    ensures |buffer| >= |added| && buffer[..|added|] == added && NoDuplicates(buffer)
    ensures Elements(buffer[|added|..]) == ValidPart(set p | p in marked && !marked[p])
  {
    result := marked;
    buffer := added;
    var todo := marked.Keys;
    while todo != {}
      invariant todo <= marked.Keys
      invariant result == map p | p in marked && (marked[p] || p in todo) :: marked[p]
      invariant |buffer| >= |added| && buffer[..|added|] == added && NoDuplicates(buffer)
      invariant Elements(buffer) == Elements(added) + Elements(buffer[|added|..])
      invariant Elements(buffer[|added|..]) == ValidPart(set p | p in marked && !marked[p] && p !in todo)
      decreases todo
    {
      var p :| p in todo;
      todo := todo - {p};
      if !marked[p] {
        if IsValid(p) {
          ElementsAppend(buffer, p);
          ElementsAppend(buffer[|added|..], p);
          assert (buffer + [p])[|added|..] == buffer[|added|..] + [p];
          buffer := buffer + [p];
        }
        result := result - {p};
      }
    }
  }

  /** `from_full_sets`, loop by loop. */
  method FromFullSets(existing: map<string, bool>, names: seq<string>, scratch: seq<string>)
    returns (result: map<string, bool>, changes: seq<Change>, buffer: seq<string>)
    ensures (result, changes) == FullSets(existing, names)
    ensures NoDuplicates(buffer)
  {
    var count;
    result, buffer, count := MarkNew(existing, names, scratch);
    assert count == |result| && buffer == [] <==> LooksUnchanged(existing, names) by {
      assert result.Keys == existing.Keys + Elements(names) && |result| == |result.Keys|;
      ElementsEmpty(buffer);
    }
    if count == |result| && buffer == [] {
      changes := [];
    } else {
      var added := |buffer|;
      MarkedAndUnmarked(existing, names);
      result, buffer := SweepUnmarked(result, buffer);
      changes := SplitChanges(buffer, added);
    }
  }

  // ----- against plain set difference -----

  lemma {:induction false} DistinctCount(s: seq<string>)
    ensures |Elements(s)| <= |s|
    ensures NoDuplicates(s) <==> |Elements(s)| == |s|
  {
    if s == [] {
    } else {
      var last := |s| - 1;
      var init := s[..last];
      DistinctCount(init);
      assert s == init + [s[last]];
      assert Elements(s) == Elements(init) + {s[last]};
      if s[last] in Elements(init) {
        var i :| 0 <= i < last && s[i] == s[last];
        assert Elements(s) == Elements(init);
      } else if NoDuplicates(init) {
        assert NoDuplicates(s);
      } else {
        var i, j :| 0 <= i < j < |init| && init[i] == init[j];
        assert s[i] == s[j];
      }
    }
  }

  /** Where the early return hides a removal: the list repeats names in place of the missing ones. */
  predicate HidesRemoval(existing: map<string, bool>, names: seq<string>) {
    LooksUnchanged(existing, names) && !(existing.Keys <= Elements(names))
  }

  /** A list without repetitions never runs into that. */
  lemma NoRepetitionHidesNothing(existing: map<string, bool>, names: seq<string>)
    requires NoDuplicates(names)
    ensures !HidesRemoval(existing, names)
  {
    if LooksUnchanged(existing, names) {
      DistinctCount(names);
      SubsetCardinality(Elements(names), existing.Keys + Elements(names));
    }
  }

  lemma FullSetsKeys(existing: map<string, bool>, names: seq<string>)
    ensures FullSets(existing, names).0.Keys ==
            if LooksUnchanged(existing, names) then existing.Keys + Elements(names) else Elements(names)
  {
    hide LooksUnchanged;
  }

  /**
   Against the set specification, for every list: the map ends up with exactly the new names, all
   marked, if and only if no removal is hidden; and then the additions and removals reported are the
   valid parts of the two set differences.
   */
  lemma FullSetsIsSetDifference(existing: map<string, bool>, names: seq<string>)
    ensures FullSets(existing, names).0 == Gathered(names) <==> !HidesRemoval(existing, names)
    ensures !HidesRemoval(existing, names) ==>
              FullSets(existing, names).1 ==
              OneIfAny(Added(ValidPart(Elements(names) - existing.Keys))) +
                  OneIfAny(Removed(ValidPart(existing.Keys - Elements(names))))
    ensures NoDuplicates(names) ==> FullSets(existing, names).0 == Gathered(names)
  {
    var wanted := Elements(names);
    FullSetsKeys(existing, names);
    if NoDuplicates(names) {
      NoRepetitionHidesNothing(existing, names);
    }
    assert Gathered(names).Keys == wanted;
    if HidesRemoval(existing, names) {
      var p :| p in existing.Keys && p !in wanted;
      assert p in FullSets(existing, names).0.Keys;
    } else if LooksUnchanged(existing, names) {
      assert existing.Keys + wanted == wanted && existing.Keys - wanted == {};
      assert ValidPart(existing.Keys - wanted) == {};
    }
  }

  /** Whatever the list, nothing is reported that is not a real addition or removal, and no change is empty. */
  lemma ReportsAreReal(existing: map<string, bool>, names: seq<string>, i: nat)
    requires i < |FullSets(existing, names).1|
    ensures var c := FullSets(existing, names).1[i];
            && c.protocols != {}
            && (c.Added? ==> c.protocols == ValidPart(Elements(names) - existing.Keys))
            && (c.Removed? ==> c.protocols == ValidPart(existing.Keys - Elements(names)))
  {
    hide LooksUnchanged, ValidPart, Elements, Gathered;
    var added, removed := ValidPart(Elements(names) - existing.Keys), ValidPart(existing.Keys - Elements(names));
    assert FullSets(existing, names).1 == OneIfAny(Added(added)) + OneIfAny(Removed(removed));
  }

  /** The list ["/a", "/a"] after "/a" and "/b": the removal of "/b" goes unreported. */
  lemma RepetitionHidesRemoval()
    ensures HidesRemoval(map["/a" := true, "/b" := true], ["/a", "/a"])
    ensures FullSets(map["/a" := true, "/b" := true], ["/a", "/a"]) == (map["/a" := true, "/b" := false], [])
  {
    var existing := map["/a" := true, "/b" := true];
    var names := ["/a", "/a"];
    assert names[0] == "/a";
    assert Elements(names) == {"/a"};
    assert existing.Keys + Elements(names) == {"/a", "/b"};
    assert "/a" != "/b" by { assert "/a"[1] != "/b"[1]; }
    assert ValidPart(Elements(names) - existing.Keys) == {};
    assert FullSets(existing, names).0 == map["/a" := true, "/b" := false];
  }

  lemma NothingValidAdded(before: set<string>, wanted: set<string>)
    requires ValidPart(wanted - before) == {}
    ensures ValidPart(before + wanted) == ValidPart(before)
  {
    forall p | p in ValidPart(before + wanted) ensures p in ValidPart(before) {
      assert p !in before ==> p in ValidPart(wanted - before);
    }
  }

  lemma ReplayOneIfAny(known: set<string>, change: Change)
    ensures ReplayAll(known, OneIfAny(change)) == Replay(known, change)
  {
  }

  lemma ReplayDifference(before: set<string>, wanted: set<string>)
    ensures ReplayAll(ValidPart(before), OneIfAny(Added(ValidPart(wanted - before))) +
            OneIfAny(Removed(ValidPart(before - wanted)))) ==
            ValidPart(wanted)
  {
    var added, removed := ValidPart(wanted - before), ValidPart(before - wanted);
    ReplayAllConcat(ValidPart(before), OneIfAny(Added(added)), OneIfAny(Removed(removed)));
    ReplayOneIfAny(ValidPart(before), Added(added));
    ReplayOneIfAny(ValidPart(before) + added, Removed(removed));
    assert ValidPart(before) + added - removed == ValidPart(wanted);
  }

  /**
   Replay of one call, for every list: a receiver that knew the valid names of the old map knows the
   valid names of the new one after replaying the changes.
   */
  lemma ReplayFollowsMap(existing: map<string, bool>, names: seq<string>)
    ensures ReplayAll(ValidPart(existing.Keys), FullSets(existing, names).1) ==
            ValidPart(FullSets(existing, names).0.Keys)
  {
    var before, wanted := existing.Keys, Elements(names);
    if LooksUnchanged(existing, names) {
      assert FullSets(existing, names).0.Keys == before + wanted;
      NothingValidAdded(before, wanted);
    } else {
      assert FullSets(existing, names).0.Keys == wanted;
      ReplayDifference(before, wanted);
    }
  }

  lemma ValidSplit(before: set<string>, wanted: set<string>)
    ensures ValidPart(before + wanted) == ValidPart(wanted) <==> ValidPart(before - wanted) == {}
  {
    var gone := ValidPart(before - wanted);
    assert ValidPart(before + wanted) == ValidPart(wanted) + gone;
    assert ValidPart(wanted) !! gone;
    if gone != {} {
      var p :| p in gone;
      assert p in ValidPart(before + wanted) && p !in ValidPart(wanted);
    }
  }

  /**
   After a call, for every list: what the receiver knows is exactly the valid part of the list if and
   only if the early return was not taken with a valid name missing from the list.
   */
  lemma InStepUnlessHidden(existing: map<string, bool>, names: seq<string>)
    ensures ValidPart(FullSets(existing, names).0.Keys) == ValidPart(Elements(names)) <==>
            !(LooksUnchanged(existing, names) && ValidPart(existing.Keys - Elements(names)) != {})
    ensures NoDuplicates(names) ==> ValidPart(FullSets(existing, names).0.Keys) == ValidPart(Elements(names))
  {
    FullSetsKeys(existing, names);
    ValidSplit(existing.Keys, Elements(names));
    if NoDuplicates(names) {
      NoRepetitionHidesNothing(existing, names);
      assert LooksUnchanged(existing, names) ==> existing.Keys + Elements(names) == Elements(names);
    }
    hide FullSets, LooksUnchanged, ValidPart;
  }
}
