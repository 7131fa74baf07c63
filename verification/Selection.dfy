/** Parts of a sequence, by the positions they are taken from. */
module Selections {
  /** `chosen` is what stands in `all` at these positions, in order. */
  predicate Picks<T(==)>(chosen: seq<T>, all: seq<T>, at: seq<nat>) {
    && |chosen| == |at|
    && (forall j :: 0 <= j < |at| ==> at[j] < |all| && chosen[j] == all[at[j]])
    && (forall j, k :: 0 <= j < k < |at| ==> at[j] < at[k])
  }

  /** `chosen` is exactly what stands at the positions of `keep`, in order. */
  ghost predicate Selects<T(!new)>(chosen: seq<T>, all: seq<T>, keep: set<nat>) {
    exists at: seq<nat> :: Picks(chosen, all, at) && PositionsOf(at) == keep
  }

  function PositionsOf(at: seq<nat>): set<nat> {
    set j | 0 <= j < |at| :: at[j]
  }

  lemma SelectsNothing<T(!new)>()
    ensures Selects<T>([], [], {})
  {
    var none: seq<nat> := [];
    assert Picks<T>([], [], none) && PositionsOf(none) == {};
  }

  function Shifted(keep: set<nat>): set<nat> {
    set i | i in keep :: i + 1
  }

  function Later(at: seq<nat>): (later: seq<nat>)
    ensures |later| == |at|
  {
    seq(|at|, j requires 0 <= j < |at| => at[j] + 1)
  }

  lemma LaterPositions(at: seq<nat>)
    ensures PositionsOf(Later(at)) == Shifted(PositionsOf(at))
    ensures PositionsOf([0] + Later(at)) == {0} + Shifted(PositionsOf(at))
  {
    var later, first := Later(at), [0] + Later(at);
    forall i | i in Shifted(PositionsOf(at)) ensures i in PositionsOf(later) && i in PositionsOf(first) {
      var j :| 0 <= j < |at| && at[j] == i - 1;
      assert later[j] == i && first[j + 1] == i;
    }
    forall i | i in PositionsOf(first) ensures i in {0} + Shifted(PositionsOf(at)) {
      var j :| 0 <= j < |first| && first[j] == i;
      if j > 0 {
        assert later[j - 1] == i && at[j - 1] in PositionsOf(at);
      }
    }
    assert first[0] == 0;
    forall i | i in PositionsOf(later) ensures i in Shifted(PositionsOf(at)) {
      var j :| 0 <= j < |later| && later[j] == i;
      assert at[j] in PositionsOf(at);
    }
  }

  /** One more in front, kept or not. */
  lemma SelectsCons<T(!new)>(chosen: seq<T>, all: seq<T>, keep: set<nat>, head: T)
    requires Selects(chosen, all, keep)
    ensures Selects(chosen, [head] + all, Shifted(keep))
    ensures Selects([head] + chosen, [head] + all, {0} + Shifted(keep))
  {
    hide PositionsOf, Shifted;
    var at: seq<nat> :| Picks(chosen, all, at) && PositionsOf(at) == keep;
    LaterPositions(at);
    assert Picks(chosen, [head] + all, Later(at));
    assert Picks([head] + chosen, [head] + all, [0] + Later(at));
  }

  /** What was chosen stands at some kept position, everything kept was chosen, and there are as many of one as of the other. */
  lemma SelectsMembers<T(!new)>(chosen: seq<T>, all: seq<T>, keep: set<nat>)
    requires Selects(chosen, all, keep)
    ensures forall i :: i in keep ==> i < |all| && all[i] in chosen
    ensures forall j :: 0 <= j < |chosen| ==> exists i :: i in keep && i < |all| && all[i] == chosen[j]
    ensures |chosen| == |keep|
  {
    var at: seq<nat> :| Picks(chosen, all, at) && PositionsOf(at) == keep;
    forall i | i in keep ensures i < |all| && all[i] in chosen {
      var j :| 0 <= j < |at| && at[j] == i;
      assert chosen[j] == all[i];
    }
    forall j | 0 <= j < |chosen| ensures exists i :: i in keep && i < |all| && all[i] == chosen[j] {
      assert at[j] in keep && all[at[j]] == chosen[j];
    }
    RisingSize(at);
  }

  lemma {:induction false} RisingSize(at: seq<nat>)
    requires forall j, k :: 0 <= j < k < |at| ==> at[j] < at[k]
    ensures |PositionsOf(at)| == |at|
    decreases |at|
  {
    if at != [] {
      var before, last := at[..|at| - 1], at[|at| - 1];
      RisingSize(before);
      assert PositionsOf(at) == PositionsOf(before) + {last} by {
        forall i | i in PositionsOf(at) ensures i in PositionsOf(before) + {last} {
          var j :| 0 <= j < |at| && at[j] == i;
          assert j < |before| ==> before[j] == i;
        }
        forall i | i in PositionsOf(before) ensures i in PositionsOf(at) {
          var j :| 0 <= j < |before| && before[j] == i;
          assert at[j] == i;
        }
        assert at[|before|] == last;
      }
      assert last !in PositionsOf(before);
    } else {
      assert PositionsOf(at) == {};
    }
  }
}
