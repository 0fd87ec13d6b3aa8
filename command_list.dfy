/**
 * The path list of command_list.go: commands in insertion order and the
 * position where the last added movement ends. Adding a movement chains it
 * to that position, so the movements form a connected path from the origin.
 */
module Commands {
  import opened Vectors
  import opened Movements
  import opened Dispatch

  /** An element of the list, which Go types as `interface{}`. */
  datatype Entry = MovementEntry(movement: Movement) | OtherEntry

  /** The movement entries of a list, in order (the type switch of `GetMovementList`). */
  function MovementsOf(arr: seq<Entry>): (r: seq<Movement>)
    ensures |r| <= |arr|
  {
    if arr == [] then []
    else MovementsOf(arr[..|arr| - 1]) + MovementOf(arr[|arr| - 1])
  }

  function MovementOf(e: Entry): seq<Movement> {
    if e.MovementEntry? then [e.movement] else []
  }

  /**
   * A path: the first movement starts at the origin, each next one where
   * its predecessor ends, and `last` is where the path ends (the origin for
   * an empty path).
   */
  predicate Chained(s: seq<MoveState>, last: Vector3d) {
    && (|s| == 0 ==> last == Origin)
    && (|s| > 0 ==> s[0].startPosition == Origin && last == s[|s| - 1].endPosition)
    && (forall k :: 0 < k < |s| ==> s[k].startPosition == s[k - 1].endPosition)
  }

  /** Appending a movement that starts where the path ends extends the path. */
  lemma ChainedAppend(s: seq<MoveState>, last: Vector3d, t: MoveState)
    requires Chained(s, last) && t.startPosition == last
    ensures Chained(s + [t], t.endPosition)
  {
  }

  /** When every entry is a movement, `MovementsOf` keeps all of them, in order. */
  lemma {:induction false} AllMovements(arr: seq<Entry>)
    requires forall k :: 0 <= k < |arr| ==> arr[k].MovementEntry?
    ensures |MovementsOf(arr)| == |arr|
    ensures forall k :: 0 <= k < |arr| ==> MovementsOf(arr)[k] == arr[k].movement
  {
    if arr != [] {
      AllMovements(arr[..|arr| - 1]);
    }
  }

  /** Appending a movement whose object is new keeps the objects distinct. */
  lemma DistinctAppend(ms: seq<Movement>, mv: Movement)
    requires Distinct(ms) && mv.Obj() !in Footprint(ms)
    ensures Distinct(ms + [mv])
  {
    forall j, k | 0 <= j < k < |ms| + 1
      ensures (ms + [mv])[j].Obj() != (ms + [mv])[k].Obj()
    {
      if k == |ms| {
        assert ms[j] in ms;
      }
    }
  }

  /** The snapshots of an extended list extend the snapshots of the list. */
  lemma StatesAppend(ms: seq<Movement>, mv: Movement)
    ensures States(ms + [mv]) == States(ms) + [mv.State()]
  {
  }

  /** The invariant of the list, on values: all entries are movements, on distinct objects, along a path. */
  predicate PathList(arr: seq<Entry>, ms: seq<Movement>, states: seq<MoveState>, last: Vector3d) {
    && (forall k :: 0 <= k < |arr| ==> arr[k].MovementEntry?)
    && ms == MovementsOf(arr)
    && Distinct(ms)
    && Chained(states, last)
  }

  /** Appending a new movement object that starts where the path ends keeps the invariant. */
  lemma AppendKeepsPath(arr: seq<Entry>, ms: seq<Movement>, states: seq<MoveState>, last: Vector3d,
                        mv: Movement, s: MoveState)
    requires PathList(arr, ms, states, last)
    requires mv.Obj() !in Footprint(ms) && s.startPosition == last
    ensures MovementsOf(arr + [MovementEntry(mv)]) == ms + [mv]
    ensures PathList(arr + [MovementEntry(mv)], ms + [mv], states + [s], s.endPosition)
  {
    assert (arr + [MovementEntry(mv)])[..|arr|] == arr;
    DistinctAppend(ms, mv);
    ChainedAppend(states, last, s);
  }

  /** The snapshots of a list depend only on its objects. */
  twostate lemma StatesUnchanged(ms: seq<Movement>)
    requires unchanged(Footprint(ms))
    ensures States(ms) == old(States(ms))
  {
    forall k | 0 <= k < |ms|
      ensures ms[k].State() == old(ms[k].State())
    {
      assert ms[k] in ms;
    }
  }

  /**
   * The list invariant survives `addMovement`: the entry appended last is a
   * movement on a new object, starting where the path used to end, and the
   * movements already in the list are untouched.
   */
  twostate lemma AddKeepsValid(c: CommandList)
    requires old(c.Valid())
    requires |c.arr| == |old(c.arr)| + 1 && c.arr[..|old(c.arr)|] == old(c.arr)
    requires c.arr[|old(c.arr)|].MovementEntry?
    requires c.arr[|old(c.arr)|].movement.Obj() !in old(Footprint(c.Movements()))
    requires unchanged(old(Footprint(c.Movements())))
    requires c.arr[|old(c.arr)|].movement.State().startPosition == old(c.previousPosition)
    requires c.previousPosition == c.arr[|old(c.arr)|].movement.State().endPosition
    ensures c.Valid()
  {
    ghost var ms := old(c.Movements());
    ghost var mv := c.arr[|old(c.arr)|].movement;
    assert c.arr == old(c.arr) + [MovementEntry(mv)];
    AppendKeepsPath(old(c.arr), ms, old(States(ms)), old(c.previousPosition), mv, mv.State());
    StatesUnchanged(ms);
    StatesAppend(ms, mv);
  }

  /** A list whose object and movements are untouched keeps its snapshots and its validity. */
  twostate lemma ListUnchanged(c: CommandList)
    requires unchanged(c) && unchanged(old(Footprint(c.Movements())))
    ensures States(c.Movements()) == old(States(c.Movements()))
    ensures old(c.Valid()) ==> c.Valid()
  {
    StatesUnchanged(c.Movements());
  }

  /**
   * Appending a movement entry, with the movements already in the list
   * untouched, appends its snapshot to the snapshots of the list.
   */
  twostate lemma AppendStates(c: CommandList)
    requires |c.arr| == |old(c.arr)| + 1 && c.arr[..|old(c.arr)|] == old(c.arr)
    requires c.arr[|old(c.arr)|].MovementEntry?
    requires unchanged(old(Footprint(c.Movements())))
    ensures c.Movements() == old(c.Movements()) + [c.arr[|old(c.arr)|].movement]
    ensures States(c.Movements()) == old(States(c.Movements())) + [c.arr[|old(c.arr)|].movement.State()]
  {
    ghost var ms := old(c.Movements());
    ghost var mv := c.arr[|old(c.arr)|].movement;
    assert c.arr == old(c.arr) + [MovementEntry(mv)];
    StatesUnchanged(ms);
    StatesAppend(ms, mv);
  }

  class CommandList {
    var arr: seq<Entry>
    var previousPosition: Vector3d

    /** The movements of the list. */
    function Movements(): seq<Movement>
      reads this
    {
      MovementsOf(arr)
    }

    ghost predicate Valid()
      reads this, Footprint(Movements())
    {
      PathList(arr, Movements(), States(Movements()), previousPosition)
    }

    /** `NewCommandList`: an empty list whose path ends at the origin. */
    constructor()
      ensures arr == [] && previousPosition == Origin
      ensures Valid()
    {
      arr := [];
      previousPosition := Origin;
    }

    /**
     * `addMovement`: starts the movement where the path ends, records its
     * end as the new end of the path and appends it.
     */
    method AddMovement(mv: Movement)
      modifies this, mv.Obj()
      ensures arr == old(arr) + [MovementEntry(mv)]
      ensures mv.State() == old(mv.State()).(startPosition := old(previousPosition))
      ensures previousPosition == mv.State().endPosition
      ensures old(Valid()) && mv.Obj() !in old(Footprint(Movements())) ==> Valid()
    {
      ghost var ms := Movements();
      ghost var isNew := mv.Obj() !in Footprint(ms);
      var p := previousPosition;
      previousPosition := mv.State().endPosition;
      arr := arr + [MovementEntry(mv)];
      SetStartPosition(mv, p);
      if old(Valid()) && isNew {
        assert this !in Footprint(ms);
        AddKeepsValid(this);
      }
    }

    /** `GetMovementList`: the movement entries, in insertion order; the list is not changed. */
    method GetMovementList() returns (list: seq<Movement>)
      ensures list == Movements()
      ensures States(list) == old(States(Movements()))
    {
      list := [];
      var k := 0;
      while k < |arr|
        invariant 0 <= k <= |arr|
        invariant list == MovementsOf(arr[..k])
      {
        assert arr[..k + 1][..k] == arr[..k];
        if arr[k].MovementEntry? {
          list := list + [arr[k].movement];
        }
        k := k + 1;
      }
      assert arr[..|arr|] == arr;
    }
  }

  /** A valid list hands all its entries to the planner, on a connected path. */
  lemma ValidListIsPath(c: CommandList)
    requires c.Valid()
    ensures |c.Movements()| == |c.arr| && Distinct(c.Movements())
    ensures Chained(States(c.Movements()), c.previousPosition)
  {
    AllMovements(c.arr);
  }
}
