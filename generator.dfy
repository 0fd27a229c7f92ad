/**
 * The new engine's process generator: a rectangle on screen and a counter
 * that hands out consecutive process ids starting at 1.  Its geometry is a
 * constructor parameter: the program computes it with
 * `GridHelper.grid_to_pixels`, which utils/grid_helper.py does not define.
 */
module Generators {
  import opened Wrappers
  import opened Config
  import opened ProcessStates
  import opened Processes

  /** The ids `1, 2, ..., |s|` in order. */
  ghost predicate ConsecutiveFromOne(s: seq<int>)
  {
    forall i :: 0 <= i < |s| ==> s[i] == i + 1
  }

  /** Ids handed out consecutively from one are strictly increasing, hence never repeated. */
  lemma ConsecutiveIdsIncrease(s: seq<int>)
    requires ConsecutiveFromOne(s)
    ensures forall i, j :: 0 <= i < j < |s| ==> s[i] < s[j]
    ensures forall i, j :: 0 <= i < |s| && 0 <= j < |s| && i != j ==> s[i] != s[j]
  {
  }

  class ProcessGenerator {
    const x: int
    const y: int
    const width: int
    const height: int
    const color: Rgb
    var nextProcessId: int
    /** The ids handed out so far, oldest first. */
    ghost var issued: seq<int>

    ghost predicate Valid()
      reads this
    {
      ConsecutiveFromOne(issued) && nextProcessId == |issued| + 1
    }

    constructor (px: int, py: int, w: int, h: int)
      ensures Valid()
      ensures x == px && y == py && width == w && height == h && color == Green
      ensures nextProcessId == 1 && issued == []
    {
      x, y, width, height := px, py, w, h;
      color := Green;
      nextProcessId := 1;
      issued := [];
    }

    /**
     * The closed rectangle [x, x + width] x [y, y + height] contains the
     * point: its corners count as hits, nothing outside its bounds does.
     */
    function IsClicked(px: int, py: int): (b: bool)
      ensures width >= 0 && height >= 0 && (px == x || px == x + width) && (py == y || py == y + height) ==> b
      ensures px < x || x + width < px || py < y || y + height < py ==> !b
    {
      x <= px <= x + width && y <= py <= y + height
    }

    /** The centre, by floor division of the size; it lies on the generator for a non-negative size. */
    function GetCenter(): (c: (int, int))
      ensures width >= 0 && height >= 0 ==> IsClicked(c.0, c.1)
    {
      (x + width / 2, y + height / 2)
    }

    /**
     * Creates a process at the centre, in state CREATED, with the next id,
     * and advances the counter by one.  The id differs from every id handed
     * out before.
     */
    method CreateProcess(now: int) returns (p: Process)
      requires Valid()
      modifies this
      ensures Valid()
      ensures fresh(p)
      ensures p.id == old(nextProcessId) && nextProcessId == old(nextProcessId) + 1
      ensures issued == old(issued) + [p.id]
      ensures forall i :: 0 <= i < |old(issued)| ==> old(issued)[i] < p.id
      ensures forall i, j :: 0 <= i < |issued| && 0 <= j < |issued| && i != j ==> issued[i] != issued[j]
      ensures (p.x, p.y) == GetCenter()
      ensures p.state == Created && p.isActive && p.Valid()
      ensures p.processingStartTime == None && p.queueEntryTime == None
    {
      var center := GetCenter();
      p := new Process(nextProcessId, center.0, center.1, now);
      issued := issued + [nextProcessId];
      nextProcessId := nextProcessId + 1;
      ConsecutiveIdsIncrease(issued);
    }
  }
}
