/** One cache set as a sequence of lines, the most recently touched first. */
module LruSpec {
  import opened Basics

  datatype Line = Line(tag: nat, offset: nat, setid: nat, nodeId: int, dirty: bool)

  // Position of a tag, or the length of the set.
  function Find(lines: seq<Line>, tag: nat): (i: nat)
    ensures i <= |lines|
    ensures forall j :: 0 <= j < i ==> lines[j].tag != tag
    ensures i < |lines| ==> lines[i].tag == tag
  {
    if lines == [] || lines[0].tag == tag then 0 else 1 + Find(lines[1..], tag)
  }

  predicate Present(lines: seq<Line>, tag: nat) { Find(lines, tag) < |lines| }

  // A hit brings the line to the front; a store makes it dirty and nothing makes it clean again.
  function Touched(line: Line, offset: nat, nodeId: int, isLoad: bool): Line
  {
    line.(offset := offset, nodeId := nodeId, dirty := line.dirty || !isLoad)
  }

  function AfterAccess(lines: seq<Line>, tag: nat, offset: nat, nodeId: int, isLoad: bool): seq<Line>
  {
    var i := Find(lines, tag);
    if i == |lines| then lines else [Touched(lines[i], offset, nodeId, isLoad)] + RemoveAt(lines, i)
  }

  // What an insertion leaves of the set: all but the last line of a full one.
  function Kept(lines: seq<Line>, ways: nat): (kept: seq<Line>)
    requires 1 <= ways && |lines| <= ways
  {
    if |lines| == ways then lines[..ways - 1] else lines
  }

  function AfterInsert(lines: seq<Line>, ways: nat, line: Line): seq<Line>
    requires 1 <= ways && |lines| <= ways
  {
    [line] + Kept(lines, ways)
  }

  function Evicted(lines: seq<Line>, ways: nat): Option<Line>
    requires 1 <= ways && |lines| <= ways
  {
    if |lines| == ways then Some(lines[ways - 1]) else None
  }

  function AfterRemove(lines: seq<Line>, tag: nat): seq<Line>
  {
    var i := Find(lines, tag);
    if i == |lines| then lines else RemoveAt(lines, i)
  }

  ghost predicate OneLinePerTag(lines: seq<Line>)
  {
    forall i, j :: 0 <= i < j < |lines| ==> lines[i].tag != lines[j].tag
  }

  lemma FoundAt(lines: seq<Line>, i: nat)
    requires OneLinePerTag(lines) && i < |lines|
    ensures Find(lines, lines[i].tag) == i
  {
    var f := Find(lines, lines[i].tag);
    assert f <= i;
  }
}
