/** The cache set object: a doubly linked list of lines between two sentinels, a map and a free list. */
module CacheSetObject {
  import opened Basics
  import opened LruSpec

  class CacheLine {
    var addr: nat
    var offset: nat
    var setid: nat
    var nodeId: int
    var dirty: bool
    var next: CacheLine?
    var prev: CacheLine?

    constructor ()
    {
      addr, offset, setid, nodeId, dirty := 0, 0, 0, 0, false;
      next, prev := null, null;
    }

    ghost function Value(): Line
      reads this
    {
      Line(addr, offset, setid, nodeId, dirty)
    }
  }

  // Neighbours in the chain point at each other.
  ghost predicate Linked(chain: seq<CacheLine>)
    reads chain
  {
    forall i, j :: 0 <= i && j == i + 1 && j < |chain| ==> chain[i].next == chain[j] && chain[j].prev == chain[i]
  }

  // The lines behind a list of entries, given what each entry holds.
  ghost function Image(held: map<CacheLine, Line>, list: seq<CacheLine>): (r: seq<Line>)
    requires forall c :: c in list ==> c in held
    ensures |r| == |list| && forall i :: 0 <= i < |list| ==> r[i] == held[list[i]]
  {
    seq(|list|, i requires 0 <= i < |list| => held[list[i]])
  }

  lemma ImageMoved(held: map<CacheLine, Line>, list: seq<CacheLine>, i: nat)
    requires i < |list| && forall c :: c in list ==> c in held
    ensures forall c :: c in RemoveAt(list, i) ==> c in held
    ensures Image(held, RemoveAt(list, i)) == RemoveAt(Image(held, list), i)
    ensures Image(held, [list[i]] + RemoveAt(list, i)) == [held[list[i]]] + RemoveAt(Image(held, list), i)
  {
  }

  lemma ImageUpdated(held: map<CacheLine, Line>, list: seq<CacheLine>, c: CacheLine, line: Line)
    requires c !in list && forall x :: x in list ==> x in held
    ensures Image(held[c := line], [c] + list) == [line] + Image(held, list)
  {
  }

  // The chain without the line at position i, and with a line put first.
  lemma ChainShortened(head: CacheLine, list: seq<CacheLine>, tail: CacheLine, i: nat)
    requires Distinct(list) && head !in list && tail !in list && head != tail && i < |list|
    ensures var chain, after := [head] + list + [tail], [head] + RemoveAt(list, i) + [tail];
            && Distinct(chain) && |after| == |chain| - 1
            && forall k :: 0 <= k < |after| ==> after[k] == if k <= i then chain[k] else chain[k + 1]
  {
  }

  lemma ChainExtended(head: CacheLine, list: seq<CacheLine>, tail: CacheLine, c: CacheLine)
    requires Distinct(list) && head !in list && tail !in list && head != tail
    ensures var chain, after := [head] + list + [tail], [head] + ([c] + list) + [tail];
            && Distinct(chain) && |after| == |chain| + 1
            && forall k :: 0 <= k < |after| ==> after[k] == if k == 0 then head else if k == 1 then c else chain[k - 1]
  {
  }

  class CacheSet {
    const associativity: nat
    const entries: seq<CacheLine>
    const head: CacheLine
    const tail: CacheLine
    var addr_map: map<nat, CacheLine>
    var freeEntries: seq<CacheLine>
    ghost var used: seq<CacheLine>  // the list between the sentinels

    ghost predicate Members()
      reads this
    {
      && |entries| == associativity >= 1 && Distinct(entries)
      && head !in entries && tail !in entries && head != tail
      && Distinct(used) && Distinct(freeEntries)
      && (forall c :: c in used ==> c in entries && c !in freeEntries)
      && (forall c :: c in freeEntries ==> c in entries)
    }

    // The list, the map and the free list partition the entries, and the map finds each listed line by its tag.
    ghost predicate Valid()
      reads this, entries, used, head, tail
    {
      Members() && |used| + |freeEntries| == associativity && Linked([head] + used + [tail]) && Mapped()
    }

    ghost predicate Mapped()
      reads this, used
    {
      && (forall c :: c in used ==> c.addr in addr_map && addr_map[c.addr] == c)
      && (forall a :: a in addr_map ==> addr_map[a] in used && addr_map[a].addr == a)
    }

    ghost function Held(): (m: map<CacheLine, Line>)
      reads this, entries
    {
      map c | c in entries :: c.Value()
    }

    ghost function Lines(): seq<Line>
      requires Members()
      reads this, entries
    {
      Image(Held(), used)
    }

    constructor (size: nat)
      requires size >= 1
      ensures Valid() && associativity == size && Lines() == []
      ensures fresh(entries) && fresh(head) && fresh(tail)
    {
      associativity := size;
      var all: seq<CacheLine> := [];
      for i := 0 to size
        invariant |all| == i && Distinct(all) && fresh(all)
      {
        var c := new CacheLine();
        all := all + [c];
      }
      var h := new CacheLine();
      var t := new CacheLine();
      h.next := t;
      t.prev := h;
      entries, freeEntries, used, addr_map := all, all, [], map[];
      head, tail := h, t;
    }

    ghost function Chain(): seq<CacheLine>
      reads this
    {
      [head] + used + [tail]
    }

    // Unlinking the line at position i of the list.
    method DeleteNode(c: CacheLine, ghost i: nat)
      requires Members() && Linked(Chain()) && i < |used| && used[i] == c
      modifies entries, head, tail, this`used
      ensures used == RemoveAt(old(used), i) && c !in used && Members() && Linked(Chain())
      ensures Held() == old(Held())
    {
      ghost var chain := Chain();
      ChainShortened(head, used, tail, i);
      assert chain[i + 1] == c;
      var p, n := c.prev, c.next;
      assert p == chain[i] && n == chain[i + 2];
      assert p == head || (p == used[i - 1] && p in used);
      assert n == tail || (n == used[i + 1] && n in used);
      p.next := n;
      n.prev := p;
      used := RemoveAt(used, i);
      ghost var after := Chain();
      forall j, k | 0 <= j && k == j + 1 && k < |after| ensures after[j].next == after[k] && after[k].prev == after[j] {
        if j < i {
          assert after[j] == chain[j] && after[k] == chain[k];
        } else if j > i {
          assert after[j] == chain[j + 1] && after[k] == chain[k + 1];
        }
      }
    }

    // Linking a line that is not in the list directly behind the head.
    method InsertFront(c: CacheLine)
      requires Members() && Linked(Chain()) && c in entries && c !in used && c !in freeEntries
      modifies entries, head, tail, this`used
      ensures used == [c] + old(used) && Members() && Linked(Chain())
      ensures Held() == old(Held())
    {
      ghost var chain := Chain();
      ChainExtended(head, used, tail, c);
      var n := head.next;
      assert chain[0] == head && n == chain[1];
      assert n == tail || (n == used[0] && n in used);
      c.next := n;
      c.prev := head;
      head.next := c;
      n.prev := c;
      used := [c] + used;
    }

    lemma TagsListed()
      requires Members() && Mapped()
      ensures forall a :: a in addr_map <==> Present(Lines(), a)
    {
      forall a ensures a in addr_map <==> Present(Lines(), a) {
        if a in addr_map {
          var i: nat :| i < |used| && used[i] == addr_map[a];
          assert Lines()[i].tag == a;
        }
        assert Present(Lines(), a) ==> used[Find(Lines(), a)] in used;
      }
    }

    lemma LinesAreUnique()
      requires Valid()
      ensures OneLinePerTag(Lines()) && |Lines()| <= associativity
      ensures forall a :: a in addr_map <==> Present(Lines(), a)
      ensures forall i :: 0 <= i < |used| ==> Find(Lines(), used[i].addr) == i
    {
      forall i, j | 0 <= i < j < |used| ensures Lines()[i].tag != Lines()[j].tag {
        assert used[i] in used && used[j] in used;
      }
      TagsListed();
      forall i | 0 <= i < |used| ensures Find(Lines(), used[i].addr) == i { FoundAt(Lines(), i); }
    }

    method IsPresent(address: nat) returns (yes: bool)
      requires Valid()
      ensures yes == Present(Lines(), address)
    {
      LinesAreUnique();
      yes := address in addr_map;
    }

    method MoveToFront(c: CacheLine, ghost i: nat)
      requires Members() && Linked(Chain()) && i < |used| && used[i] == c
      modifies entries, head, tail, this`used
      ensures used == [c] + RemoveAt(old(used), i) && Members() && Linked(Chain())
      ensures Held() == old(Held())
    {
      DeleteNode(c, i);
      InsertFront(c);
    }

    // The fields a hit overwrites.
    method Refresh(c: CacheLine, offset: nat, nodeId: int, isLoad: bool)
      requires c in entries && Linked(Chain())
      modifies c`dirty, c`offset, c`nodeId
      ensures Held() == old(Held())[c := Touched(old(Held())[c], offset, nodeId, isLoad)]
      ensures Linked(Chain())
    {
      if !isLoad { c.dirty := true; }
      c.offset := offset;
      c.nodeId := nodeId;
    }

    // The map still finds the lines when the list holds the same lines in another order.
    twostate lemma StillMapped()
      requires old(Valid()) && addr_map == old(addr_map) && forall c :: c in used <==> c in old(used)
      requires Held().Keys == old(Held()).Keys && forall x :: x in Held() ==> Held()[x].tag == old(Held())[x].tag
      ensures Mapped()
    {
      forall c | c in entries ensures c.addr == old(c.addr) { assert Held()[c].tag == old(Held())[c].tag; }
    }

    method Access(address: nat, offset: nat, nodeId: int, isLoad: bool) returns (hit: bool)
      requires Valid()
      modifies this, entries, head, tail
      ensures Valid() && hit == Present(old(Lines()), address)
      ensures Lines() == AfterAccess(old(Lines()), address, offset, nodeId, isLoad)
    {
      LinesAreUnique();
      hit := address in addr_map;
      if hit { Hit(addr_map[address], Find(Lines(), address), offset, nodeId, isLoad); }
    }

    method Hit(c: CacheLine, ghost i: nat, offset: nat, nodeId: int, isLoad: bool)
      requires Valid() && i < |used| && used[i] == c
      modifies this`used, entries, head, tail
      ensures Valid() && Lines() == [Touched(old(Lines())[i], offset, nodeId, isLoad)] + RemoveAt(old(Lines()), i)
    {
      assert c in used && c in entries;
      ghost var held, list := Held(), used;
      ImageMoved(held, list, i);
      MoveToFront(c, i);
      Refresh(c, offset, nodeId, isLoad);
      ImageUpdated(held, RemoveAt(list, i), c, Touched(held[c], offset, nodeId, isLoad));
      StillMapped();
    }

    // Taking the line at position i out of the map and the list.
    method Unlist(c: CacheLine, ghost i: nat)
      requires Members() && Linked(Chain()) && Mapped() && i < |used| && used[i] == c
      modifies this`addr_map, this`used, entries, head, tail
      ensures Members() && Linked(Chain()) && Mapped() && Held() == old(Held())
      ensures used == RemoveAt(old(used), i) && c in entries && c !in used && c !in freeEntries
      ensures Lines() == RemoveAt(old(Lines()), i)
    {
      assert c in used;
      ImageMoved(Held(), used, i);
      DroppedMembers(used, i);
      addr_map := addr_map - {c.addr};
      DeleteNode(c, i);
      SameTags();
    }

    method Invalidate(address: nat) returns (dirty: bool)
      requires Valid() && Present(Lines(), address)
      modifies this, entries, head, tail
      ensures Valid() && dirty == old(Lines())[Find(old(Lines()), address)].dirty
      ensures Lines() == AfterRemove(old(Lines()), address)
    {
      LinesAreUnique();
      var c := addr_map[address];
      dirty := Release(c, Find(Lines(), address));
    }

    // A line given back to the free list.
    method Release(c: CacheLine, ghost i: nat) returns (dirty: bool)
      requires Valid() && i < |used| && used[i] == c
      modifies this`addr_map, this`used, this`freeEntries, entries, head, tail
      ensures Valid() && Held() == old(Held()) && c in entries && dirty == old(Lines())[i].dirty
      ensures Lines() == RemoveAt(old(Lines()), i)
    {
      Unlist(c, i);
      freeEntries := freeEntries + [c];
      assert Held()[c] == old(Held())[c];
      dirty := c.dirty;
    }

    // `evict`: the line's offset and node when it was there, and whether it was dirty.
    method Evict(address: nat) returns (dirty: bool, evicted: Option<Line>)
      requires Valid()
      modifies this, entries, head, tail
      ensures Valid() && Lines() == AfterRemove(old(Lines()), address)
      ensures evicted == if Present(old(Lines()), address) then Some(old(Lines())[Find(old(Lines()), address)])
        else None
      ensures dirty == (evicted.Some? && evicted.value.dirty)
    {
      LinesAreUnique();
      dirty, evicted := false, None;
      if address in addr_map {
        var c := addr_map[address];
        dirty := Release(c, Find(Lines(), address));
        assert c.Value() == Held()[c];
        evicted := Some(Line(c.addr, c.offset, c.setid, c.nodeId, c.dirty));
      }
    }

    // A free entry, or the last of the list when there is none.
    method Obtain() returns (c: CacheLine, evicted: Option<Line>)
      requires Valid()
      modifies this`addr_map, this`used, this`freeEntries, entries, head, tail
      ensures Members() && Linked(Chain()) && Mapped() && |used| + |freeEntries| + 1 == associativity
      ensures c in entries && c !in used && c !in freeEntries
      ensures |old(Lines())| <= associativity && evicted == Evicted(old(Lines()), associativity)
      ensures Lines() == Kept(old(Lines()), associativity)
    {
      if |freeEntries| == 0 {
        ghost var last := |used| - 1;
        assert Chain()[last + 1] == used[last] && Chain()[last + 2] == tail;
        c := tail.prev;
        assert c in entries && Held()[c] == Lines()[last];
        evicted := Some(Line(c.addr, c.offset, c.setid, c.nodeId, c.dirty));
        Unlist(c, last);
      } else {
        c := freeEntries[|freeEntries| - 1];
        assert c in freeEntries;
        evicted := None;
        freeEntries := freeEntries[..|freeEntries| - 1];
      }
    }

    // A line of the set's own entries filled and put first.
    method Place(c: CacheLine, line: Line)
      requires Members() && Linked(Chain()) && Mapped() && |used| + |freeEntries| + 1 == associativity
      requires c in entries && c !in used && c !in freeEntries
      modifies this`addr_map, this`used, entries, head, tail
      ensures Members() && Lines() == [line] + old(Lines()) && (Valid() <==> line.tag !in old(addr_map))
    {
      ImageUpdated(Held(), used, c, line);
      Fill(c, line);
      Enlist(c);
    }

    // A filled line put first in the list and into the map.
    method Enlist(c: CacheLine)
      requires Members() && Linked(Chain()) && Mapped() && c in entries && c !in used && c !in freeEntries
      modifies this`addr_map, this`used, entries, head, tail
      ensures Members() && Linked(Chain()) && used == [c] + old(used) && Held() == old(Held())
      ensures Mapped() <==> old(c.addr) !in old(addr_map)
    {
      InsertFront(c);
      SameTags();
      addr_map := addr_map[c.addr := c];
    }

    // The fields an insertion overwrites.
    method Fill(c: CacheLine, line: Line)
      requires c in entries && c !in used && Linked(Chain()) && Mapped()
      modifies c`addr, c`offset, c`setid, c`nodeId, c`dirty
      ensures Held() == old(Held())[c := line] && c.addr == line.tag && Linked(Chain()) && Mapped()
    {
      c.addr, c.offset, c.setid, c.nodeId, c.dirty := line.tag, line.offset, line.setid, line.nodeId, line.dirty;
    }

    twostate lemma SameTags()
      requires Held() == old(Held())
      ensures forall x :: x in entries ==> x.addr == old(x.addr)
    {
      forall x | x in entries ensures x.addr == old(x.addr) { assert Held()[x].tag == old(Held())[x].tag; }
    }

    // `insert`.  The new line replaces the evicted line's fields.  The set is in order again exactly when no
    // line it keeps has the tag: otherwise two lines have it and the map finds one of them.
    method Insert(address: nat, offset: nat, setid: nat, nodeId: int, isLoad: bool) returns (evicted: Option<Line>)
      requires Valid()
      modifies this, entries, head, tail
      ensures Members() && |old(Lines())| <= associativity
      ensures Lines() == AfterInsert(old(Lines()), associativity, Line(address, offset, setid, nodeId, !isLoad))
      ensures evicted == Evicted(old(Lines()), associativity)
      ensures Valid() <==> !Present(Kept(old(Lines()), associativity), address)
    {
      var c;
      c, evicted := Obtain();
      TagsListed();
      Place(c, Line(address, offset, setid, nodeId, !isLoad));
    }
  }

  lemma DroppedMembers(list: seq<CacheLine>, i: nat)
    requires Distinct(list) && i < |list|
    ensures forall c :: c in RemoveAt(list, i) <==> c in list && c != list[i]
  {
    forall c | c in list && c != list[i] ensures c in RemoveAt(list, i) {
      var j: nat :| j < |list| && list[j] == c;
      assert RemoveAt(list, i)[if j < i then j else j - 1] == c;
    }
  }
}
