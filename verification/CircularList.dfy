/** The intrusive circular list: every operation as a change of the sequence of nodes in a ring. */
module CircularList {
  /** A list head or an entry; null stands for the poison a deleted entry is left with. */
  class Node {
    var next: Node?
    var prev: Node?

    constructor ()
      ensures Ring([this])
    {
      next := this;
      prev := this;
    }
  }

  predicate Distinct(c: seq<Node>) {
    forall i, j :: 0 <= i < j < |c| ==> c[i] != c[j]
  }

  ghost predicate Link(a: Node, b: Node)
    reads a, b
  {
    a.next == b && b.prev == a
  }

  /** Neighbours in the sequence point at each other. */
  ghost predicate Chain(c: seq<Node>)
    reads c
  {
    forall i, j :: 0 <= i < j < |c| && j == i + 1 ==> Link(c[i], c[j])
  }

  /** The nodes of a ring in order, from the head on. */
  ghost predicate Ring(c: seq<Node>)
    reads c
  {
    c != [] && Distinct(c) && Chain(c) && Link(c[|c| - 1], c[0])
  }

  predicate Disjoint(a: seq<Node>, b: seq<Node>) {
    forall i, j :: 0 <= i < |a| && 0 <= j < |b| ==> a[i] != b[j]
  }

  /** Both neighbours of position k. */
  lemma Neighbours(c: seq<Node>, k: nat)
    requires Ring(c) && k < |c|
    ensures c[k].next == c[if k + 1 < |c| then k + 1 else 0]
    ensures c[k].prev == c[if k > 0 then k - 1 else |c| - 1]
  {
    if k + 1 < |c| {
      assert Link(c[k], c[k + 1]);
    }
    if k > 0 {
      assert Link(c[k - 1], c[k]);
    }
  }

  /** Three stretches linked in a circle. */
  lemma RingOfThree(x: seq<Node>, y: seq<Node>, z: seq<Node>)
    requires x != [] && y != [] && Distinct(x + y + z) && Chain(x) && Chain(y) && Chain(z)
    requires Link(x[|x| - 1], y[0]) && Link(y[|y| - 1], if z == [] then x[0] else z[0])
    requires z != [] ==> Link(z[|z| - 1], x[0])
    ensures Ring(x + y + z)
  {
    var c := x + y + z;
    forall i, j | 0 <= i < j < |c| && j == i + 1
      ensures Link(c[i], c[j])
    {
      if j < |x| {
        assert Link(x[i], x[j]);
      } else if |x| <= i && j < |x| + |y| {
        assert Link(y[i - |x|], y[j - |x|]);
      } else if |x| + |y| <= i {
        assert Link(z[i - |x| - |y|], z[j - |x| - |y|]);
      }
    }
  }

  /** A head and a stretch of entries linked in a circle. */
  lemma RingOfHead(head: Node, y: seq<Node>)
    requires head !in y && Distinct(y) && Chain(y)
    requires if y == [] then Link(head, head) else Link(head, y[0]) && Link(y[|y| - 1], head)
    ensures Ring([head] + y)
  {
    var c := [head] + y;
    forall i, j | 0 <= i < j < |c| && j == i + 1
      ensures Link(c[i], c[j])
    {
      if i > 0 {
        assert Link(y[i - 1], y[j - 1]);
      }
    }
  }

  lemma DistinctThree(x: seq<Node>, y: seq<Node>, z: seq<Node>)
    requires Distinct(x) && Distinct(y) && Distinct(z) && Disjoint(x, y) && Disjoint(y, z) && Disjoint(x, z)
    ensures Distinct(x + y + z)
  {
  }

  function Without(c: seq<Node>, k: nat): seq<Node>
    requires k < |c|
  {
    c[..k] + c[k + 1..]
  }

  method InitHead(list: Node)
    modifies list
    ensures Ring([list])
  {
    list.next := list;
    list.prev := list;
  }

  method IsEmpty(head: Node, ghost c: seq<Node>) returns (empty: bool)
    requires Ring(c) && c[0] == head
    ensures empty <==> |c| == 1
  {
    Neighbours(c, 0);
    empty := head.next == head;
  }

  /** Insert between position k of a ring and the next one. */
  method Insert(entry: Node, before: Node, after: Node, ghost c: seq<Node>, ghost k: nat)
    requires Ring(c) && k < |c| && before == c[k] && after == c[if k + 1 < |c| then k + 1 else 0] && entry !in c
    modifies entry, before, after
    ensures Ring(c[..k + 1] + [entry] + c[k + 1..])
  {
    after.prev := entry;
    entry.next := after;
    entry.prev := before;
    before.next := entry;
    ghost var x, z := c[..k + 1], c[k + 1..];
    DistinctThree(x, [entry], z);
    assert Chain(x) && Chain(z);
    RingOfThree(x, [entry], z);
  }

  /** Behind the head. */
  method Add(entry: Node, head: Node, ghost c: seq<Node>)
    requires Ring(c) && c[0] == head && entry !in c
    modifies entry, c
    ensures Ring([head, entry] + c[1..])
  {
    Neighbours(c, 0);
    Insert(entry, head, head.next, c, 0);
    assert c[..1] + [entry] + c[1..] == [head, entry] + c[1..];
  }

  /** Before the head, at the end of the list. */
  method AddTail(entry: Node, head: Node, ghost c: seq<Node>)
    requires Ring(c) && c[0] == head && entry !in c
    modifies entry, c
    ensures Ring(c + [entry])
  {
    Neighbours(c, 0);
    Insert(entry, head.prev, head, c, |c| - 1);
    assert c[..|c|] + [entry] + c[|c|..] == c + [entry];
  }

  /** Take position k out of a ring. */
  method Unlink(before: Node, after: Node, ghost c: seq<Node>, ghost k: nat)
    requires Ring(c) && 0 < k < |c| && before == c[k - 1] && after == c[if k + 1 < |c| then k + 1 else 0]
    modifies before, after
    ensures Ring(Without(c, k))
  {
    after.prev := before;
    before.next := after;
  }

  method Delete(entry: Node, ghost c: seq<Node>, ghost k: nat)
    requires Ring(c) && 0 < k < |c| && entry == c[k]
    modifies c
    ensures Ring(Without(c, k)) && entry.next == null && entry.prev == null
  {
    Neighbours(c, k);
    Unlink(entry.prev, entry.next, c, k);
    entry.next := null;
    entry.prev := null;
  }

  method DeleteInit(entry: Node, ghost c: seq<Node>, ghost k: nat)
    requires Ring(c) && 0 < k < |c| && entry == c[k]
    modifies c
    ensures Ring(Without(c, k)) && Ring([entry])
  {
    Neighbours(c, k);
    Unlink(entry.prev, entry.next, c, k);
    InitHead(entry);
  }

  /** Move an entry behind the head of its own list. */
  method Move(entry: Node, head: Node, ghost c: seq<Node>, ghost k: nat)
    requires Ring(c) && 0 < k < |c| && entry == c[k] && head == c[0]
    modifies c
    ensures Ring([head, entry] + Without(c, k)[1..])
  {
    Neighbours(c, k);
    Unlink(entry.prev, entry.next, c, k);
    Add(entry, head, Without(c, k));
  }

  /** Move an entry behind the head of another list. */
  method MoveAcross(entry: Node, head: Node, ghost c: seq<Node>, ghost k: nat, ghost d: seq<Node>)
    requires Ring(c) && 0 < k < |c| && entry == c[k] && Ring(d) && head == d[0] && Disjoint(c, d)
    modifies c, d
    ensures Ring(Without(c, k)) && Ring([head, entry] + d[1..])
  {
    Neighbours(c, k);
    Unlink(entry.prev, entry.next, c, k);
    Add(entry, head, d);
  }

  /** Move an entry to the end of its own list. */
  method MoveTail(entry: Node, head: Node, ghost c: seq<Node>, ghost k: nat)
    requires Ring(c) && 0 < k < |c| && entry == c[k] && head == c[0]
    modifies c
    ensures Ring(Without(c, k) + [entry])
  {
    Neighbours(c, k);
    Unlink(entry.prev, entry.next, c, k);
    AddTail(entry, head, Without(c, k));
  }

  /** Move an entry to the end of another list. */
  method MoveTailAcross(entry: Node, head: Node, ghost c: seq<Node>, ghost k: nat, ghost d: seq<Node>)
    requires Ring(c) && 0 < k < |c| && entry == c[k] && Ring(d) && head == d[0] && Disjoint(c, d)
    modifies c, d
    ensures Ring(Without(c, k)) && Ring(d + [entry])
  {
    Neighbours(c, k);
    Unlink(entry.prev, entry.next, c, k);
    AddTail(entry, head, d);
  }

  function RotatedLeft(c: seq<Node>): seq<Node>
    requires c != []
  {
    if |c| == 1 then c else [c[0]] + c[2..] + [c[1]]
  }

  method RotateLeft(head: Node, ghost c: seq<Node>)
    requires Ring(c) && head == c[0]
    modifies c
    ensures Ring(RotatedLeft(c))
  {
    var empty := IsEmpty(head, c);
    if !empty {
      Neighbours(c, 0);
      MoveTail(head.next, head, c, 1);
      assert Without(c, 1) + [c[1]] == RotatedLeft(c);
    }
  }

  /** Put the entries of list a between position k of a ring and the next one. */
  method Join(list: Node, before: Node, after: Node, ghost a: seq<Node>, ghost c: seq<Node>, ghost k: nat)
    requires Ring(a) && |a| > 1 && list == a[0] && Ring(c) && Disjoint(a, c)
    requires k < |c| && before == c[k] && after == c[if k + 1 < |c| then k + 1 else 0]
    modifies a, before, after
    ensures Ring(c[..k + 1] + a[1..] + c[k + 1..])
    ensures list.next == old(list.next) && list.prev == old(list.prev)
  {
    Neighbours(a, 0);
    var first, last := list.next, list.prev;
    first.prev := before;
    before.next := first;
    last.next := after;
    after.prev := last;
    ghost var x, y, z := c[..k + 1], a[1..], c[k + 1..];
    DistinctThree(x, y, z);
    assert Chain(x) && Chain(y) && Chain(z);
    RingOfThree(x, y, z);
  }

  /** Put the entries of one list behind the head of another. */
  method Splice(list: Node, head: Node, ghost a: seq<Node>, ghost c: seq<Node>)
    requires Ring(a) && list == a[0] && Ring(c) && head == c[0] && Disjoint(a, c)
    modifies a, c
    ensures Ring([head] + a[1..] + c[1..])
  {
    var empty := IsEmpty(list, a);
    if !empty {
      Neighbours(c, 0);
      Join(list, head, head.next, a, c, 0);
      assert c[..1] + a[1..] + c[1..] == [head] + a[1..] + c[1..];
    } else {
      assert [head] + a[1..] + c[1..] == c;
    }
  }

  method SpliceTail(list: Node, head: Node, ghost a: seq<Node>, ghost c: seq<Node>)
    requires Ring(a) && list == a[0] && Ring(c) && head == c[0] && Disjoint(a, c)
    modifies a, c
    ensures Ring(c + a[1..])
  {
    var empty := IsEmpty(list, a);
    if !empty {
      Neighbours(c, 0);
      Join(list, head.prev, head, a, c, |c| - 1);
      assert c[..|c|] + a[1..] + c[|c|..] == c + a[1..];
    } else {
      assert c + a[1..] == c;
    }
  }

  /** The emptied list is made a list again. */
  method SpliceInit(list: Node, head: Node, ghost a: seq<Node>, ghost c: seq<Node>)
    requires Ring(a) && list == a[0] && Ring(c) && head == c[0] && Disjoint(a, c)
    modifies a, c
    ensures Ring([head] + a[1..] + c[1..]) && Ring([list])
  {
    Splice(list, head, a, c);
    InitHead(list);
  }

  /** Cut the entries up to position k off a ring, into a list of their own. */
  method Cut(list: Node, head: Node, entry: Node, ghost c: seq<Node>, ghost k: nat)
    requires Ring(c) && 0 < k < |c| && head == c[0] && entry == c[k] && list !in c
    modifies list, c
    ensures Ring([list] + c[1..k + 1]) && Ring([head] + c[k + 1..])
  {
    Neighbours(c, 0);
    Neighbours(c, k);
    var newFirst, first := entry.next, head.next;
    list.next := first;
    first.prev := list;
    list.prev := entry;
    entry.next := list;
    head.next := newFirst;
    newFirst.prev := head;
    ghost var y, z := c[1..k + 1], c[k + 1..];
    assert Chain(y) && Chain(z);
    RingOfHead(list, y);
    RingOfHead(head, z);
  }

  /** Cutting an empty list does nothing, not even to the list that should receive the entries. */
  method CutPosition(list: Node, head: Node, entry: Node, ghost c: seq<Node>, ghost k: nat)
    requires Ring(c) && k < |c| && head == c[0] && entry == c[k] && list !in c
    modifies list, c
    ensures Ring([head] + c[k + 1..])
    ensures |c| > 1 ==> Ring([list] + c[1..k + 1])
    ensures |c| == 1 ==> list.next == old(list.next) && list.prev == old(list.prev)
  {
    var empty := IsEmpty(head, c);
    if empty {
      assert [head] + c[1..] == c;
      return;
    }
    Neighbours(c, 0);
    var singular := head.next == head.prev;
    if singular && head.next != entry && head != entry {
      assert false;
    }
    if entry == head {
      assert k == 0 && [list] + c[1..1] == [list] && [head] + c[1..] == c;
      InitHead(list);
    } else {
      Cut(list, head, entry, c, k);
    }
  }

  lemma PiecesApart(list: Node, c: seq<Node>, k: nat)
    requires Distinct(c) && k < |c| && list !in c
    ensures Disjoint([list] + c[1..k + 1], [c[0]] + c[k + 1..])
    ensures forall n :: n in [list] + c[1..k + 1] || n in [c[0]] + c[k + 1..] ==> n == list || n in c
  {
  }

  lemma PiecesJoin(list: Node, c: seq<Node>, k: nat)
    requires k < |c|
    ensures [c[0]] + ([list] + c[1..k + 1])[1..] + ([c[0]] + c[k + 1..])[1..] == c
  {
  }

  /** Splicing back what was cut off restores the ring. */
  method CutThenSplice(list: Node, head: Node, entry: Node, ghost c: seq<Node>, ghost k: nat)
    requires Ring(c) && k < |c| && |c| > 1 && head == c[0] && entry == c[k] && list !in c
    modifies list, c
    ensures Ring(c) && Ring([list])
  {
    CutPosition(list, head, entry, c, k);
    ghost var a, rest := [list] + c[1..k + 1], [head] + c[k + 1..];
    PiecesApart(list, c, k);
    PiecesJoin(list, c, k);
    SpliceInit(list, head, a, rest);
  }
}
