/** Value and container types shared by the game (structures.py). */
module Structures {

  /** A board cell or a movement delta: an integer pair compared and combined
      component by component. Being a datatype, every operation below returns
      a fresh value and leaves its operands alone. */
  datatype Position = Position(x: int, y: int)

  /** `__eq__`: the two coordinates agree. It coincides with Dafny's own
      equality on positions, so `p in s` on a sequence of positions means the
      same as Python's `in`, which compares with `__eq__`. */
  function Equals(a: Position, b: Position): (r: bool)
    ensures r <==> a == b
  {
    a.x == b.x && a.y == b.y
  }

  /** `__add__`: the result lies `b` away from `a`, and `a` away from `b`. */
  function Add(a: Position, b: Position): (r: Position)
    ensures Position(r.x - a.x, r.y - a.y) == b
    ensures Position(r.x - b.x, r.y - b.y) == a
  {
    Position(a.x + b.x, a.y + b.y)
  }

  /** `__mul__`, and `__rmul__`, which is the same method: `k * p` and `p * k`
      both evaluate to `Scale(p, k)`. */
  function Scale(p: Position, k: int): (r: Position)
    ensures r.x == k * p.x && r.y == k * p.y
    ensures k == 0 ==> r == Position(0, 0)
    ensures k == 1 ==> r == p
  {
    Position(p.x * k, p.y * k)
  }

  /** `__sub__`: add the other operand multiplied by -1. The result is the
      component-wise difference. */
  function Sub(a: Position, b: Position): (r: Position)
    ensures r == Position(a.x - b.x, a.y - b.y)
  {
    Add(a, Scale(b, -1))
  }

  /** The reverse of a delta, written `-1 * d` in the source. */
  function Neg(d: Position): Position
  {
    Scale(d, -1)
  }

  /** Addition does not depend on operand order. */
  lemma AddCommutes(a: Position, b: Position)
    ensures Add(a, b) == Add(b, a)
  {
  }

  /** Subtracting an operand undoes adding it, on either side. */
  lemma AddSubCancel(a: Position, b: Position)
    ensures Sub(Add(a, b), b) == a
    ensures Sub(Add(a, b), a) == b
    ensures Add(Sub(a, b), b) == a
  {
  }

  /** Scalings compose by multiplying the factors and distribute over
      addition. */
  lemma ScaleLaws(p: Position, q: Position, j: int, k: int)
    ensures Scale(Scale(p, j), k) == Scale(p, j * k)
    ensures Scale(Add(p, q), k) == Add(Scale(p, k), Scale(q, k))
  {
    assert p.x * j * k == p.x * (j * k);
    assert p.y * j * k == p.y * (j * k);
  }

  /** Reversing twice gives the delta back, and reversal is injective. */
  lemma NegInvolutive(d: Position, e: Position)
    ensures Neg(Neg(d)) == d
    ensures Neg(d) == Neg(e) <==> d == e
  {
  }

  /** Python's reading of a list index: a negative index counts from the end. */
  function ListIndex(index: int, n: nat): (k: nat)
    requires 0 <= n + index && index < n
    ensures k < n
    ensures 0 <= index ==> k == index
    ensures index < 0 ==> k == n + index
  {
    if index < 0 then n + index else index
  }

  /** Where Python's `list.insert(index, obj)` puts `obj` in a list of length
      `n`: a negative index counts from the end, and an index past either end
      is clamped to that end. */
  function InsertPoint(index: int, n: nat): (k: nat)
    ensures k <= n
    ensures 0 <= index <= n ==> k == index
    ensures n < index ==> k == n
    ensures 0 <= n + index && index < 0 ==> k == n + index
    ensures n + index < 0 ==> k == 0
  {
    if index < 0 then (if n + index < 0 then 0 else n + index)
    else if index > n then n
    else index
  }

  /** The list-backed queue of structures.py: element 0 is the oldest (the
      snake's tail), the last element the newest (its head). */
  class Queue<T> {
    var items: seq<T>

    constructor ()
      ensures items == []
    {
      items := [];
    }

    /** `push`: append at the end. */
    method Push(o: T)
      modifies this
      ensures items == old(items) + [o]
      ensures |items| == |old(items)| + 1
    {
      items := items + [o];
    }

    /** `pop`: remove and return element 0 (`list.pop(0)`, which raises on an
        empty list). */
    method Pop() returns (o: T)
      requires |items| > 0
      modifies this
      ensures o == old(items)[0]
      ensures items == old(items)[1..]
    {
      o := items[0];
      items := items[1..];
    }

    /** `peek`: the element at `index`, read as Python reads list indices;
        any other index raises. The queue is not changed. */
    method Peek(index: int) returns (o: T)
      requires 0 <= |items| + index && index < |items|
      ensures 0 <= index ==> o == items[index]
      ensures index < 0 ==> o == items[|items| + index]
    {
      o := items[ListIndex(index, |items|)];
    }

    /** `insert`: `list.insert(index, obj)`. */
    method Insert(index: int, o: T)
      modifies this
      ensures var k := InsertPoint(index, |old(items)|);
              items == old(items)[..k] + [o] + old(items)[k..]
      ensures |items| == |old(items)| + 1
    {
      var k := InsertPoint(index, |items|);
      items := items[..k] + [o] + items[k..];
    }
  }
}
