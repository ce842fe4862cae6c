/**
 * A scene-graph node's child list and `replaceChildren`, which empties a
 * node and refills it with two count-down loops.
 *
 * The node is THREE.Object3D, of which only `children` is modelled; its
 * elements are library objects, kept abstract as values of a type T.
 * `add` appends to `children`; `remove` takes out the first occurrence of
 * the object and does nothing when it is absent (indexOf then splice).
 */
module SceneGraph {

  /** s in reverse order: what appending s's elements from the last to the first builds. */
  function Reverse<T>(s: seq<T>): (r: seq<T>)
    ensures |r| == |s|
  {
    if s == [] then [] else Reverse(s[1..]) + [s[0]]
  }

  /** Element k of the reversal is element |s| - 1 - k of s. */
  lemma {:induction false} ReverseAt<T>(s: seq<T>, k: nat)
    requires k < |s|
    ensures Reverse(s)[k] == s[|s| - 1 - k]
  {
    if k == |s| - 1 {
      assert Reverse(s)[k] == s[0];
    } else {
      ReverseAt(s[1..], k);
      assert Reverse(s)[k] == Reverse(s[1..])[k];
    }
  }

  /** The reversal holds exactly the same elements, with the same multiplicities. */
  lemma {:induction false} ReversePermutes<T>(s: seq<T>)
    ensures multiset(Reverse(s)) == multiset(s)
    ensures forall x :: x in Reverse(s) <==> x in s
  {
    if s != [] {
      ReversePermutes(s[1..]);
      assert s == [s[0]] + s[1..];
    }
    assert forall x :: x in Reverse(s) <==> x in multiset(Reverse(s));
  }

  /** `indexOf`: the position of the first occurrence of x in s. */
  function IndexOf<T(==)>(s: seq<T>, x: T): (k: nat)
    requires x in s
    ensures k < |s| && s[k] == x
    ensures x !in s[..k]
  {
    if s[0] == x then 0
    else
      assert s == [s[0]] + s[1..];
      var k := IndexOf(s[1..], x);
      assert s[..k + 1] == [s[0]] + s[1..][..k];
      k + 1
  }

  /** Cutting s around position k leaves one fewer element and one fewer s[k]. */
  lemma CutCounts<T>(s: seq<T>, k: nat)
    requires k < |s|
    ensures multiset(s[..k] + s[k + 1..]) == multiset(s) - multiset{s[k]}
  {
    assert s == s[..k] + [s[k]] + s[k + 1..];
  }

  /**
   * `children.splice(children.indexOf(x), 1)`, skipped when x is absent:
   * the first x is taken out and everything else is kept, in order.
   */
  function RemoveFirst<T(==)>(s: seq<T>, x: T): (r: seq<T>)
    ensures x !in s ==> r == s
    ensures x in s ==> exists k :: 0 <= k < |s| && s[k] == x && x !in s[..k] && r == s[..k] + s[k + 1..]
    ensures x in s ==> |r| == |s| - 1
    ensures multiset(r) == multiset(s) - multiset{x}
  {
    if x in s then
      var k := IndexOf(s, x);
      CutCounts(s, k);
      s[..k] + s[k + 1..]
    else
      assert multiset(s)[x] == 0;
      s
  }

  /** A THREE.Object3D, reduced to its list of children. */
  class Object3D<T(==)> {
    var children: seq<T>

    /** `new THREE.Object3D()`: no children. */
    constructor ()
      ensures children == []
    {
      children := [];
    }

    /** `object.add(child)`. */
    method Add(child: T)
      modifies this
      ensures children == old(children) + [child]
    {
      children := children + [child];
    }

    /** `object.remove(child)`. */
    method Remove(child: T)
      modifies this
      ensures children == RemoveFirst(old(children), child)
    {
      children := RemoveFirst(children, child);
    }
  }

  /**
   * `replaceChildren(object, newChildren)`. The first loop removes the last
   * child until none is left; the second adds newChildren from the last to
   * the first, so the node ends up holding newChildren reversed.
   */
  method ReplaceChildren<T(==)>(node: Object3D<T>, newChildren: seq<T>)
    modifies node
    ensures node.children == Reverse(newChildren)
    ensures |node.children| == |newChildren|
    ensures multiset(node.children) == multiset(newChildren)
    ensures forall c :: c in node.children ==> c in newChildren
  {
    var i := |node.children|;
    while i > 0
      invariant i == |node.children|
      decreases i
    {
      i := i - 1;
      node.Remove(node.children[i]);
    }
    assert node.children == [];

    i := |newChildren|;
    while i > 0
      invariant 0 <= i <= |newChildren|
      invariant node.children == Reverse(newChildren[i..])
      decreases i
    {
      i := i - 1;
      assert newChildren[i..][1..] == newChildren[i + 1..];
      node.Add(newChildren[i]);
    }
    assert newChildren[0..] == newChildren;
    ReversePermutes(newChildren);
  }
}
