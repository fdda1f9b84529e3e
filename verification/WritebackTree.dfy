// The search tree fi->writepages of file.c.
//
// A request is named by its first page, which never changes while it is in the
// tree.  Its page range, and so the order of the tree, is read from the table
// of requests, because a range may grow while it is in the tree.  Colours are
// left out; the rotations that rebalance the tree may happen anywhere and in
// any number.
module WritebackTree {

  datatype Tree = Leaf | Node(left: Tree, first: nat, right: Tree)

  function Elems(t: Tree): set<nat> {
    match t
    case Leaf => {}
    case Node(l, x, r) => Elems(l) + {x} + Elems(r)
  }

  ghost predicate Bst(t: Tree) {
    match t
    case Leaf => true
    case Node(l, x, r) => Bst(l) && Bst(r) && (forall k | k in Elems(l) :: k < x) && (forall k | k in Elems(r) :: x < k)
  }

  // rb_link_node at the place where a search for key ends
  function Link(t: Tree, key: nat): Tree {
    match t
    case Leaf => Node(Leaf, key, Leaf)
    case Node(l, x, r) => if key < x then Node(Link(l, key), x, r) else Node(l, x, Link(r, key))
  }

  function Least(t: Tree): nat
    requires t.Node?
  {
    if t.left.Leaf? then t.first else Least(t.left)
  }

  // rb_erase: a node with two children is replaced by its successor.
  function Erase(t: Tree, key: nat): Tree {
    match t
    case Leaf => Leaf
    case Node(l, x, r) =>
      if key < x then Node(Erase(l, key), x, r)
      else if x < key then Node(l, x, Erase(r, key))
      else if l.Leaf? then r
      else if r.Leaf? then l
      else Node(l, Least(r), Erase(r, Least(r)))
  }

  function RotateRight(t: Tree): Tree {
    if t.Node? && t.left.Node? then Node(t.left.left, t.left.first, Node(t.left.right, t.first, t.right)) else t
  }

  function RotateLeft(t: Tree): Tree {
    if t.Node? && t.right.Node? then Node(Node(t.left, t.first, t.right.left), t.right.first, t.right.right) else t
  }

  // Where a rotation happens, and which way
  datatype Rotation = Here(toRight: bool) | InLeft(l: Rotation) | InRight(r: Rotation)

  function Rotate(t: Tree, a: Rotation): Tree {
    match a
    case Here(toRight) => if toRight then RotateRight(t) else RotateLeft(t)
    case InLeft(l) => if t.Leaf? then t else Node(Rotate(t.left, l), t.first, t.right)
    case InRight(r) => if t.Leaf? then t else Node(t.left, t.first, Rotate(t.right, r))
  }

  // What rb_insert_color and rb_erase do to the shape of the tree
  function Rebalance(t: Tree, rotations: seq<Rotation>): Tree
    decreases |rotations|
  {
    if rotations == [] then t else Rebalance(Rotate(t, rotations[0]), rotations[1..])
  }

  lemma RightKeeps(t: Tree)
    requires Bst(t)
    ensures Bst(RotateRight(t)) && Elems(RotateRight(t)) == Elems(t)
  {
    if t.Node? && t.left.Node? {
      var l, x, m, y, r := t.left.left, t.left.first, t.left.right, t.first, t.right;
      assert x in Elems(t.left) && Elems(m) <= Elems(t.left) && Elems(l) <= Elems(t.left);
      assert Bst(Node(m, y, r));
      assert Elems(Node(m, y, r)) == Elems(m) + {y} + Elems(r);
    }
  }

  lemma LeftKeeps(t: Tree)
    requires Bst(t)
    ensures Bst(RotateLeft(t)) && Elems(RotateLeft(t)) == Elems(t)
  {
    if t.Node? && t.right.Node? {
      var l, x, m, y, r := t.left, t.first, t.right.left, t.right.first, t.right.right;
      assert y in Elems(t.right) && Elems(m) <= Elems(t.right) && Elems(r) <= Elems(t.right);
      assert Bst(Node(l, x, m));
      assert Elems(Node(l, x, m)) == Elems(l) + {x} + Elems(m);
    }
  }

  lemma {:induction false} RotationKeeps(t: Tree, a: Rotation)
    requires Bst(t)
    ensures Bst(Rotate(t, a)) && Elems(Rotate(t, a)) == Elems(t)
    decreases a
  {
    match a
    case Here(_) =>
      RightKeeps(t);
      LeftKeeps(t);
    case InLeft(l) =>
      if t.Node? {
        RotationKeeps(t.left, l);
      }
    case InRight(r) =>
      if t.Node? {
        RotationKeeps(t.right, r);
      }
  }

  // Rotations, however many and wherever, keep the elements and their order.
  lemma {:induction false} RebalanceKeeps(t: Tree, rotations: seq<Rotation>)
    requires Bst(t)
    ensures Bst(Rebalance(t, rotations)) && Elems(Rebalance(t, rotations)) == Elems(t)
    decreases |rotations|
  {
    if rotations != [] {
      RotationKeeps(t, rotations[0]);
      RebalanceKeeps(Rotate(t, rotations[0]), rotations[1..]);
    }
  }

  lemma {:induction false} LinkKeeps(t: Tree, key: nat)
    requires Bst(t) && key !in Elems(t)
    ensures Bst(Link(t, key)) && Elems(Link(t, key)) == Elems(t) + {key}
  {
    if t.Node? {
      if key < t.first {
        LinkKeeps(t.left, key);
      } else {
        LinkKeeps(t.right, key);
      }
    }
  }

  lemma {:induction false} LeastIsLeast(t: Tree)
    requires Bst(t) && t.Node?
    ensures Least(t) in Elems(t) && forall k | k in Elems(t) :: Least(t) <= k
  {
    if t.left.Node? {
      LeastIsLeast(t.left);
    }
  }

  lemma {:induction false} EraseKeeps(t: Tree, key: nat)
    requires Bst(t)
    ensures Bst(Erase(t, key)) && Elems(Erase(t, key)) == Elems(t) - {key}
  {
    if t.Node? {
      EraseKeeps(t.left, key);
      EraseKeeps(t.right, key);
      if key == t.first && t.left.Node? && t.right.Node? {
        EraseKeeps(t.right, Least(t.right));
        SuccessorKeeps(t, Erase(t.right, Least(t.right)));
      }
    }
  }

  // Replacing the root by its successor
  lemma SuccessorKeeps(t: Tree, r: Tree)
    requires Bst(t) && t.Node? && t.right.Node? && Bst(r) && Elems(r) == Elems(t.right) - {Least(t.right)}
    ensures var t' := Node(t.left, Least(t.right), r); Bst(t') && Elems(t') == Elems(t) - {t.first}
  {
    LeastIsLeast(t.right);
  }
}
