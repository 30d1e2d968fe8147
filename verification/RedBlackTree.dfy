/** Red-black insertion over nodes with parent pointers and a shared black sentinel. */
module RedBlackTree {
  import opened RedBlackShape

  class Node {
    var key: int
    var value: int
    var color: Color
    var left: Node
    var right: Node
    var parent: Node

    constructor Sentinel()
      ensures color == Black
    {
      key, value, color := 0, 0, Black;
      left, right, parent := this, this, this;
    }

    /** A red leaf under `p`. */
    constructor (k: int, v: int, p: Node, nil: Node)
      ensures key == k && value == v && color == Red
      ensures left == nil && right == nil && parent == p
    {
      key, value, color := k, v, Red;
      left, right, parent := nil, nil, p;
    }
  }

  // ---------- how a linked structure holds a shape ----------

  ghost function Nodes(t: Shape<Node>): set<Node> {
    if t.Empty? then {} else {t.node} + Nodes(t.left) + Nodes(t.right)
  }

  ghost function PathNodes(path: Path<Node>): set<Node> {
    if path.Top? then {} else {path.node} + Nodes(path.other) + PathNodes(path.up)
  }

  ghost function TopOf(t: Shape<Node>, nil: Node): Node {
    if t.Empty? then nil else t.node
  }

  ghost function ParentOf(path: Path<Node>, nil: Node): Node {
    if path.Top? then nil else path.node
  }

  ghost function Tip(t: Shape<Node>): set<Node> {
    if t.Empty? then {} else {t.node}
  }

  ghost function Under(t: Shape<Node>): set<Node> {
    if t.Empty? then {} else Nodes(t.left) + Nodes(t.right)
  }

  ghost predicate HasEntry(t: Shape<Node>)
    requires t.Branch?
    reads t.node
  {
    t.node.key == t.key && t.node.value == t.value && t.node.color == t.color
  }

  /** Every node of `t` holds its entry, its children's addresses and its parent's. */
  ghost predicate Linked(t: Shape<Node>, parent: Node, nil: Node)
    reads Nodes(t)
    decreases t, 1
  {
    LinkedBelow(t, nil) && (t.Branch? ==> t.node.parent == parent)
  }

  /** The same, but for the parent of the top node. */
  ghost predicate LinkedBelow(t: Shape<Node>, nil: Node)
    reads Tip(t)`key, Tip(t)`value, Tip(t)`color, Tip(t)`left, Tip(t)`right, Under(t)
    decreases t, 0
  {
    t.Branch? ==>
      && t.node.key == t.key && t.node.value == t.value && t.node.color == t.color
      && t.node.left == TopOf(t.left, nil) && t.node.right == TopOf(t.right, nil)
      && Linked(t.left, t.node, nil) && Linked(t.right, t.node, nil)
  }

  /** The nodes of `path` lead from the subtree at `hole` up to `root`. */
  ghost predicate PathLinked(path: Path<Node>, hole: Node, root: Node, nil: Node)
    reads PathNodes(path)
    decreases path
  {
    match path
    case Top => root == hole
    case Step(n, k, v, c, holeIsLeft, other, up) =>
      && n.key == k && n.value == v && n.color == c
      && n.left == (if holeIsLeft then hole else TopOf(other, nil))
      && n.right == (if holeIsLeft then TopOf(other, nil) else hole)
      && n.parent == ParentOf(up, nil)
      && Linked(other, n, nil)
      && PathLinked(up, n, root, nil)
  }

  ghost predicate Apart(t: Shape<Node>) {
    t.Branch? ==>
      && t.node !in Nodes(t.left) && t.node !in Nodes(t.right)
      && Nodes(t.left) !! Nodes(t.right)
      && Apart(t.left) && Apart(t.right)
  }

  ghost predicate PathApart(path: Path<Node>) {
    path.Step? ==>
      && path.node !in Nodes(path.other) && path.node !in PathNodes(path.up)
      && Nodes(path.other) !! PathNodes(path.up)
      && Apart(path.other) && PathApart(path.up)
  }

  lemma {:induction false} AllAllocated(t: Shape<Node>)
    ensures forall n <- Nodes(t) :: allocated(n)
  {
    if t.Branch? { AllAllocated(t.left); AllAllocated(t.right); }
  }

  lemma {:induction false} AllAllocatedAbove(path: Path<Node>)
    ensures forall n <- PathNodes(path) :: allocated(n)
  {
    if path.Step? { AllAllocated(path.other); AllAllocatedAbove(path.up); }
  }

  class RbTree {
    const nil: Node
    var root: Node
    ghost var shape: Shape<Node>

    ghost predicate Valid()
      reads this, Nodes(shape), nil
    {
      && Zipped(Top, shape)
      && IsRedBlackMap(shape)
      && nil.color == Black
    }

    ghost function Contents(): map<int, int>
      reads this
    {
      ToMap(InOrder(shape))
    }

    constructor ()
      ensures Valid() && fresh(nil) && shape == Empty && Contents() == map[]
    {
      var sentinel := new Node.Sentinel();
      nil, root, shape := sentinel, sentinel, Empty;
    }

    /** The tree at `root` is `t` put at the end of `path`. */
    ghost predicate Zipped(path: Path<Node>, t: Shape<Node>)
      reads this, Nodes(t), PathNodes(path)
    {
      && Linked(t, ParentOf(path, nil), nil)
      && PathLinked(path, TopOf(t, nil), root, nil)
      && Apart(t) && PathApart(path) && Nodes(t) !! PathNodes(path)
      && nil !in Nodes(t) && nil !in PathNodes(path)
    }

    /** Two nodes, three subtrees and a path that share nothing. */
    ghost predicate Parts(path: Path<Node>, x: Node, y: Node, a: Shape<Node>, b: Shape<Node>, c: Shape<Node>) {
      && x != y && {x, y} !! Nodes(a) !! Nodes(b) !! Nodes(c) !! PathNodes(path)
      && Apart(a) && Apart(b) && Apart(c) && PathApart(path)
      && nil !in {x, y} + Nodes(a) + Nodes(b) + Nodes(c) + PathNodes(path)
    }

    /** The two nodes of a left rotation with their links, and what hangs around them. */
    ghost predicate PiecesLeft(path: Path<Node>, t: Shape<Node>, y: Node)
      requires t.Branch? && t.right.Branch?
      reads t.node, t.right.node, Nodes(t.left), Nodes(t.right.left), Nodes(t.right.right), y
    {
      && y == t.right.node
      && Parts(path, t.node, y, t.left, t.right.left, t.right.right)
      && HasEntry(t) && HasEntry(t.right)
      && t.node.left == TopOf(t.left, nil) && y.right == TopOf(t.right.right, nil)
      && Linked(t.left, t.node, nil) && LinkedBelow(t.right.left, nil) && Linked(t.right.right, y, nil)
    }

    lemma TakeApartLeft(path: Path<Node>, t: Shape<Node>)
      requires Zipped(path, t) && t.Branch? && t.right.Branch?
      ensures PiecesLeft(path, t, t.node.right)
      ensures t.right.node.left == TopOf(t.right.left, nil)
      ensures PathLinked(path, t.node, root, nil) && t.node.parent == ParentOf(path, nil)
      ensures Nodes(t) == {t.node, t.right.node} + Nodes(t.left) + Nodes(t.right.left) + Nodes(t.right.right)
    {
      assert LinkedBelow(t, nil);
      assert Linked(t.right, t.node, nil) && Apart(t.right);
      assert LinkedBelow(t.right, nil);
      assert Linked(t.right.left, t.right.node, nil);
      assert Nodes(t.right) == {t.right.node} + Nodes(t.right.left) + Nodes(t.right.right);
    }

    lemma PutTogetherLeft(path: Path<Node>, t: Shape<Node>)
      requires t.Branch? && t.right.Branch? && PiecesLeft(path, t, t.right.node)
      requires PathLinked(path, t.right.node, root, nil) && t.right.node.parent == ParentOf(path, nil)
      requires t.node.right == TopOf(t.right.left, nil) && t.right.node.left == t.node && t.node.parent == t.right.node
      requires t.right.left.Branch? ==> t.right.left.node.parent == t.node
      ensures Zipped(path, RotatedLeft(t)) && Nodes(RotatedLeft(t)) == Nodes(t)
    {
      var u := RotatedLeft(t);
      assert Nodes(t.right) == {t.right.node} + Nodes(t.right.left) + Nodes(t.right.right);
      assert Nodes(u.left) == {t.node} + Nodes(t.left) + Nodes(t.right.left);
      assert Linked(t.right.left, t.node, nil);
      assert Apart(u.left) && LinkedBelow(u.left, nil) && LinkedBelow(u, nil);
    }

    /** The two nodes of a right rotation with their links, and what hangs around them. */
    ghost predicate PiecesRight(path: Path<Node>, t: Shape<Node>, y: Node)
      requires t.Branch? && t.left.Branch?
      reads t.node, t.left.node, Nodes(t.right), Nodes(t.left.right), Nodes(t.left.left), y
    {
      && y == t.left.node
      && Parts(path, t.node, y, t.right, t.left.right, t.left.left)
      && HasEntry(t) && HasEntry(t.left)
      && t.node.right == TopOf(t.right, nil) && y.left == TopOf(t.left.left, nil)
      && Linked(t.right, t.node, nil) && LinkedBelow(t.left.right, nil) && Linked(t.left.left, y, nil)
    }

    lemma TakeApartRight(path: Path<Node>, t: Shape<Node>)
      requires Zipped(path, t) && t.Branch? && t.left.Branch?
      ensures PiecesRight(path, t, t.node.left)
      ensures t.left.node.right == TopOf(t.left.right, nil)
      ensures PathLinked(path, t.node, root, nil) && t.node.parent == ParentOf(path, nil)
      ensures Nodes(t) == {t.node, t.left.node} + Nodes(t.right) + Nodes(t.left.right) + Nodes(t.left.left)
    {
      assert LinkedBelow(t, nil);
      assert Linked(t.left, t.node, nil) && Apart(t.left);
      assert LinkedBelow(t.left, nil);
      assert Linked(t.left.right, t.left.node, nil);
      assert Nodes(t.left) == {t.left.node} + Nodes(t.left.right) + Nodes(t.left.left);
    }

    lemma PutTogetherRight(path: Path<Node>, t: Shape<Node>)
      requires t.Branch? && t.left.Branch? && PiecesRight(path, t, t.left.node)
      requires PathLinked(path, t.left.node, root, nil) && t.left.node.parent == ParentOf(path, nil)
      requires t.node.left == TopOf(t.left.right, nil) && t.left.node.right == t.node && t.node.parent == t.left.node
      requires t.left.right.Branch? ==> t.left.right.node.parent == t.node
      ensures Zipped(path, RotatedRight(t)) && Nodes(RotatedRight(t)) == Nodes(t)
    {
      var u := RotatedRight(t);
      assert Nodes(t.left) == {t.left.node} + Nodes(t.left.right) + Nodes(t.left.left);
      assert Nodes(u.right) == {t.node} + Nodes(t.right) + Nodes(t.left.right);
      assert Linked(t.left.right, t.node, nil);
      assert Apart(u.right) && LinkedBelow(u.right, nil) && LinkedBelow(u, nil);
    }

    /** What a rotation at `x` may assume: the nodes whose links it rewrites are all different. */
    ghost predicate CanRotate(x: Node, y: Node, middle: Node, path: Path<Node>)
      reads this, x, PathNodes(path)
    {
      && nil !in {x, y} + PathNodes(path) && x != y && middle !in {x, y}
      && {x, y, middle} !! PathNodes(path) && PathApart(path)
      && PathLinked(path, x, root, nil) && x.parent == ParentOf(path, nil)
    }

    method RotateLeft(x: Node, ghost path: Path<Node>)
      requires CanRotate(x, x.right, x.right.left, path)
      modifies this`root, {x, x.right, x.parent, x.right.left} - {nil}
      ensures PathLinked(path, old(x.right), root, nil) && old(x.right).parent == ParentOf(path, nil)
      ensures x.left == old(x.left) && x.right == old(x.right.left) && x.parent == old(x.right)
      ensures old(x.right).left == x && old(x.right).right == old(x.right.right)
      ensures x.right != nil ==> x.right.parent == x && unchanged(x.right`left, x.right`right)
      ensures x.right != nil ==> unchanged(x.right`key, x.right`value, x.right`color)
      ensures unchanged(x`key, x`value, x`color)
      ensures var y := old(x.right); unchanged(y`key, y`value, y`color)
    {
      AllAllocatedAbove(path);
      var y := x.right;
      x.right := y.left;
      if y.left != nil { y.left.parent := x; }
      y.parent := x.parent;
      if x.parent == nil { root := y; }
      else if x == x.parent.left { x.parent.left := y; }
      else { x.parent.right := y; }
      y.left := x;
      x.parent := y;
    }

    method RotatePiecesLeft(x: Node, ghost path: Path<Node>, ghost t: Shape<Node>)
      requires t.Branch? && t.right.Branch? && t.node == x && PiecesLeft(path, t, x.right)
      requires PathLinked(path, x, root, nil) && x.parent == ParentOf(path, nil)
      requires t.right.node.left == TopOf(t.right.left, nil)
      modifies this`root, {x, x.right, x.parent, x.right.left} - {nil}
      ensures PiecesLeft(path, t, t.right.node)
      ensures PathLinked(path, t.right.node, root, nil) && t.right.node.parent == ParentOf(path, nil)
      ensures x.right == TopOf(t.right.left, nil) && t.right.node.left == x && x.parent == t.right.node
      ensures t.right.left.Branch? ==> t.right.left.node.parent == x
    {
      ghost var b := t.right.left;
      AllAllocated(t.left); AllAllocated(b); AllAllocated(t.right.right);
      ghost var touched := {x, x.right, x.parent, x.right.left} - {nil};
      assert Tip(b) <= Nodes(b) && Under(b) <= Nodes(b);
      assert touched !! Nodes(t.left) && touched !! Nodes(t.right.right) && touched !! Under(b);
      RotateLeft(x, path);
    }

    method RotateShapeLeft(x: Node, ghost path: Path<Node>, ghost t: Shape<Node>)
      requires Zipped(path, t) && t.Branch? && t.node == x && t.right.Branch?
      modifies this`root, Nodes(t), if path.Step? then {path.node} else {}
      ensures Zipped(path, RotatedLeft(t))
      ensures Nodes(RotatedLeft(t)) == Nodes(t)
    {
      TakeApartLeft(path, t);
      assert Tip(t.right.left) <= Nodes(t.right.left);
      RotatePiecesLeft(x, path, t);
      PutTogetherLeft(path, t);
    }

    method RotateRight(x: Node, ghost path: Path<Node>)
      requires CanRotate(x, x.left, x.left.right, path)
      modifies this`root, {x, x.left, x.parent, x.left.right} - {nil}
      ensures PathLinked(path, old(x.left), root, nil) && old(x.left).parent == ParentOf(path, nil)
      ensures x.right == old(x.right) && x.left == old(x.left.right) && x.parent == old(x.left)
      ensures old(x.left).right == x && old(x.left).left == old(x.left.left)
      ensures x.left != nil ==> x.left.parent == x && unchanged(x.left`right, x.left`left)
      ensures x.left != nil ==> unchanged(x.left`key, x.left`value, x.left`color)
      ensures unchanged(x`key, x`value, x`color)
      ensures var y := old(x.left); unchanged(y`key, y`value, y`color)
    {
      AllAllocatedAbove(path);
      var y := x.left;
      x.left := y.right;
      if y.right != nil { y.right.parent := x; }
      y.parent := x.parent;
      if x.parent == nil { root := y; }
      else if x == x.parent.right { x.parent.right := y; }
      else { x.parent.left := y; }
      y.right := x;
      x.parent := y;
    }

    method RotatePiecesRight(x: Node, ghost path: Path<Node>, ghost t: Shape<Node>)
      requires t.Branch? && t.left.Branch? && t.node == x && PiecesRight(path, t, x.left)
      requires PathLinked(path, x, root, nil) && x.parent == ParentOf(path, nil)
      requires t.left.node.right == TopOf(t.left.right, nil)
      modifies this`root, {x, x.left, x.parent, x.left.right} - {nil}
      ensures PiecesRight(path, t, t.left.node)
      ensures PathLinked(path, t.left.node, root, nil) && t.left.node.parent == ParentOf(path, nil)
      ensures x.left == TopOf(t.left.right, nil) && t.left.node.right == x && x.parent == t.left.node
      ensures t.left.right.Branch? ==> t.left.right.node.parent == x
    {
      ghost var b := t.left.right;
      AllAllocated(t.right); AllAllocated(b); AllAllocated(t.left.left);
      ghost var touched := {x, x.left, x.parent, x.left.right} - {nil};
      assert Tip(b) <= Nodes(b) && Under(b) <= Nodes(b);
      assert touched !! Nodes(t.right) && touched !! Nodes(t.left.left) && touched !! Under(b);
      RotateRight(x, path);
    }

    method RotateShapeRight(x: Node, ghost path: Path<Node>, ghost t: Shape<Node>)
      requires Zipped(path, t) && t.Branch? && t.node == x && t.left.Branch?
      modifies this`root, Nodes(t), if path.Step? then {path.node} else {}
      ensures Zipped(path, RotatedRight(t))
      ensures Nodes(RotatedRight(t)) == Nodes(t)
    {
      TakeApartRight(path, t);
      assert Tip(t.left.right) <= Nodes(t.left.right);
      RotatePiecesRight(x, path, t);
      PutTogetherRight(path, t);
    }

    /** The same tree, seen from one step higher. */
    lemma Ascend(path: Path<Node>, t: Shape<Node>)
      requires path.Step?
      ensures Zipped(path, t) <==> Zipped(path.up, Joined(path, t))
      ensures Nodes(Joined(path, t)) + PathNodes(path.up) == Nodes(t) + PathNodes(path)
    {
      var j := Joined(path, t);
      assert Nodes(j) == {path.node} + Nodes(t) + Nodes(path.other);
      assert Linked(j, ParentOf(path.up, nil), nil) <==> LinkedBelow(j, nil) && path.node.parent == ParentOf(path.up, nil);
    }

    method Paint(n: Node, c: Color, ghost path: Path<Node>, ghost t: Shape<Node>)
      requires Zipped(path, t) && t.Branch? && t.node == n
      modifies n`color
      ensures Zipped(path, Painted(t, c))
      ensures Nodes(Painted(t, c)) == Nodes(t)
    {
      assert LinkedBelow(t, nil);
      n.color := c;
      assert LinkedBelow(Painted(t, c), nil);
    }

    /** Where the parent and the grandparent of a clashing focus are. */
    lemma Around(path: Path<Node>, t: Shape<Node>)
      requires Zipped(path, t) && Clash(path, t)
      ensures path.up.Step? && path.color == Red && path.up.color == Black
      ensures t.node.parent == path.node && path.node.parent == path.up.node
      ensures path.holeIsLeft <==> path.node.left == t.node
      ensures path.holeIsLeft <==> path.node.right != t.node
      ensures path.up.holeIsLeft <==> path.up.node.left == path.node
      ensures (if path.up.holeIsLeft then path.up.node.right else path.up.node.left) == TopOf(path.up.other, nil)
      ensures path.up.other.Branch? ==> path.up.other.node.color == path.up.other.color
    {
      assert PathLinked(path.up, path.node, root, nil);
      assert TopOf(path.other, nil) != t.node by {
        assert path.other.Branch? ==> path.other.node in Nodes(path.other);
      }
      assert TopOf(path.up.other, nil) != path.node by {
        assert path.up.other.Branch? ==> path.up.other.node in Nodes(path.up.other);
      }
      assert LinkedBelow(path.up.other, nil);
    }

    /** A red uncle: parent and uncle turn black, the grandparent turns red. */
    method RecolorUp(z: Node, y: Node, ghost path: Path<Node>, ghost t: Shape<Node>)
      requires Zipped(path, t) && Clash(path, t) && z == t.node
      requires path.up.other.Branch? && y == path.up.other.node
      modifies (Nodes(t) + PathNodes(path))`color
      ensures Zipped(path.up.up, Recolored(Grand(path, t)))
      ensures Nodes(Recolored(Grand(path, t))) + PathNodes(path.up.up) == Nodes(t) + PathNodes(path)
    {
      Around(path, t);
      ghost var u := path.up;
      ghost var p := Joined(path, t);
      Ascend(path, t);
      Paint(z.parent, Black, u, p);
      ghost var side := Step(u.node, u.key, u.value, u.color, !u.holeIsLeft, Painted(p, Black), u.up);
      Ascend(u, Painted(p, Black));
      Ascend(side, u.other);
      Paint(y, Black, side, u.other);
      ghost var g := Joined(side, Painted(u.other, Black));
      Ascend(side, Painted(u.other, Black));
      Paint(z.parent.parent, Red, u.up, g);
    }
    /** The parent is a left child. */
    method FixLeft(z: Node, ghost path: Path<Node>, ghost t: Shape<Node>)
      returns (z': Node, ghost path': Path<Node>, ghost t': Shape<Node>)
      requires Zipped(path, t) && Clash(path, t) && z == t.node && path.up.holeIsLeft && nil.color == Black
      modifies this`root, Nodes(t) + PathNodes(path)
      ensures Zipped(path', t') && RedFocus(path', t') && z' == t'.node
      ensures Entire(path', t') == Entire(path, t)
      ensures Depth(path') < Depth(path)
      ensures Nodes(t') + PathNodes(path') == Nodes(t) + PathNodes(path)
    {
      Around(path, t);
      var y := z.parent.parent.right;
      if y.color == Red {
        RecolorUp(z, y, path, t);
        RecolorKeeps(path, t);
        z', path', t' := z.parent.parent, path.up.up, Recolored(Grand(path, t));
      } else {
        z', path', t' := z, path, t;
        if z == z.parent.right {
          z' := z.parent;
          Ascend(path, t);
          InnerToOuter(path, t);
          path', t' := OuterPath(path, t), OuterFocus(path, t);
          RotateShapeLeft(z', path.up, Joined(path, t));
          Ascend(path', t');
        }
        path' := RaiseLeft(z', path', t');
      }
    }

    /** A black uncle: the grandparent goes down on the far side of the parent. */
    method RaiseLeft(z: Node, ghost path: Path<Node>, ghost t: Shape<Node>) returns (ghost path': Path<Node>)
      requires Zipped(path, t) && Clash(path, t) && z == t.node
      requires path.up.holeIsLeft && path.holeIsLeft && IsBlack(path.up.other)
      modifies this`root, Nodes(t) + PathNodes(path)
      ensures path' == RaisedPath(path) && Zipped(path', t) && RedFocus(path', t)
      ensures Entire(path', t) == Entire(path, t)
      ensures Nodes(t) + PathNodes(path') == Nodes(t) + PathNodes(path)
    {
      Around(path, t);
      RotationKeeps(path, t);
      ghost var p, dark := Joined(path, t), path.(color := Black);
      Ascend(path, t);
      Paint(z.parent, Black, path.up, p);
      Ascend(path.up, Painted(p, Black));
      Paint(z.parent.parent, Red, path.up.up, Joined(path.up, Painted(p, Black)));
      RotateShapeRight(z.parent.parent, path.up.up, Repainted(path, t));
      path' := RaisedPath(path);
      Ascend(path', t);
    }

    /** The parent is a right child. */
    method FixRight(z: Node, ghost path: Path<Node>, ghost t: Shape<Node>)
      returns (z': Node, ghost path': Path<Node>, ghost t': Shape<Node>)
      requires Zipped(path, t) && Clash(path, t) && z == t.node && !path.up.holeIsLeft && nil.color == Black
      modifies this`root, Nodes(t) + PathNodes(path)
      ensures Zipped(path', t') && RedFocus(path', t') && z' == t'.node
      ensures Entire(path', t') == Entire(path, t)
      ensures Depth(path') < Depth(path)
      ensures Nodes(t') + PathNodes(path') == Nodes(t) + PathNodes(path)
    {
      Around(path, t);
      var y := z.parent.parent.left;
      if y.color == Red {
        RecolorUp(z, y, path, t);
        RecolorKeeps(path, t);
        z', path', t' := z.parent.parent, path.up.up, Recolored(Grand(path, t));
      } else {
        z', path', t' := z, path, t;
        if z == z.parent.left {
          z' := z.parent;
          Ascend(path, t);
          InnerToOuter(path, t);
          path', t' := OuterPath(path, t), OuterFocus(path, t);
          RotateShapeRight(z', path.up, Joined(path, t));
          Ascend(path', t');
        }
        path' := RaiseRight(z', path', t');
      }
    }

    /** A black uncle: the grandparent goes down on the far side of the parent. */
    method RaiseRight(z: Node, ghost path: Path<Node>, ghost t: Shape<Node>) returns (ghost path': Path<Node>)
      requires Zipped(path, t) && Clash(path, t) && z == t.node
      requires !path.up.holeIsLeft && !path.holeIsLeft && IsBlack(path.up.other)
      modifies this`root, Nodes(t) + PathNodes(path)
      ensures path' == RaisedPath(path) && Zipped(path', t) && RedFocus(path', t)
      ensures Entire(path', t) == Entire(path, t)
      ensures Nodes(t) + PathNodes(path') == Nodes(t) + PathNodes(path)
    {
      Around(path, t);
      RotationKeeps(path, t);
      ghost var p, dark := Joined(path, t), path.(color := Black);
      Ascend(path, t);
      Paint(z.parent, Black, path.up, p);
      Ascend(path.up, Painted(p, Black));
      Paint(z.parent.parent, Red, path.up.up, Joined(path.up, Painted(p, Black)));
      RotateShapeLeft(z.parent.parent, path.up.up, Repainted(path, t));
      path' := RaisedPath(path);
      Ascend(path', t);
    }

    /** The tree seen from its root. */
    lemma ZipUp(path: Path<Node>, t: Shape<Node>)
      requires Zipped(path, t)
      ensures Zipped(Top, Plug(path, t))
      ensures Nodes(Plug(path, t)) == Nodes(t) + PathNodes(path)
      decreases path
    {
      if path.Step? {
        Ascend(path, t);
        ZipUp(path.up, Joined(path, t));
      }
    }

    method BlackenRoot(ghost path: Path<Node>, ghost t: Shape<Node>)
      requires Zipped(path, t) && RedFocus(path, t) && !Clash(path, t) && nil.color == Black
      requires Ascending(Entire(path, t))
      modifies this, Nodes(t) + PathNodes(path)
      ensures Valid() && InOrder(shape) == Entire(path, t)
      ensures Nodes(shape) == Nodes(t) + PathNodes(path)
    {
      RootBlack(path, t);
      ZipUp(path, t);
      Paint(root, Black, Top, Plug(path, t));
      shape := Painted(Plug(path, t), Black);
    }

    method Fixup(z: Node, ghost path: Path<Node>, ghost t: Shape<Node>)
      requires Zipped(path, t) && RedFocus(path, t) && z == t.node && nil.color == Black
      requires Ascending(Entire(path, t))
      modifies this, Nodes(t) + PathNodes(path)
      ensures Valid() && InOrder(shape) == Entire(path, t)
      ensures Nodes(shape) == Nodes(t) + PathNodes(path)
    {
      var z := z;
      ghost var path, t := path, t;
      ghost var entries, nodes := Entire(path, t), Nodes(t) + PathNodes(path);
      while z.parent.color == Red
        invariant Zipped(path, t) && RedFocus(path, t) && z == t.node && nil.color == Black
        invariant Entire(path, t) == entries && Nodes(t) + PathNodes(path) == nodes
        decreases Depth(path)
      {
        Around(path, t);
        if z.parent == z.parent.parent.left {
          z, path, t := FixLeft(z, path, t);
        } else {
          z, path, t := FixRight(z, path, t);
        }
      }
      BlackenRoot(path, t);
    }

    method SetValue(x: Node, v: int, ghost path: Path<Node>, ghost t: Shape<Node>)
      requires Zipped(path, t) && t.Branch? && t.node == x
      modifies x`value
      ensures Zipped(path, t.(value := v))
    {
      assert LinkedBelow(t, nil);
      x.value := v;
      assert LinkedBelow(t.(value := v), nil);
    }

    /** Puts a new leaf where the search ended. */
    method Hang(z: Node, y: Node, ghost path: Path<Node>)
      requires Zipped(path, Empty) && y == ParentOf(path, nil)
      requires z !in PathNodes(path) && z != nil && z.left == nil && z.right == nil && z.parent == y
      requires path.Step? ==> (path.holeIsLeft <==> z.key < path.key)
      modifies this`root, if path.Step? then {path.node} else {}
      ensures Zipped(path, Branch(z, z.key, z.value, z.color, Empty, Empty))
    {
      if y == nil { root := z; }
      else if z.key < y.key { y.left := z; }
      else { y.right := z; }
    }

    /** Walks down to the node with key `k`, or to the sentinel where it belongs under `y`. */
    method Locate(k: int) returns (y: Node, x: Node, ghost path: Path<Node>, ghost t: Shape<Node>)
      requires Valid()
      ensures Zipped(path, t) && x == TopOf(t, nil) && y == ParentOf(path, nil)
      ensures Narrowed(path, t, k) && (t.Branch? ==> t.key == k)
      ensures Entire(path, t) == InOrder(shape) && Nodes(t) + PathNodes(path) == Nodes(shape)
    {
      y, x := nil, root;
      path, t := Top, shape;
      assert Entire(path, t) == InOrder(shape);
      while x != nil
        invariant Zipped(path, t) && x == TopOf(t, nil) && y == ParentOf(path, nil)
        invariant Narrowed(path, t, k) && Entire(path, t) == InOrder(shape)
        invariant Nodes(t) + PathNodes(path) == Nodes(shape)
        decreases t
      {
        assert LinkedBelow(t, nil);
        if k == x.key { return; }
        y := x;
        if k < x.key { x := x.left; } else { x := x.right; }
        Narrow(path, t, k);
        path, t := Below(path, t, k < t.key), Child(t, k < t.key);
        Ascend(path, t);
      }
    }

    method Insert(k: int, v: int)
      requires Valid()
      modifies this, Nodes(shape)
      ensures Valid() && Contents() == old(Contents())[k := v]
      ensures fresh(Nodes(shape) - old(Nodes(shape)))
    {
      var y, x;
      ghost var path, t;
      y, x, path, t := Locate(k);
      if x != nil {
        Replace(path, t, v);
        SetValue(x, v, path, t);
        ZipUp(path, t.(value := v));
        shape := Plug(path, t.(value := v));
        return;
      }
      AllAllocatedAbove(path);
      var z := new Node(k, v, y, nil);
      Grow(path, z, k, v);
      Hang(z, y, path);
      Fixup(z, path, Branch(z, k, v, Red, Empty, Empty));
    }

    method SizeOf(n: Node, ghost t: Shape<Node>, ghost parent: Node) returns (size: nat)
      requires Linked(t, parent, nil) && n == TopOf(t, nil) && nil !in Nodes(t)
      ensures size == |InOrder(t)|
      decreases t
    {
      assert LinkedBelow(t, nil);
      AllAllocated(t);
      if n == nil { return 0; }
      var l := SizeOf(n.left, t.left, n);
      var r := SizeOf(n.right, t.right, n);
      size := 1 + l + r;
    }

    method HeightOf(n: Node, ghost t: Shape<Node>, ghost parent: Node) returns (height: nat)
      requires Linked(t, parent, nil) && n == TopOf(t, nil) && nil !in Nodes(t)
      ensures height == Height(t)
      decreases t
    {
      assert LinkedBelow(t, nil);
      AllAllocated(t);
      if n == nil { return 0; }
      var l := HeightOf(n.left, t.left, n);
      var r := HeightOf(n.right, t.right, n);
      height := 1 + if l > r then l else r;
    }

    method Size() returns (size: nat)
      requires Valid()
      ensures size == |Contents()|
    {
      ToMapSize(InOrder(shape));
      size := SizeOf(root, shape, nil);
    }

    /** The height is at most twice the logarithm of the number of keys plus one. */
    method TreeHeight() returns (height: nat)
      requires Valid()
      ensures height == Height(shape)
      ensures Pow2(height) <= (|Contents()| + 1) * (|Contents()| + 1)
    {
      ToMapSize(InOrder(shape));
      HeightBound(shape);
      height := HeightOf(root, shape, nil);
    }
  }

  /** Every tree that insertions build from the empty one is valid, and holds for each key
      the value written last. */
  method Build(writes: seq<(int, int)>) returns (tree: RbTree)
    ensures fresh(tree) && tree.Valid() && tree.Contents() == LastWrites(writes)
  {
    tree := new RbTree();
    for i := 0 to |writes|
      invariant fresh(tree) && fresh(Nodes(tree.shape)) && tree.Valid()
      invariant tree.Contents() == LastWrites(writes[..i])
    {
      assert writes[..i + 1][..i] == writes[..i];
      ghost var before := Nodes(tree.shape);
      tree.Insert(writes[i].0, writes[i].1);
      AllAllocated(tree.shape);
      assert fresh(before + (Nodes(tree.shape) - before));
    }
    assert writes[..|writes|] == writes;
  }
}
