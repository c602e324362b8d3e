/** `Node`: the list-of-children tree. Java's static NODE_UNIQUE_ID is the
    object `NodeCounter`; each construction takes the next number from it. */
module Tree {

  class NodeCounter {
    var count: nat

    constructor ()
      ensures count == 0
    {
      count := 0;
    }
  }

  class Node {
    const value: string   // assigned only by the constructors
    const number: nat
    /** `addChild` appends without a check, so an entry may be null. */
    var children: seq<Node?>
    /** This node and every node reachable through `children`. */
    ghost var Repr: set<Node>

    /** The non-null children form a finite tree below this node (no cycle),
        which is what lets `toString` terminate. */
    ghost predicate Valid()
      reads this, Repr
      decreases Repr
    {
      && this in Repr
      && forall c | c in children && c != null :: c in Repr && c.Repr <= Repr && this !in c.Repr && c.Valid()
    }

    constructor Leaf(value: string, ids: NodeCounter)
      modifies ids
      ensures ids.count == old(ids.count) + 1 && number == ids.count
      ensures this.value == value && children == []
      ensures Valid() && Repr == {this}
    {
      this.value := value;
      number := ids.count + 1;
      children := [];
      Repr := {this};
      new;
      ids.count := number;
    }

    /** Left then right, each only when it is not null. */
    constructor Binary(value: string, left: Node?, right: Node?, ids: NodeCounter)
      modifies ids
      ensures ids.count == old(ids.count) + 1 && number == ids.count
      ensures this.value == value
      ensures children == (if left != null then [left] else []) + (if right != null then [right] else [])
      ensures |children| == (if left != null then 1 else 0) + (if right != null then 1 else 0)
      ensures null !in children
      ensures (left != null ==> left.Valid()) && (right != null ==> right.Valid()) ==> Valid()
    {
      this.value := value;
      number := ids.count + 1;
      children := (if left != null then [left] else []) + (if right != null then [right] else []);
      Repr := {this} + (if left != null then left.Repr else {}) + (if right != null then right.Repr else {});
      new;
      ids.count := number;
    }

    /** addChild appends at the end, null included, and keeps the earlier
        children. A valid node stays valid when the new child is null or a
        valid tree not containing it. */
    method AddChild(child: Node?)
      modifies this
      ensures children == old(children) + [child]
      ensures Repr == old(Repr) + (if child != null then child.Repr else {})
      ensures old(Valid()) && (child != null ==> old(child.Valid()) && this !in old(child.Repr)) ==> Valid()
    {
      children := children + [child];
      if child != null {
        Repr := Repr + child.Repr;
      }
    }

    /** `value` alone for a leaf; otherwise `value` followed by Java's list
        rendering of the children: `[`, their texts in order separated by
        `, `, then `]`. */
    function ToString(): (s: string)
      reads this, Repr
      requires Valid()
      ensures |s| >= |value| && s[..|value|] == value
      ensures (s == value) == (children == [])
      ensures children != [] ==> s == value + "[" + JoinChildren(children, Repr) + "]"
      decreases Repr, 2
    {
      assert forall c | c in children && c != null :: c.Repr < Repr;
      value + if children == [] then "" else "[" + JoinChildren(children, Repr) + "]"
    }
  }

  /** The nodes a child list may render through: every non-null child is a
      valid tree strictly inside `bound`. */
  ghost predicate Below(cs: seq<Node?>, bound: set<Node>)
    reads bound
  {
    forall c | c in cs && c != null :: c in bound && c.Repr < bound && c.Valid()
  }

  /** One element of a Java list's text: `null` for a null entry. */
  function ElementText(c: Node?, ghost bound: set<Node>): (t: string)
    reads bound
    requires c != null ==> c in bound && c.Repr < bound && c.Valid()
    ensures c == null ==> t == "null"
    decreases bound, 0, 0
  {
    if c == null then "null" else c.ToString()
  }

  /** The elements' texts separated by ", ". */
  function JoinChildren(cs: seq<Node?>, ghost bound: set<Node>): string
    reads bound
    requires Below(cs, bound)
    decreases bound, 0, |cs|
  {
    if cs == [] then ""
    else if |cs| == 1 then ElementText(cs[0], bound)
    else ElementText(cs[0], bound) + ", " + JoinChildren(cs[1..], bound)
  }

  /** Appending one element to a non-empty list adds `, ` and its text at the
      end, so the list's text is its elements' texts in order. */
  lemma {:induction false} JoinChildrenAppend(cs: seq<Node?>, c: Node?, bound: set<Node>)
    requires cs != [] && Below(cs + [c], bound)
    ensures Below(cs, bound)
    ensures JoinChildren(cs + [c], bound) == JoinChildren(cs, bound) + ", " + ElementText(c, bound)
    decreases |cs|
  {
    assert Below(cs, bound) by {
      forall x | x in cs && x != null ensures x in bound && x.Repr < bound && x.Valid() {
        assert x in cs + [c];
      }
    }
    if |cs| > 1 {
      assert (cs + [c])[1..] == cs[1..] + [c];
      JoinChildrenAppend(cs[1..], c, bound);
    } else {
      assert (cs + [c])[1..] == [c];
    }
  }
}
