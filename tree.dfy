/** The parse tree: an immutable value view and the mutable Node objects the parser builds. */
module Trees {
  /** The value a node stands for: its label and its children in order. */
  datatype Tree = Tree(value: string, children: seq<Tree>)

  /** A parse-tree node: a label and a growing list of child nodes. The ghost model is
      the tree the node currently denotes and Repr is the set of nodes reachable from it. */
  class Node {
    const value: string
    var children: seq<Node>
    ghost var model: Tree
    ghost var Repr: set<Node>

    ghost predicate Valid()
      reads this, Repr
      decreases Repr
    {
      this in Repr
      && model.value == value
      && |model.children| == |children|
      && forall i :: 0 <= i < |children| ==>
           children[i] in Repr
           && children[i].Repr <= Repr
           && this !in children[i].Repr
           && children[i].Valid()
           && children[i].model == model.children[i]
    }

    /** A new node with the given label and no children. */
    constructor (value: string)
      ensures Valid() && fresh(Repr)
      ensures this.value == value && children == [] && model == Tree(value, [])
    {
      this.value := value;
      children := [];
      model := Tree(value, []);
      Repr := {this};
    }

    /** Appends n as the last child. */
    method AddChild(n: Node)
      requires Valid() && n.Valid() && this !in n.Repr
      modifies this
      ensures Valid()
      ensures children == old(children) + [n]
      ensures model == Tree(value, old(model.children) + [n.model])
      ensures Repr == old(Repr) + n.Repr
    {
      children := children + [n];
      model := Tree(value, model.children + [n.model]);
      Repr := Repr + n.Repr;
    }
  }
}
