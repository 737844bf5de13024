/** Immediate-dominator maps read as trees.  `index` numbers the nodes and the
    root is number 0; every other node points at one with a smaller number. */
module DomTree {
  import opened Cir

  type Index = map<Label, nat>
  type Idom = map<Label, Label>

  ghost predicate Forest(index: Index, d: Idom) {
    && d.Keys <= index.Keys
    && forall v {:trigger d[v]} :: v in d ==>
         && d[v] in index
         && (index[v] == 0 ==> d[v] == v)
         && (index[v] > 0 ==> index[d[v]] < index[v])
  }

  /** The map is defined on every node it points at. */
  ghost predicate Total(d: Idom) {
    forall v {:trigger ParentIn(d, v)} :: v in d ==> ParentIn(d, v)
  }

  predicate ParentIn(d: Idom, v: Label) {
    v in d && d[v] in d
  }

  /** One step up.  Proofs elsewhere use this instead of the quantifiers above. */
  lemma Up(index: Index, d: Idom, v: Label)
    requires Forest(index, d) && v in d
    ensures v in index && d[v] in index
    ensures index[v] == 0 ==> d[v] == v
    ensures index[v] > 0 ==> index[d[v]] < index[v]
    ensures Total(d) ==> d[v] in d
  {
    assert Total(d) ==> ParentIn(d, v);
  }

  lemma Redirect(index: Index, d: Idom, v: Label, x: Label)
    requires Forest(index, d) && v in index && x in index && index[x] < index[v]
    ensures Forest(index, d[v := x])
    ensures Total(d) && x in d ==> Total(d[v := x])
  {
    if Total(d) && x in d {
      var d' := d[v := x];
      forall w | w in d'
        ensures ParentIn(d', w)
      {
        assert w in d ==> ParentIn(d, w);
      }
    }
  }

  /** `a` is an ancestor of `v` or `v` itself. */
  ghost predicate IsAnc(index: Index, d: Idom, a: Label, v: Label)
    requires Forest(index, d) && v in index
    decreases index[v]
  {
    a == v || (index[v] > 0 && v in d && IsAnc(index, d, a, d[v]))
  }

  lemma {:induction false} AncLower(index: Index, d: Idom, a: Label, v: Label)
    requires Forest(index, d) && v in index && IsAnc(index, d, a, v)
    ensures a in index && (a == v || index[a] < index[v])
    ensures Total(d) && v in d ==> a in d
    decreases index[v]
  {
    if a != v {
      assert ParentIn(d, v) <== Total(d);
      AncLower(index, d, a, d[v]);
    }
  }

  lemma {:induction false} AncTransitive(index: Index, d: Idom, a: Label, b: Label, v: Label)
    requires Forest(index, d) && v in index && b in index && IsAnc(index, d, b, v) && IsAnc(index, d, a, b)
    ensures IsAnc(index, d, a, v)
    decreases index[v]
  {
    if b != v {
      AncTransitive(index, d, a, b, d[v]);
    }
  }

  /** The ancestors of a node form a chain. */
  lemma {:induction false} AncChain(index: Index, d: Idom, a: Label, b: Label, v: Label)
    requires Forest(index, d) && v in index
    requires IsAnc(index, d, a, v) && IsAnc(index, d, b, v)
    requires a in index && b in index && index[a] <= index[b]
    ensures IsAnc(index, d, a, b)
    decreases index[v]
  {
    if b != v {
      if a == v {
        AncLower(index, d, b, v);
      } else {
        AncChain(index, d, a, b, d[v]);
      }
    }
  }

  /** Redirecting `v` leaves alone whatever does not pass through it. */
  lemma {:induction false} AncUpdateOther(index: Index, d: Idom, v: Label, x: Label, w: Label, a: Label)
    requires Forest(index, d) && Forest(index, d[v := x]) && w in index
    requires !IsAnc(index, d, v, w)
    ensures IsAnc(index, d[v := x], a, w) <==> IsAnc(index, d, a, w)
    decreases index[w]
  {
    if index[w] > 0 && w in d {
      AncUpdateOther(index, d, v, x, d[w], a);
    }
  }

  /** In particular it leaves alone the nodes numbered below `v`. */
  lemma AncUpdateLower(index: Index, d: Idom, v: Label, x: Label, w: Label, a: Label)
    requires Forest(index, d) && Forest(index, d[v := x]) && w in index
    requires v in index && v != w && index[w] <= index[v]
    ensures IsAnc(index, d[v := x], a, w) <==> IsAnc(index, d, a, w)
  {
    if IsAnc(index, d, v, w) {
      AncLower(index, d, v, w);
    }
    AncUpdateOther(index, d, v, x, w, a);
  }

  /** Below `v` the ancestors are the unchanged stretch down to `v`, then those of `v`. */
  lemma {:induction false} AncUpdateBelow(index: Index, d: Idom, v: Label, x: Label, w: Label, a: Label)
    requires Forest(index, d) && Forest(index, d[v := x]) && w in index && v in index
    requires IsAnc(index, d, v, w)
    ensures IsAnc(index, d[v := x], a, w) <==>
            IsAnc(index, d[v := x], a, v) || (IsAnc(index, d, a, w) && a in index && index[a] > index[v])
    decreases index[w]
  {
    if IsAnc(index, d[v := x], a, v) {
      AncLower(index, d[v := x], a, v);
    }
    if IsAnc(index, d, a, w) {
      AncLower(index, d, a, w);
    }
    if w != v {
      AncLower(index, d, v, d[w]);
      AncUpdateBelow(index, d, v, x, d[w], a);
    }
  }
}
