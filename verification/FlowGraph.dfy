/** The control-flow graph of a function. */
module FlowGraph {
  import opened Cir
  import opened Graphs

  function SuccMap(blocks: map<Label, BasicBlock>): map<Label, seq<Label>> {
    map l | l in blocks :: blocks[l].Successors()
  }

  function GraphOf(f: Function): Graph
    requires f.blocks != []
  {
    Graph(f.blocks[0].id, SuccMap(BlockMap(f.blocks)))
  }

  lemma BlockMapUnfolds(blocks: seq<BasicBlock>)
    ensures blocks == [] ==> BlockMap(blocks) == map[]
    ensures blocks != [] ==>
              BlockMap(blocks) == BlockMap(blocks[..|blocks| - 1])[blocks[|blocks| - 1].id := blocks[|blocks| - 1]]
  {}

  lemma {:induction false} BlockMapHas(blocks: seq<BasicBlock>, l: Label)
    ensures l in BlockMap(blocks) <==> exists i :: 0 <= i < |blocks| && blocks[i].id == l
    ensures l in BlockMap(blocks) ==> BlockMap(blocks)[l] in blocks && BlockMap(blocks)[l].id == l
  {
    hide BlockMap;
    BlockMapUnfolds(blocks);
    if blocks != [] {
      var n := |blocks| - 1;
      BlockMapHas(blocks[..n], l);
      if l == blocks[n].id {
        assert blocks[n] in blocks;
      } else {
        assert forall i :: 0 <= i < n ==> blocks[..n][i] == blocks[i];
        if i :| 0 <= i < |blocks| && blocks[i].id == l { assert blocks[..n][i].id == l; }
      }
    }
  }

  lemma FunctionGraph(f: Function)
    requires f.GoodCfg()
    ensures Closed(GraphOf(f))
    ensures forall l :: l in BlockMap(f.blocks) ==>
              var b := BlockMap(f.blocks)[l];
              b.id == l && b.Terminator().Some?
  {
    var bm, g := BlockMap(f.blocks), GraphOf(f);
    BlockMapHas(f.blocks, g.entry);
    assert f.blocks[0].id == g.entry;
    forall u, v | Edge(g, u, v)
      ensures v in g.succ
    {
      BlockMapHas(f.blocks, u);
      var i :| 0 <= i < |f.blocks| && f.blocks[i] == bm[u];
      assert f.HasBlock(v);
      BlockMapHas(f.blocks, v);
    }
    forall l | l in bm
      ensures bm[l].id == l && bm[l].Terminator().Some?
    {
      BlockMapHas(f.blocks, l);
    }
  }
}
