/** How the consumers of a block's signals relate to its edges: the link
    between what validation bounds and what the runtime delivers. */
module Topology {
  import opened Values
  import opened SignalGraph
  import opened Configuration

  function BlocksOf(refs: seq<EndpointRef>): (r: seq<BlockId>)
    ensures |r| == |refs|
  {
    seq(|refs|, i requires 0 <= i < |refs| => refs[i].block)
  }

  ghost function ProducedBy(producers: map<SignalName, EndpointRef>, id: BlockId): set<SignalName> {
    set s | s in producers && producers[s].block == id
  }

  /** The unfolded size of everything `signals` can trigger. */
  ghost function Weight(bound: seq<Bound>, signals: set<SignalName>, edges: Edges, rank: BlockId -> nat): nat
    requires Ranks(edges, rank)
  {
    if bound == [] then 0
    else
      var last := bound[|bound| - 1];
      Weight(bound[..|bound| - 1], signals, edges, rank)
      + if !last.output && last.signal in signals then TreeSize(edges, rank, last.block) else 0
  }

  lemma {:induction false} WeightSplits(bound: seq<Bound>, a: set<SignalName>, b: set<SignalName>, edges: Edges, rank: BlockId -> nat)
    requires Ranks(edges, rank) && a !! b
    ensures Weight(bound, a + b, edges, rank) == Weight(bound, a, edges, rank) + Weight(bound, b, edges, rank)
    decreases |bound|
  {
    if bound != [] { WeightSplits(bound[..|bound| - 1], a, b, edges, rank); }
  }

  lemma {:induction false} WeightGrows(bound: seq<Bound>, a: set<SignalName>, b: set<SignalName>, edges: Edges, rank: BlockId -> nat)
    requires Ranks(edges, rank) && a <= b
    ensures Weight(bound, a, edges, rank) <= Weight(bound, b, edges, rank)
    decreases |bound|
  {
    if bound != [] { WeightGrows(bound[..|bound| - 1], a, b, edges, rank); }
  }

  /** The consumers of one signal weigh what the signal can trigger. */
  lemma {:induction false} ConsumersWeigh(bound: seq<Bound>, signal: SignalName, edges: Edges, rank: BlockId -> nat)
    requires Ranks(edges, rank)
    ensures SumSizes(edges, rank, BlocksOf(ConsumersIn(bound, signal))) == Weight(bound, {signal}, edges, rank)
    decreases |bound|
  {
    if bound != [] {
      var rest, last := bound[..|bound| - 1], bound[|bound| - 1];
      ConsumersWeigh(rest, signal, edges, rank);
      var before := BlocksOf(ConsumersIn(rest, signal));
      if !last.output && last.signal == signal {
        assert BlocksOf(ConsumersIn(bound, signal)) == before + [last.block];
        SumSizesSnoc(edges, rank, before, last.block);
      } else {
        assert ConsumersIn(bound, signal) == ConsumersIn(rest, signal);
      }
    }
  }

  /** The edges of a block weigh what all its signals together can trigger. */
  lemma {:induction false} EdgesWeigh(bound: seq<Bound>, producers: map<SignalName, EndpointRef>, id: BlockId,
                                      edges: Edges, rank: BlockId -> nat)
    requires Ranks(edges, rank)
    ensures SumSizes(edges, rank, Children(EdgesIn(bound, producers), id)) == Weight(bound, ProducedBy(producers, id), edges, rank)
    decreases |bound|
  {
    if bound != [] {
      var rest, last := bound[..|bound| - 1], bound[|bound| - 1];
      EdgesWeigh(rest, producers, id, edges, rank);
      SumSizesSnoc(edges, rank, Children(EdgesIn(rest, producers), id), last.block);
    }
  }

  /** A consumer of a produced signal is a child of the producing block. */
  lemma {:induction false} ConsumerIsChild(bound: seq<Bound>, producers: map<SignalName, EndpointRef>, signal: SignalName, c: EndpointRef)
    requires c in ConsumersIn(bound, signal) && signal in producers
    ensures c.block in Children(EdgesIn(bound, producers), producers[signal].block)
    decreases |bound|
  {
    var rest, last := bound[..|bound| - 1], bound[|bound| - 1];
    if c in ConsumersIn(rest, signal) {
      ConsumerIsChild(rest, producers, signal, c);
    } else {
      assert c == EndpointRef(last.block, last.endpoint);
    }
  }

  lemma {:induction false} ConsumersAreBound(bound: seq<Bound>, signal: SignalName, c: EndpointRef)
    ensures c in ConsumersIn(bound, signal) <==> Bound(c.block, c.endpoint, false, signal) in bound
    decreases |bound|
  {
    if bound != [] {
      var rest, last := bound[..|bound| - 1], bound[|bound| - 1];
      assert bound == rest + [last];
      ConsumersAreBound(rest, signal, c);
    }
  }

  /** Every binding of the configuration, and nothing else. */
  lemma {:induction false} BindingsComplete(blocks: seq<BlockConfig>, n: nat, x: Bound)
    requires n <= |blocks|
    ensures x in AllBound(blocks, n) <==>
            exists i :: 0 <= i < n && x.block == blocks[i].id && SignalBinding(x.endpoint, x.signal) in blocks[i].bindings
                        && x.output == IsOutput(blocks[i].endpoints, x.endpoint)
  {
    if n > 0 {
      BindingsComplete(blocks, n - 1, x);
      BoundOfComplete(blocks[n - 1], |blocks[n - 1].bindings|, x);
      assert blocks[n - 1].bindings[..|blocks[n - 1].bindings|] == blocks[n - 1].bindings;
    }
  }

  lemma {:induction false} BoundOfComplete(b: BlockConfig, n: nat, x: Bound)
    requires n <= |b.bindings|
    ensures x in BoundOf(b, n) <==>
            x.block == b.id && SignalBinding(x.endpoint, x.signal) in b.bindings[..n] && x.output == IsOutput(b.endpoints, x.endpoint)
  {
    if n > 0 {
      BoundOfComplete(b, n - 1, x);
      assert b.bindings[..n] == b.bindings[..n - 1] + [b.bindings[n - 1]];
    }
  }
}
