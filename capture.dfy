/** Joining the captured sample blocks into one recording. */
module Capture {

  /** The blocks joined end to end, in queue order. */
  function Flatten(blocks: seq<seq<int>>): seq<int>
  {
    if blocks == [] then [] else blocks[0] + Flatten(blocks[1..])
  }

  /** The number of samples held in all the blocks together. */
  function TotalLength(blocks: seq<seq<int>>): nat
  {
    if blocks == [] then 0 else |blocks[0]| + TotalLength(blocks[1..])
  }

  /** The recording has as many samples as the blocks hold together. */
  lemma {:induction false} FlattenLength(blocks: seq<seq<int>>)
    ensures |Flatten(blocks)| == TotalLength(blocks)
  {
    if blocks != [] {
      FlattenLength(blocks[1..]);
    }
  }

  /** Joining two runs of blocks is joining their recordings. */
  lemma {:induction false} FlattenAppend(a: seq<seq<int>>, b: seq<seq<int>>)
    ensures Flatten(a + b) == Flatten(a) + Flatten(b)
  {
    if a == [] {
      assert a + b == b;
    } else {
      assert (a + b)[1..] == a[1..] + b;
      FlattenAppend(a[1..], b);
    }
  }

  /** Sample `j` of block `k` lands right after every sample of the blocks
      before it: joining keeps arrival order. */
  lemma {:induction false} FlattenAt(blocks: seq<seq<int>>, k: nat, j: nat)
    requires k < |blocks| && j < |blocks[k]|
    ensures TotalLength(blocks[..k]) + j < |Flatten(blocks)|
    ensures Flatten(blocks)[TotalLength(blocks[..k]) + j] == blocks[k][j]
  {
    FlattenLength(blocks);
    if k == 0 {
      assert blocks[..0] == [];
    } else {
      assert blocks[1..][..k - 1] == blocks[1..k];
      assert blocks[..k][1..] == blocks[1..k];
      FlattenAt(blocks[1..], k - 1, j);
    }
  }

  /** The recording is empty exactly when every block is: no blocks at all,
      or only empty ones. */
  lemma {:induction false} FlattenEmpty(blocks: seq<seq<int>>)
    ensures Flatten(blocks) == [] <==> forall k :: 0 <= k < |blocks| ==> blocks[k] == []
  {
    if blocks != [] {
      FlattenEmpty(blocks[1..]);
      assert forall k :: 1 <= k < |blocks| ==> blocks[k] == blocks[1..][k - 1];
    }
  }
}
