// Model of teste_vscode.py: a pure squaring step and a driver that keeps
// every processed chunk alive in a module-level list.
module TesteVscode {

  /** Number of chunks `main` builds. */
  const CHUNKS: nat := 100

  /** Length of every chunk `main` builds. */
  const CHUNK_SIZE: nat := 1000

  /** `process_data`: the element-wise square of a chunk. */
  function ProcessData(chunk: seq<int>): (r: seq<int>)
    ensures |r| == |chunk|
    ensures forall k :: 0 <= k < |chunk| ==> r[k] == chunk[k] * chunk[k]
  {
    if chunk == [] then [] else [chunk[0] * chunk[0]] + ProcessData(chunk[1..])
  }

  /** Python's `list(range(n))`. */
  function Range(n: nat): (r: seq<int>)
    ensures |r| == n
    ensures forall i :: 0 <= i < n ==> r[i] == i
  {
    if n == 0 then [] else Range(n - 1) + [n - 1]
  }

  /** The data set `main` iterates over: CHUNKS copies of `range(CHUNK_SIZE)`. */
  function InputChunks(): seq<seq<int>>
  {
    seq(CHUNKS, _ => Range(CHUNK_SIZE))
  }

  /** What `main` appends, in order, for the chunks `ds`. */
  function ProcessAll(ds: seq<seq<int>>): (r: seq<seq<int>>)
    ensures |r| == |ds|
    ensures forall i :: 0 <= i < |ds| ==> |r[i]| == |ds[i]|
    ensures forall i, j :: 0 <= i < |ds| && 0 <= j < |ds[i]| ==> r[i][j] == ds[i][j] * ds[i][j]
  {
    if ds == [] then [] else ProcessAll(ds[..|ds| - 1]) + [ProcessData(ds[|ds| - 1])]
  }

  /** Every entry `main` produces has CHUNK_SIZE elements and element j is j*j. */
  lemma MainEntries()
    ensures |ProcessAll(InputChunks())| == CHUNKS
    ensures forall i :: 0 <= i < CHUNKS ==> |ProcessAll(InputChunks())[i]| == CHUNK_SIZE
    ensures forall i, j :: 0 <= i < CHUNKS && 0 <= j < CHUNK_SIZE ==> ProcessAll(InputChunks())[i][j] == j * j
  {
  }

  /** The module's global state: the list `leak_list`, which never shrinks. */
  class Globals {
    var leakList: seq<seq<int>>

    constructor ()
      ensures leakList == []
    {
      leakList := [];
    }
  }

  /** The loop of `main` over the chunks `data`: appends one processed chunk
      per input chunk, in chunk order. */
  method AppendProcessed(g: Globals, data: seq<seq<int>>)
    modifies g
    ensures g.leakList == old(g.leakList) + ProcessAll(data)
  {
    for i := 0 to |data|
      invariant g.leakList == old(g.leakList) + ProcessAll(data[..i])
    {
      var processedChunk := ProcessData(data[i]);
      assert data[..i + 1] == data[..i] + [data[i]];
      g.leakList := g.leakList + [processedChunk];
    }
    assert data[..|data|] == data;
  }

  /** `main`: processes the CHUNKS chunks of `range(CHUNK_SIZE)` in order. */
  method RunMain(g: Globals)
    modifies g
    ensures g.leakList == old(g.leakList) + ProcessAll(InputChunks())
    ensures |g.leakList| == |old(g.leakList)| + CHUNKS
  {
    AppendProcessed(g, InputChunks());
  }
}
