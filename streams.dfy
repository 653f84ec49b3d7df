/** Pull-based block streams, shared by both low-pass filters and by the synth.

    A Python `blocks()` generator is modelled by the sequence of blocks it
    would hand out if pulled for ever (a `Stream`), and each live generator
    object by a class with a `Next()` method standing for `next(gen)`. */
module Streams {
  import opened Wrappers

  /** One block of audio samples (a list of floats in the source; exact reals here). */
  type Block = seq<real>

  /** The blocks an upstream `blocks()` generator produces, in order: finitely
      many before StopIteration, or endlessly many (an oscillator). */
  datatype Stream = Finite(items: seq<Block>) | Endless(at: nat -> Block)

  /** The stream holds a block at position `i`. */
  predicate Has(s: Stream, i: nat) {
    match s
    case Finite(items) => i < |items|
    case Endless(_) => true
  }

  function Get(s: Stream, i: nat): Block
    requires Has(s, i)
  {
    match s
    case Finite(items) => items[i]
    case Endless(at) => at(i)
  }

  /** Every block of the stream has `size` samples. */
  ghost predicate Uniform(s: Stream, size: nat) {
    forall i :: Has(s, i) ==> |Get(s, i)| == size
  }

  /** How many blocks `islice(gen, n)` can deliver: `n`, or fewer when the stream ends first. */
  function Count(s: Stream, n: nat): (c: nat)
    ensures c <= n
    ensures forall i :: 0 <= i < c ==> Has(s, i)
    ensures c < n ==> !Has(s, c)
  {
    match s
    case Finite(items) => if n <= |items| then n else |items|
    case Endless(_) => n
  }

  /** `list(islice(gen, n))`: the first `Count(s, n)` blocks of the stream, in stream order. */
  function Take(s: Stream, n: nat): (r: seq<Block>)
    ensures |r| == Count(s, n)
    ensures forall i :: 0 <= i < |r| ==> Has(s, i) && r[i] == Get(s, i)
  {
    match s
    case Finite(items) => items[..Count(s, n)]
    case Endless(at) => seq(n, (i: nat) => at(i))
  }

  /** The stream as seen by a generator that has already handed out `p` blocks. */
  function Drop(s: Stream, p: nat): (r: Stream)
    ensures forall i :: Has(r, i) <==> Has(s, p + i)
    ensures forall i :: Has(r, i) ==> Get(r, i) == Get(s, p + i)
  {
    match s
    case Finite(items) => Finite(items[if p <= |items| then p else |items|..])
    case Endless(at) => Endless((i: nat) => at(p + i))
  }

  /** The stream with `f` applied to each block on its own. */
  function MapStream(s: Stream, f: Block -> Block): (r: Stream)
    ensures forall i :: Has(r, i) <==> Has(s, i)
    ensures forall i :: Has(r, i) ==> Get(r, i) == f(Get(s, i))
  {
    match s
    case Finite(items) => Finite(seq(|items|, i requires 0 <= i < |items| => f(items[i])))
    case Endless(at) => Endless((i: nat) => f(at(i)))
  }

  /** `np.array(blocks).flatten()`: the samples of the blocks, one block after the other. */
  function Concat(bs: seq<Block>): seq<real> {
    if bs == [] then [] else bs[0] + Concat(bs[1..])
  }

  /** Flattening `k` blocks of `size` samples gives `k * size` samples. */
  lemma {:induction false} ConcatLength(bs: seq<Block>, size: nat)
    requires forall i :: 0 <= i < |bs| ==> |bs[i]| == size
    ensures |Concat(bs)| == |bs| * size
  {
    if bs != [] {
      ConcatLength(bs[1..], size);
    }
  }

  /** Flattening keeps block order: sample `j` of block `i` lands at `i * size + j`. */
  lemma {:induction false} ConcatAt(bs: seq<Block>, size: nat, i: nat, j: nat)
    requires forall k :: 0 <= k < |bs| ==> |bs[k]| == size
    requires i < |bs| && j < size
    ensures i * size + j < |Concat(bs)|
    ensures Concat(bs)[i * size + j] == bs[i][j]
  {
    ConcatLength(bs, size);
    if i > 0 {
      ConcatAt(bs[1..], size, i - 1, j);
      assert i * size + j == size + ((i - 1) * size + j);
    }
  }

  // ---------------------------------------------------------------------
  // The low-pass step shared by both filters
  // ---------------------------------------------------------------------

  /** `filtfilt(*butter(4, wn, 'low'), block)`: scipy's 4th-order Butterworth design
      at normalised cutoff `wn`, applied forward and backward to one block.
      It is foreign floating-point code, so the model takes it as a parameter. */
  type ZeroPhaseLowpass = (real, Block) -> Block

  /** The transform keeps the number of samples of every block. */
  ghost predicate PreservesLength(zeroPhase: ZeroPhaseLowpass) {
    forall wn, b :: |zeroPhase(wn, b)| == |b|
  }

  /** The exception a filter generator can raise while pulling a block. */
  datatype FilterError = ZeroDivisionError

  /** What one `next()` on a filter generator gives: a block, StopIteration, or a raised error. */
  datatype Pull = Yield(block: Block) | Stop | Fault(error: FilterError)

  /** The `Wn` argument `cutoff / (samplerate / 2.)` passed to `butter`, or None
      where Python raises ZeroDivisionError. */
  function NormalisedCutoff(cutoff: real, samplerate: real): (wn: Option<real>)
    ensures wn.None? <==> samplerate == 0.0
    ensures wn.Some? ==> wn.value * samplerate == 2.0 * cutoff
  {
    if samplerate == 0.0 then None else Some(cutoff / (samplerate / 2.0))
  }

  /** What `list(islice(f.blocks(), n))` returns for a fresh low-pass generator
      whose source streams `s`: the first `Count(s, n)` source blocks, each
      filtered on its own, or the ZeroDivisionError raised on the first pull
      that found a block. The generator pulls no block before it is asked for one. */
  function FilteredTake(s: Stream, n: nat, wn: Option<real>, zeroPhase: ZeroPhaseLowpass)
    : (r: Result<seq<Block>, FilterError>)
    ensures r.Err? <==> Count(s, n) > 0 && wn.None?
    ensures r.Ok? ==> |r.value| == Count(s, n)
    ensures r.Ok? ==> forall i :: 0 <= i < |r.value| ==> r.value[i] == zeroPhase(wn.value, Get(s, i))
  {
    if Count(s, n) == 0 then Ok([])
    else match wn
      case None => Err(ZeroDivisionError)
      case Some(w) => Ok(Take(MapStream(s, b => zeroPhase(w, b)), n))
  }

  /** The length rule for a drained filter: with blocks of `size` samples and a
      length-preserving transform, the flat output holds `Count(s, n) * size`
      samples, never more than `n * size`, none when `n == 0`, and exactly
      `n * size` from an endless source. */
  lemma FilteredLength(s: Stream, n: nat, wn: Option<real>, zeroPhase: ZeroPhaseLowpass, size: nat)
    requires Uniform(s, size) && PreservesLength(zeroPhase)
    requires FilteredTake(s, n, wn, zeroPhase).Ok?
    ensures |Concat(FilteredTake(s, n, wn, zeroPhase).value)| == Count(s, n) * size <= n * size
    ensures n == 0 ==> Concat(FilteredTake(s, n, wn, zeroPhase).value) == []
    ensures s.Endless? ==> |Concat(FilteredTake(s, n, wn, zeroPhase).value)| == n * size
  {
    var bs := FilteredTake(s, n, wn, zeroPhase).value;
    forall i | 0 <= i < |bs| ensures |bs[i]| == size {
      assert Has(s, i);
    }
    ConcatLength(bs, size);
    assert Count(s, n) * size <= n * size by {
      MulMono(Count(s, n), n, size);
    }
  }

  lemma MulMono(a: nat, b: nat, c: nat)
    requires a <= b
    ensures a * c <= b * c
  {}

  /** The filter is a per-block map: taking from the filtered stream is the
      same as filtering what is taken from the source, block for block. */
  lemma TakeMapStream(s: Stream, f: Block -> Block, n: nat)
    ensures |Take(MapStream(s, f), n)| == |Take(s, n)|
    ensures forall i :: 0 <= i < |Take(s, n)| ==> Take(MapStream(s, f), n)[i] == f(Take(s, n)[i])
  {
  }

  // ---------------------------------------------------------------------
  // The upstream generator
  // ---------------------------------------------------------------------

  /** A live upstream generator, the object `source.blocks()` returns: `next()`
      hands out the stream's blocks in order and raises StopIteration once they
      run out, for ever after. */
  class Generator {
    const stream: Stream
    /** How many blocks it has handed out. */
    var pos: nat

    constructor (s: Stream)
      ensures stream == s && pos == 0
    {
      stream := s;
      pos := 0;
    }

    /** `next(gen)`: `Some(block)`, or `None` for StopIteration. */
    method Next() returns (b: Option<Block>)
      modifies this
      ensures old(Has(stream, pos)) ==> b == Some(Get(stream, old(pos))) && pos == old(pos) + 1
      ensures !old(Has(stream, pos)) ==> b == None && pos == old(pos)
    {
      if Has(stream, pos) {
        b := Some(Get(stream, pos));
        pos := pos + 1;
      } else {
        b := None;
      }
    }
  }
}
