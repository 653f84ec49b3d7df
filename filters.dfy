/** The stand-alone low-pass filter of filters.py: the same stream map as the
    one in src/synth.py, plus a frequency ratio computed per block and never used. */
module Filters {
  import opened Streams

  /** A low-pass filter over one upstream source. */
  class LowPassFilter {
    /** `self.sources[0]`, as the blocks its `blocks()` produces. */
    const source: Stream
    var cutoff: real
    /** Supplied by the `Filter` base class; the constructor never assigns it. */
    var samplerate: real
    const zeroPhase: ZeroPhaseLowpass

    /** Stores `cutoff` and nothing else: the `samplerate` argument is dropped
        and no cutoff is checked, so any real is accepted here.
        `inheritedRate` is the rate the base class sets. */
    constructor (source: Stream, cutoff: real, samplerate: real, inheritedRate: real, zeroPhase: ZeroPhaseLowpass)
      ensures this.source == source && this.cutoff == cutoff
      ensures this.samplerate == inheritedRate && this.zeroPhase == zeroPhase
    {
      this.source := source;
      this.cutoff := cutoff;
      this.samplerate := inheritedRate;
      this.zeroPhase := zeroPhase;
    }

    /** `blocks()`: a fresh generator that has pulled nothing yet. */
    method Blocks() returns (g: LowPassBlocks)
      ensures fresh(g) && fresh(g.upstream)
      ensures g.owner == this && g.upstream.stream == source && g.upstream.pos == 0
      ensures !g.done && g.Emitted == [] && g.Valid()
    {
      var upstream := new Generator(source);
      g := new LowPassBlocks(this, upstream);
    }
  }

  /** A live `LowPassFilter.blocks()` generator. */
  class LowPassBlocks {
    const owner: LowPassFilter
    /** `source_blocks`, the upstream generator it drains. */
    const upstream: Generator
    /** The generator has returned or raised, so every later `next()` is StopIteration. */
    var done: bool
    /** The blocks yielded so far, in order. */
    ghost var Emitted: seq<Block>
    /** The generator ended by raising rather than by StopIteration. */
    ghost var Faulted: bool

    /** What has been yielded is the upstream prefix pulled so far, one block
        out per block in and in the same order, each filtered on its own under
        the filter's design; the generator ended only because upstream did,
        or by raising on the very first block pulled. */
    ghost predicate Valid()
      reads this, upstream, owner
    {
      var wn := NormalisedCutoff(owner.cutoff, owner.samplerate);
      && (Faulted ==> done && Emitted == [] && wn.None? && upstream.pos == 1 && Has(upstream.stream, 0))
      && (!Faulted ==> upstream.pos == |Emitted|)
      && (!Faulted && done ==> !Has(upstream.stream, upstream.pos))
      && (wn.None? ==> Emitted == [])
      && (wn.Some? ==> forall j :: 0 <= j < |Emitted| ==>
            Has(upstream.stream, j) && Emitted[j] == owner.zeroPhase(wn.value, Get(upstream.stream, j)))
    }

    constructor (owner: LowPassFilter, upstream: Generator)
      requires upstream.pos == 0
      ensures this.owner == owner && this.upstream == upstream && !done && Emitted == [] && Valid()
    {
      this.owner := owner;
      this.upstream := upstream;
      done := false;
      Emitted := [];
      Faulted := false;
    }

    /** One `next()`: pull exactly one upstream block and yield it filtered on
        its own, with the design taken from the filter's current cutoff and
        rate; end for good when upstream ends; pull nothing once ended. The
        unused ratio `cutoff / samplerate` has no bearing on the block yielded. */
    method Next() returns (r: Pull)
      requires Valid()
      modifies this, upstream
      ensures Valid()
      ensures old(done) ==> r == Stop && done && upstream.pos == old(upstream.pos)
      ensures !old(done) && !Has(upstream.stream, old(upstream.pos)) ==>
                r == Stop && done && upstream.pos == old(upstream.pos)
      ensures !old(done) && Has(upstream.stream, old(upstream.pos)) ==>
                && upstream.pos == old(upstream.pos) + 1
                && done == r.Fault?
                && r == match NormalisedCutoff(owner.cutoff, owner.samplerate)
                        case None => Fault(ZeroDivisionError)
                        case Some(wn) => Yield(owner.zeroPhase(wn, Get(upstream.stream, old(upstream.pos))))
      ensures Emitted == if r.Yield? then old(Emitted) + [r.block] else old(Emitted)
    {
      if done {
        return Stop;
      }
      var block := upstream.Next();
      match block
      case None =>
        done := true;
        r := Stop;
      case Some(b) =>
        if owner.samplerate == 0.0 {
          // `cutoff / samplerate` raises before the design is reached
          done := true;
          Faulted := true;
          r := Fault(ZeroDivisionError);
        } else {
          var freqRatio := owner.cutoff / owner.samplerate;
          var wn := owner.cutoff / (owner.samplerate / 2.0);
          r := Yield(owner.zeroPhase(wn, b));
          Emitted := Emitted + [r.block];
        }
    }
  }
}
