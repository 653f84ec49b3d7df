/** The two-oscillator synth of src/synth.py: its parameter state, the chain
    oscillators -> mixer -> low-pass filter it wires up per sound, and the
    bounded drain of that chain into one flat sample array. */
module Synth {
  import opened Wrappers
  import opened Streams

  // ---------------------------------------------------------------------
  // Waveform tables
  // ---------------------------------------------------------------------

  /** The synthplayer oscillator classes the two lookup tables name. */
  datatype Waveform = Sine | Triangle | Square | SquareH | Sawtooth | Pulse | WhiteNoise | Semicircle

  /** The key each waveform has in the tables. */
  function Name(w: Waveform): string {
    match w
    case Sine => "Sine"
    case Triangle => "Triangle"
    case Square => "Square"
    case SquareH => "SquareH"
    case Sawtooth => "Sawtooth"
    case Pulse => "Pulse"
    case WhiteNoise => "WhiteNoise"
    case Semicircle => "Semicircle"
  }

  /** `osc_1_options`: every waveform except white noise. */
  const OSC_1_OPTIONS: map<string, Waveform> :=
    map["Sine" := Sine, "Triangle" := Triangle, "Square" := Square, "SquareH" := SquareH,
        "Sawtooth" := Sawtooth, "Pulse" := Pulse, "Semicircle" := Semicircle]

  /** `osc_2_options`: every waveform. */
  const OSC_2_OPTIONS: map<string, Waveform> :=
    map["Sine" := Sine, "Triangle" := Triangle, "Square" := Square, "SquareH" := SquareH,
        "Sawtooth" := Sawtooth, "Pulse" := Pulse, "WhiteNoise" := WhiteNoise, "Semicircle" := Semicircle]

  /** `osc_1_options[name]`, None where Python raises KeyError: it finds exactly
      the waveform called `name`, and accepts every name but "WhiteNoise". */
  function Osc1Lookup(name: string): (r: Option<Waveform>)
    ensures r.Some? ==> Name(r.value) == name && r.value != WhiteNoise
    ensures r.None? ==> forall w :: Name(w) == name ==> w == WhiteNoise
  {
    if name in OSC_1_OPTIONS then Some(OSC_1_OPTIONS[name]) else None
  }

  /** `osc_2_options[name]`, None where Python raises KeyError: it finds exactly
      the waveform called `name`, for every waveform. */
  function Osc2Lookup(name: string): (r: Option<Waveform>)
    ensures r.Some? ==> Name(r.value) == name
    ensures r.None? ==> forall w :: Name(w) != name
  {
    if name in OSC_2_OPTIONS then Some(OSC_2_OPTIONS[name]) else None
  }

  /** The second table extends the first by white noise and nothing else. */
  lemma Osc2ExtendsOsc1(name: string)
    ensures Osc1Lookup(name).Some? ==> Osc2Lookup(name) == Osc1Lookup(name)
    ensures Osc1Lookup(name).None? && Osc2Lookup(name).Some? <==> name == "WhiteNoise"
  {
  }

  // ---------------------------------------------------------------------
  // Parameter state and set_parameters
  // ---------------------------------------------------------------------

  /** The keyword arguments `set_parameters` recognises; None is "not passed". */
  datatype Options = Options(osc1: Option<string>, osc2: Option<string>,
                             amp1: Option<real>, amp2: Option<real>,
                             phase1: Option<real>, cutoff: Option<real>)

  /** A call with no keyword arguments, as the constructor makes it. */
  const NO_OPTIONS := Options(None, None, None, None, None, None)

  /** The parameter fields of a Synth object. */
  datatype Params = Params(osc1Name: string, osc1: Waveform, osc2Name: string, osc2: Waveform,
                           amp1: real, amp2: real, phase1: real, cutoff: real)

  /** The fields after a call that passes nothing. */
  const DEFAULTS := Params("Sine", Sine, "Sine", Sine, 0.5, 0.5, 0.0, 10000.0)

  /** The exceptions `set_parameters` can raise: KeyError from a table lookup, and
      the ZeroDivisionError `_normalise_amp` raises when the weights sum to 0. */
  datatype SetError = KeyError(name: string) | ZeroAmplitudeSum

  /** The fields after `set_parameters(**o)` on fields `p`, and the exception it
      raised if any. Each assignment happens in source order, so a raise leaves
      the assignments made before it in place. */
  function ApplyOptions(p: Params, o: Options): (Params, Option<SetError>) {
    var name1 := o.osc1.GetOr("Sine");
    var p1 := p.(osc1Name := name1);
    match Osc1Lookup(name1)
    case None => (p1, Some(KeyError(name1)))
    case Some(w1) =>
      var name2 := o.osc2.GetOr("Sine");
      var p2 := p1.(osc1 := w1, osc2Name := name2);
      match Osc2Lookup(name2)
      case None => (p2, Some(KeyError(name2)))
      case Some(w2) =>
        var p3 := p2.(osc2 := w2, amp1 := o.amp1.GetOr(0.5), amp2 := o.amp2.GetOr(0.5),
                      phase1 := o.phase1.GetOr(0.0));
        if p3.amp1 + p3.amp2 == 0.0 then (p3, Some(ZeroAmplitudeSum))
        else
          var a1 := p3.amp1 / (p3.amp1 + p3.amp2);
          (p3.(amp1 := a1, amp2 := 1.0 - a1, cutoff := o.cutoff.GetOr(10000.0)), None)
  }

  /** After a successful call the amplitudes sum to 1 and each is its supplied
      weight (0.5 when not passed) divided by the sum of both weights. */
  lemma SetNormalises(p: Params, o: Options)
    requires ApplyOptions(p, o).1.None?
    ensures ApplyOptions(p, o).0.amp1 + ApplyOptions(p, o).0.amp2 == 1.0
    ensures ApplyOptions(p, o).0.amp1 == o.amp1.GetOr(0.5) / (o.amp1.GetOr(0.5) + o.amp2.GetOr(0.5))
    ensures ApplyOptions(p, o).0.amp2 == o.amp2.GetOr(0.5) / (o.amp1.GetOr(0.5) + o.amp2.GetOr(0.5))
  {
    var a1, a2 := o.amp1.GetOr(0.5), o.amp2.GetOr(0.5);
    assert 1.0 - a1 / (a1 + a2) == a2 / (a1 + a2) by {
      assert a1 / (a1 + a2) + a2 / (a1 + a2) == (a1 + a2) / (a1 + a2);
    }
  }

  /** Every option not passed reverts to its default, and nothing of the prior
      state survives a successful call: the outcome is the same from any fields. */
  lemma SetForgetsPrior(p: Params, q: Params, o: Options)
    requires ApplyOptions(p, o).1.None?
    ensures ApplyOptions(q, o) == ApplyOptions(p, o)
    ensures ApplyOptions(p, o).0.osc1Name == o.osc1.GetOr("Sine")
    ensures ApplyOptions(p, o).0.osc2Name == o.osc2.GetOr("Sine")
    ensures ApplyOptions(p, o).0.phase1 == o.phase1.GetOr(0.0)
    ensures ApplyOptions(p, o).0.cutoff == o.cutoff.GetOr(10000.0)
  {
  }

  /** A call that passes nothing always succeeds and leaves exactly the defaults. */
  lemma SetDefaults(p: Params)
    ensures ApplyOptions(p, NO_OPTIONS) == (DEFAULTS, None)
  {
  }

  /** When the call raises, and which fields it has already overwritten:
      an unknown first name has replaced only `osc1Name`; an unknown second
      name `osc1Name`, `osc1` and `osc2Name`; a zero weight sum everything but
      `cutoff`, leaving the raw weights unnormalised. */
  lemma SetFailsMidway(p: Params, o: Options)
    ensures var name1, name2 := o.osc1.GetOr("Sine"), o.osc2.GetOr("Sine");
            var a1, a2 := o.amp1.GetOr(0.5), o.amp2.GetOr(0.5);
            var (r, err) := ApplyOptions(p, o);
            && (Osc1Lookup(name1).None? ==> r == p.(osc1Name := name1) && err == Some(KeyError(name1)))
            && (Osc1Lookup(name1).Some? && Osc2Lookup(name2).None? ==>
                  r == p.(osc1Name := name1, osc1 := Osc1Lookup(name1).value, osc2Name := name2)
                  && err == Some(KeyError(name2)))
            && (Osc1Lookup(name1).Some? && Osc2Lookup(name2).Some? && a1 + a2 == 0.0 ==>
                  r == Params(name1, Osc1Lookup(name1).value, name2, Osc2Lookup(name2).value,
                              a1, a2, o.phase1.GetOr(0.0), p.cutoff)
                  && err == Some(ZeroAmplitudeSum))
            && (err.None? <==> Osc1Lookup(name1).Some? && Osc2Lookup(name2).Some? && a1 + a2 != 0.0)
  {
  }

  /** White noise is refused for the first voice and accepted for the second. */
  lemma WhiteNoiseOnlySecond(p: Params, o: Options)
    ensures o.osc1 == Some("WhiteNoise") ==> ApplyOptions(p, o).1 == Some(KeyError("WhiteNoise"))
    ensures o.osc2 == Some("WhiteNoise") && Osc1Lookup(o.osc1.GetOr("Sine")).Some?
            && o.amp1.GetOr(0.5) + o.amp2.GetOr(0.5) != 0.0
            ==> ApplyOptions(p, o).1.None? && ApplyOptions(p, o).0.osc2 == WhiteNoise
  {
  }

  /** `set_parameters(osc_1='Square', amp_1=0.2, amp_2=0.3)` gives weights 0.4 and 0.6. */
  lemma SquareScenario(p: Params)
    ensures ApplyOptions(p, Options(Some("Square"), None, Some(0.2), Some(0.3), None, None))
            == (Params("Square", Square, "Sine", Sine, 0.4, 0.6, 0.0, 10000.0), None)
  {
  }

  /** The record `get_parameters` returns. */
  datatype Parameters = Parameters(osc1: string, osc2: string, amp1: real, amp2: real,
                                   phase1: real, cutoff: real)

  // ---------------------------------------------------------------------
  // The foreign parts of the chain
  // ---------------------------------------------------------------------

  type PositiveSize = n: nat | n > 0 witness 1

  /** The arguments one oscillator is constructed with; `phase` is None where
      the call does not pass one, so the class's own default applies. */
  datatype OscillatorCall = OscillatorCall(kind: Waveform, note: real, amplitude: real,
                                           phase: Option<real>, samplerate: nat)

  /** The synthplayer code the synth wires together, which this model does not see. */
  datatype Library = Library(
    /** The blocks of `kind(note, amplitude=…, phase=…, samplerate=…)`. */
    oscillator: OscillatorCall -> Stream,
    /** The blocks of `MixingFilter(osc1, osc2)`. */
    mixing: (Stream, Stream) -> Stream,
    /** scipy's `filtfilt(*butter(4, wn, 'low'), block)`. */
    zeroPhase: ZeroPhaseLowpass,
    /** The `samplerate` attribute the `Filter` base class gives the low-pass filter. */
    filterRate: real,
    /** `params.norm_osc_blocksize`. */
    blocksize: PositiveSize)

  /** Oscillator 1: kind `osc1`, weight `amp1`, phase `phase1`. */
  function Voice1(p: Params, sr: nat, note: real): OscillatorCall {
    OscillatorCall(p.osc1, note, p.amp1, Some(p.phase1), sr)
  }

  /** Oscillator 2: kind `osc2`, weight `amp2`, no phase argument. */
  function Voice2(p: Params, sr: nat, note: real): OscillatorCall {
    OscillatorCall(p.osc2, note, p.amp2, None, sr)
  }

  /** The mixer's blocks: what the low-pass filter `_hookup_modules` builds reads. */
  function Chain(p: Params, sr: nat, note: real, lib: Library): Stream {
    lib.mixing(lib.oscillator(Voice1(p, sr, note)), lib.oscillator(Voice2(p, sr, note)))
  }

  /** After a successful `set_parameters` the two voices' weights sum to 1,
      both run at the synth's rate, and only the first is given a phase. */
  lemma VoicesAfterSet(p: Params, o: Options, sr: nat, note: real)
    requires ApplyOptions(p, o).1.None?
    ensures var q := ApplyOptions(p, o).0;
            && Voice1(q, sr, note).amplitude + Voice2(q, sr, note).amplitude == 1.0
            && Voice1(q, sr, note).phase == Some(o.phase1.GetOr(0.0))
            && Voice2(q, sr, note).phase.None?
            && Voice1(q, sr, note).samplerate == Voice2(q, sr, note).samplerate == sr
  {
    SetNormalises(p, o);
  }

  /** `_get_raw_data_from_obj` once islice has run: the flattened blocks, or the error raised. */
  function Flatten(taken: Result<seq<Block>, FilterError>): Result<seq<real>, FilterError> {
    match taken
    case Ok(bs) => Ok(Concat(bs))
    case Err(e) => Err(e)
  }

  /** What `get_sound_array(note, duration)` returns from fields `p`: the first
      `sr * duration // blocksize` blocks of the chain, each low-passed alone, flattened. */
  function Sound(p: Params, sr: nat, note: real, duration: nat, lib: Library): Result<seq<real>, FilterError> {
    Flatten(FilteredTake(Chain(p, sr, note, lib), sr * duration / lib.blocksize,
                         NormalisedCutoff(p.cutoff, lib.filterRate), lib.zeroPhase))
  }

  /** The sound's length is a whole number of blocks, never more than
      `sr * duration // blocksize` of them (so never more than `sr * duration`
      samples), exactly that many from an endless chain, and zero when
      `sr * duration < blocksize`; the only error is a zero filter rate. */
  lemma SoundLength(p: Params, sr: nat, note: real, duration: nat, lib: Library)
    requires Uniform(Chain(p, sr, note, lib), lib.blocksize as nat) && PreservesLength(lib.zeroPhase)
    ensures Sound(p, sr, note, duration, lib).Err? ==> lib.filterRate == 0.0
    ensures Sound(p, sr, note, duration, lib).Ok? ==>
              var k := Count(Chain(p, sr, note, lib), sr * duration / lib.blocksize);
              && |Sound(p, sr, note, duration, lib).value| == k * lib.blocksize
              && k * lib.blocksize <= (sr * duration / lib.blocksize) * lib.blocksize <= sr * duration
    ensures Sound(p, sr, note, duration, lib).Ok? && sr * duration < lib.blocksize ==>
              Sound(p, sr, note, duration, lib).value == []
    ensures Sound(p, sr, note, duration, lib).Ok? && Chain(p, sr, note, lib).Endless? ==>
              |Sound(p, sr, note, duration, lib).value| == (sr * duration / lib.blocksize) * lib.blocksize
  {
    var s, n := Chain(p, sr, note, lib), sr * duration / lib.blocksize;
    var wn := NormalisedCutoff(p.cutoff, lib.filterRate);
    if FilteredTake(s, n, wn, lib.zeroPhase).Ok? {
      FilteredLength(s, n, wn, lib.zeroPhase, lib.blocksize);
      assert n * lib.blocksize <= sr * duration by {
        FloorDivMul(sr * duration, lib.blocksize);
      }
    }
  }

  lemma FloorDivMul(a: nat, b: PositiveSize)
    ensures (a / b) * b <= a
  {
  }

  // ---------------------------------------------------------------------
  // LowPassFilter (src/synth.py)
  // ---------------------------------------------------------------------

  /** A low-pass filter over one upstream source. */
  class LowPassFilter {
    /** `self.sources[0]`, as the blocks its `blocks()` produces. */
    const source: Stream
    var cutoff: real
    /** Supplied by the `Filter` base class; the constructor never assigns it. */
    var samplerate: real
    const zeroPhase: ZeroPhaseLowpass

    /** Stores `cutoff` and nothing else: the `samplerate` argument is dropped
        and no cutoff is checked. `inheritedRate` is the rate the base class sets. */
    constructor (source: Stream, cutoff: real, samplerate: real, inheritedRate: real, zeroPhase: ZeroPhaseLowpass)
      ensures this.source == source && this.cutoff == cutoff
      ensures this.samplerate == inheritedRate && this.zeroPhase == zeroPhase
    {
      this.source := source;
      this.cutoff := cutoff;
      this.samplerate := inheritedRate;
      this.zeroPhase := zeroPhase;
    }

    /** `blocks()`: a fresh generator that has pulled nothing yet. */
    method Blocks() returns (g: LowPassBlocks)
      ensures fresh(g) && fresh(g.upstream)
      ensures g.owner == this && g.upstream.stream == source && g.upstream.pos == 0 && !g.done
    {
      var upstream := new Generator(source);
      g := new LowPassBlocks(this, upstream);
    }
  }

  /** A live `LowPassFilter.blocks()` generator. */
  class LowPassBlocks {
    const owner: LowPassFilter
    /** `source_blocks`, the upstream generator it drains. */
    const upstream: Generator
    /** The generator has returned or raised, so every later `next()` is StopIteration. */
    var done: bool

    constructor (owner: LowPassFilter, upstream: Generator)
      ensures this.owner == owner && this.upstream == upstream && !done
    {
      this.owner := owner;
      this.upstream := upstream;
      done := false;
    }

    /** One `next()`: pull exactly one upstream block and yield it filtered on
        its own, with the design taken from the filter's current cutoff and
        rate; end for good when upstream ends; pull nothing once ended. */
    method Next() returns (r: Pull)
      modifies this, upstream
      ensures old(done) ==> r == Stop && done && upstream.pos == old(upstream.pos)
      ensures !old(done) && !Has(upstream.stream, old(upstream.pos)) ==>
                r == Stop && done && upstream.pos == old(upstream.pos)
      ensures !old(done) && Has(upstream.stream, old(upstream.pos)) ==>
                && upstream.pos == old(upstream.pos) + 1
                && done == r.Fault?
                && r == match NormalisedCutoff(owner.cutoff, owner.samplerate)
                        case None => Fault(ZeroDivisionError)
                        case Some(wn) => Yield(owner.zeroPhase(wn, Get(upstream.stream, old(upstream.pos))))
    {
      if done {
        return Stop;
      }
      var block := upstream.Next();
      match block
      case None =>
        done := true;
        r := Stop;
      case Some(b) =>
        if owner.samplerate == 0.0 {
          done := true;
          r := Fault(ZeroDivisionError);
        } else {
          var wn := owner.cutoff / (owner.samplerate / 2.0);
          r := Yield(owner.zeroPhase(wn, b));
        }
    }
  }

  /** `list(itertools.islice(g, n))`: at most `n` pulls, stopping at the first
      StopIteration and propagating the first error. */
  method Islice(g: LowPassBlocks, n: nat) returns (r: Result<seq<Block>, FilterError>)
    modifies g, g.upstream
    ensures old(g.done) ==> r == Ok([])
    ensures !old(g.done) ==>
              r == FilteredTake(Drop(g.upstream.stream, old(g.upstream.pos)), n,
                                NormalisedCutoff(g.owner.cutoff, g.owner.samplerate), g.owner.zeroPhase)
    ensures old(g.upstream.pos) <= g.upstream.pos <= old(g.upstream.pos) + n
    ensures r.Ok? ==> g.upstream.pos == old(g.upstream.pos) + |r.value|
    ensures r.Err? ==> g.done && g.upstream.pos == old(g.upstream.pos) + 1
    ensures r.Ok? && |r.value| < n ==> g.done
  {
    ghost var wasDone := g.done;
    ghost var p0 := g.upstream.pos;
    ghost var s := Drop(g.upstream.stream, p0);
    ghost var wn := NormalisedCutoff(g.owner.cutoff, g.owner.samplerate);
    var blocks: seq<Block> := [];
    var i := 0;
    var stopped := false;
    while i < n && !stopped
      invariant i <= n && |blocks| == i
      invariant wasDone ==> g.done && i == 0 && g.upstream.pos == p0
      invariant stopped ==> g.done
      invariant !wasDone ==> g.upstream.pos == p0 + i
      invariant !wasDone && !stopped ==> !g.done
      invariant stopped && !wasDone ==> !Has(s, i)
      invariant forall j :: 0 <= j < i ==> Has(s, j)
      invariant wn.None? ==> i == 0
      invariant wn.Some? ==> forall j :: 0 <= j < i ==> blocks[j] == g.owner.zeroPhase(wn.value, Get(s, j))
      decreases n - i, if stopped then 0 else 1
    {
      var pulled := g.Next();
      match pulled
      case Yield(b) =>
        blocks := blocks + [b];
        i := i + 1;
      case Stop =>
        stopped := true;
      case Fault(e) =>
        assert wn.None? && i == 0;
        return Err(e);
    }
    r := Ok(blocks);
    if !wasDone {
      assert Count(s, n) == i;
      if wn.Some? {
        ghost var taken := FilteredTake(s, n, wn, g.owner.zeroPhase);
        assert taken.Ok? && |taken.value| == i;
        assert forall j :: 0 <= j < i ==> taken.value[j] == blocks[j];
        assert taken.value == blocks;
      }
    }
  }

  /** A generator that starts from the first block sees the whole stream. */
  lemma FilteredTakeFromStart(s: Stream, n: nat, wn: Option<real>, zeroPhase: ZeroPhaseLowpass)
    ensures FilteredTake(Drop(s, 0), n, wn, zeroPhase) == FilteredTake(s, n, wn, zeroPhase)
  {
    var d := Drop(s, 0);
    assert Count(d, n) == Count(s, n) by {
      match s
      case Finite(items) => assert items[0..] == items;
      case Endless(_) =>
    }
    var left, right := FilteredTake(d, n, wn, zeroPhase), FilteredTake(s, n, wn, zeroPhase);
    if left.Ok? {
      assert forall i :: 0 <= i < |left.value| ==> left.value[i] == right.value[i];
      assert left.value == right.value;
    }
  }

  // ---------------------------------------------------------------------
  // Synth
  // ---------------------------------------------------------------------

  class Synth {
    var sr: nat
    var osc1Name: string
    var osc1: Waveform
    var osc2Name: string
    var osc2: Waveform
    var amp1: real
    var amp2: real
    var phase1: real
    var cutoff: real
    /** The low-pass filter of the last chain built, `self.out`. */
    var out: LowPassFilter?

    /** The parameter fields. */
    function State(): Params
      reads this
    {
      Params(osc1Name, osc1, osc2Name, osc2, amp1, amp2, phase1, cutoff)
    }

    /** `Synth(sr)`: stores the rate and runs `set_parameters()` with no arguments. */
    constructor (sr: nat := 44100)
      ensures this.sr == sr && State() == DEFAULTS && out == null
    {
      this.sr := sr;
      out := null;
      new;
      ghost var before := State();
      var err := SetParameters(NO_OPTIONS);
      SetDefaults(before);
    }

    /** `set_parameters(**o)`: assigns field by field, raising KeyError for an
        unknown waveform name and ZeroDivisionError for a zero weight sum. */
    method SetParameters(o: Options) returns (err: Option<SetError>)
      modifies this
      ensures (State(), err) == ApplyOptions(old(State()), o)
      ensures err.None? ==> amp1 + amp2 == 1.0
      ensures sr == old(sr) && out == old(out)
    {
      osc1Name := o.osc1.GetOr("Sine");
      var w1 := Osc1Lookup(osc1Name);
      if w1.None? {
        return Some(KeyError(osc1Name));
      }
      osc1 := w1.value;
      osc2Name := o.osc2.GetOr("Sine");
      var w2 := Osc2Lookup(osc2Name);
      if w2.None? {
        return Some(KeyError(osc2Name));
      }
      osc2 := w2.value;
      amp1 := o.amp1.GetOr(0.5);
      amp2 := o.amp2.GetOr(0.5);
      phase1 := o.phase1.GetOr(0.0);
      err := NormaliseAmp();
      if err.Some? {
        return;
      }
      cutoff := o.cutoff.GetOr(10000.0);
      SetNormalises(old(State()), o);
    }

    /** `_normalise_amp()`: rescale the two weights so that they sum to 1;
        ZeroDivisionError, with nothing changed, when they sum to 0. */
    method NormaliseAmp() returns (err: Option<SetError>)
      modifies this`amp1, this`amp2
      ensures old(amp1 + amp2) == 0.0 ==> err == Some(ZeroAmplitudeSum) && amp1 == old(amp1) && amp2 == old(amp2)
      ensures old(amp1 + amp2) != 0.0 ==>
                && err.None?
                && amp1 == old(amp1) / old(amp1 + amp2)
                && amp2 == 1.0 - amp1
                && amp1 + amp2 == 1.0
    {
      if amp1 + amp2 == 0.0 {
        return Some(ZeroAmplitudeSum);
      }
      amp1 := amp1 / (amp1 + amp2);
      amp2 := 1.0 - amp1;
      err := None;
    }

    /** `get_parameters()`: the names, weights, phase and cutoff as stored. */
    function GetParameters(): (r: Parameters)
      reads this
      ensures r.osc1 == osc1Name && r.osc2 == osc2Name
      ensures r.amp1 == amp1 && r.amp2 == amp2 && r.phase1 == phase1 && r.cutoff == cutoff
    {
      Parameters(osc1Name, osc2Name, amp1, amp2, phase1, cutoff)
    }

    /** `_hookup_modules(note)`: a fresh filter over the mix of the two voices. */
    method HookupModules(note: real, lib: Library)
      modifies this`out
      ensures fresh(out)
      ensures out.source == Chain(State(), sr, note, lib)
      ensures out.cutoff == cutoff && out.samplerate == lib.filterRate && out.zeroPhase == lib.zeroPhase
    {
      var osc1Blocks := lib.oscillator(OscillatorCall(osc1, note, amp1, Some(phase1), sr));
      var osc2Blocks := lib.oscillator(OscillatorCall(osc2, note, amp2, None, sr));
      var mix := lib.mixing(osc1Blocks, osc2Blocks);
      out := new LowPassFilter(mix, cutoff, sr as real, lib.filterRate, lib.zeroPhase);
    }

    /** `_get_raw_data_from_obj(obj, duration)`: drain `sr * duration // blocksize`
        blocks at most from a fresh generator of `obj` and flatten them. */
    method GetRawData(obj: LowPassFilter, duration: nat, blocksize: PositiveSize)
      returns (r: Result<seq<real>, FilterError>)
      ensures r == Flatten(FilteredTake(obj.source, sr * duration / blocksize,
                                        NormalisedCutoff(obj.cutoff, obj.samplerate), obj.zeroPhase))
    {
      var numBlocks := sr * duration / blocksize;
      var g := obj.Blocks();
      var taken := Islice(g, numBlocks);
      FilteredTakeFromStart(obj.source, numBlocks, NormalisedCutoff(obj.cutoff, obj.samplerate), obj.zeroPhase);
      r := Flatten(taken);
    }

    /** `get_sound_array(note, duration)`: rebuild the chain, then drain it.
        The parameter fields are left as they were. */
    method GetSoundArray(lib: Library, note: real := 440.0, duration: nat := 1)
      returns (r: Result<seq<real>, FilterError>)
      modifies this`out
      ensures fresh(out)
      ensures State() == old(State()) && sr == old(sr)
      ensures r == Sound(State(), sr, note, duration, lib)
    {
      HookupModules(note, lib);
      r := GetRawData(out, duration, lib.blocksize);
    }
  }
}
