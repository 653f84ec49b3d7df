# Sound-matching synth, filters and experiment logger in Dafny

This project models the deterministic core of a small sound-matching system.
It has three parts.

- **The synth**, `src/synth.py`. A `Synth` object holds its parameters:
  - two waveform kinds, looked up by name in two closed tables;
  - two amplitude weights, normalised to sum to 1;
  - a phase for the first oscillator;
  - a low-pass cutoff.

  `get_sound_array` wires two oscillators into a mixer and the mixer into a
  low-pass filter. It then drains `sr * duration // blocksize` blocks at most
  from the filter and flattens them into one sample array.
- **The filter**. `LowPassFilter.blocks` is a pull generator. It takes one
  upstream block at a time and yields that block passed through a zero-phase
  Butterworth low-pass.
- **The stand-alone filter**, `filters.py`. A copy of the same filter, which
  also computes a frequency ratio it never uses.
- **The experiment logger**, `src/logger.py`. This is a state machine over a
  log dictionary:
  - a list of targets, each holding its runs;
  - the current target;
  - three metrics, each a mean of per-target means.

How the model is laid out:

- `wrappers.dfy`: Option and Result. These stand for missing keyword arguments
  and raised exceptions.
- `streams.dfy`: the block-stream abstraction shared by both filters. A Python
  generator is modelled by the sequence of blocks it would hand out, finite or
  endless (`Stream`). A live generator is a class with a `Next` method. It
  also holds `Count`/`Take` for `islice`, `Concat` for `flatten`, and
  `FilteredTake`, which is what draining a fresh low-pass generator returns.
- `synth.dfy`: the waveform tables and the `Synth` class. `ApplyOptions` is
  the function that specifies `set_parameters`, step by step and in source
  order. The file also holds the synth's `LowPassFilter` and its generator,
  and `Islice`, the bounded pull loop.
- `filters.dfy` models `filters.py`. Its generator carries a ghost history
  of what it has yielded, so every pull is proved to preserve a stream-map
  invariant. The synth's own copy of the filter has no such history. The only
  caller of its generator is the bounded drain, and `Islice` is proved equal
  to `FilteredTake` outright, which states the same one-block-per-block,
  in-order property for the whole drain.
- `logger.dfy`: the `Logger` class, with `log` as a `map<string, Value>` and
  the metric loops as methods. The functions that specify them
  (`MeanOfMeans`, `EvaluationsPerRunOf`, `MetricsOf`, `WithMetrics`) sit
  beside it, with lemmas bounding the metrics.

Three kinds of foreign code are parameters, because the model does not see
them:

- the synthplayer oscillators, the mixer and the block size;
- the `samplerate` attribute the `Filter` base class sets;
- scipy's `butter` + `filtfilt`, which is `ZeroPhaseLowpass`, a function from
  normalised cutoff and block to block.

Four behaviours of the code the model keeps:

- `set_parameters` is not atomic. A failed lookup or a zero weight sum leaves
  the earlier assignments in place (`SetFailsMidway`).
- Options that are not passed go back to their defaults on every call, not
  just the first (`SetForgetsPrior`).
- The filter constructor checks no cutoff. Its `samplerate` argument is dropped
  by a bare `self.samplerate` expression. The design is recomputed for every
  pulled block, so a zero rate surfaces only as a ZeroDivisionError on the
  first block pulled.
- A chain that runs out early gives a shorter array (`SoundLength`,
  `FilteredLength`).

## Model

| member | source | states |
|---|---|---|
| Synth.Osc1Lookup | src/synth.py:12-20 | the first table finds exactly the waveform with that name, never white noise; a miss (KeyError) happens only for names no waveform has other than "WhiteNoise" |
| Synth.Osc2Lookup | src/synth.py:22-31 | the second table finds exactly the waveform with that name and misses only names no waveform has |
| Synth.Osc2ExtendsOsc1 | src/synth.py:12-31 | the second table agrees with the first wherever the first has a name, and has one extra name, "WhiteNoise" |
| Synth.SetNormalises | src/synth.py:51-54 | after a successful `set_parameters` the weights sum to 1, and each is its supplied weight (0.5 when absent) divided by the sum of both |
| Synth.SetForgetsPrior | src/synth.py:45-55 | a successful call gives the same fields from any prior state; names, phase and cutoff are the passed values or the defaults 'Sine', 'Sine', 0, 10000 |
| Synth.SetDefaults | src/synth.py:43-55 | a call with no options always succeeds and gives exactly the defaults, 'Sine'/'Sine', 0.5/0.5, phase 0, cutoff 10000 |
| Synth.SetFailsMidway | src/synth.py:47-55 | an unknown first name overwrites only `osc_1_name`; an unknown second name overwrites `osc_1_name`, `osc_1` and `osc_2_name`; a zero weight sum overwrites names, waveforms, raw weights and phase but keeps the old cutoff; the call succeeds exactly when both names are known and the weights do not sum to 0 |
| Synth.WhiteNoiseOnlySecond | src/synth.py:47-50 | `osc_1='WhiteNoise'` raises KeyError; `osc_2='WhiteNoise'` is accepted and stored when the rest of the call is valid |
| Synth.SquareScenario | src/synth.py:51-55 | `osc_1='Square', amp_1=0.2, amp_2=0.3` gives 'Square'/'Sine', weights 0.4/0.6, phase 0, cutoff 10000 |
| Synth.VoicesAfterSet | src/synth.py:79-87 | after a successful set, the two oscillators' amplitudes sum to 1, both run at `sr`, oscillator 1 gets `phase_1`, and oscillator 2 gets no phase argument |
| Synth.SoundLength | src/synth.py:68-71 | with fixed-size blocks the sound holds a whole number of blocks: at most `sr*duration // blocksize` of them, exactly that many from an endless chain, none when `sr*duration < blocksize`; the only error is a zero filter rate |
| Synth.LowPassFilter.constructor | src/synth.py:107-111 | stores source and cutoff as given and validates nothing; the rate is the base class's, not the `samplerate` argument |
| Synth.LowPassFilter.Blocks | src/synth.py:113-114 | a fresh generator over a fresh upstream generator that has pulled no block |
| Synth.LowPassBlocks.Next | src/synth.py:113-121 | one `next()` pulls exactly one upstream block; it yields that block filtered alone under `Wn = cutoff/(samplerate/2)`, raises ZeroDivisionError when the rate is 0, or stops for good when upstream stops; once ended it pulls nothing |
| Synth.Islice | src/synth.py:70 | at most `n` pulls, stopping at the first StopIteration and propagating the first error: the upstream advances by the number of blocks returned, never more than `n`; by one and the generator closed on an error; and a short result leaves the generator ended. The result is `FilteredTake` of the stream from the generator's position |
| Synth.FilteredTakeFromStart | src/synth.py:70 | a generator that has pulled nothing sees the whole source stream |
| Synth.Synth.constructor | src/synth.py:35-43 | stores `sr`, runs `set_parameters()` and leaves exactly the defaults |
| Synth.Synth.SetParameters | src/synth.py:45-55 | the new fields and the raised error are those of `ApplyOptions` on the old fields; on success the weights sum to 1 |
| Synth.Synth.NormaliseAmp | src/synth.py:73-77 | rescales the weights to `a1/(a1+a2)` and `1 - a1/(a1+a2)`, which sum to 1; raises with nothing changed when they sum to 0 |
| Synth.Synth.GetParameters | src/synth.py:57-66 | returns exactly the six stored fields and reads nothing else |
| Synth.Synth.HookupModules | src/synth.py:79-89 | builds a fresh filter over the mix of oscillator 1 `(osc_1, amp_1, phase_1, sr)` and oscillator 2 `(osc_2, amp_2, sr)` with the stored cutoff, changing only `out` |
| Synth.Synth.GetRawData | src/synth.py:68-71 | the flattened first `min(sr*duration // blocksize, available)` filtered blocks of the filter's source, in order, or the error raised |
| Synth.Synth.GetSoundArray | src/synth.py:91-100 | rebuilds `out`, leaves every parameter field and `sr` unchanged, and returns `Sound` of the current fields |
| Streams.Count | src/synth.py:70 | `islice` delivers `n` blocks, or fewer only when the stream has no block at the first missing position |
| Streams.Take | src/synth.py:70 | `list(islice(...))` holds exactly the first `Count` blocks, in stream order |
| Streams.Drop | src/synth.py:114-117 | the stream after `p` pulls holds the same blocks, shifted by `p` |
| Streams.MapStream | src/synth.py:116-119 | the per-block map has a block where the source does, and block `i` is `f` of source block `i` |
| Streams.ConcatLength | src/synth.py:71 | flattening `k` blocks of `size` samples gives `k*size` samples |
| Streams.ConcatAt | src/synth.py:71 | flattening keeps order: sample `j` of block `i` lands at `i*size + j` |
| Streams.NormalisedCutoff | src/synth.py:118 | `Wn` is undefined (ZeroDivisionError) exactly when the rate is 0, and otherwise `Wn * samplerate == 2 * cutoff` |
| Streams.FilteredTake | src/synth.py:113-121 | draining a fresh filter for `n` pulls fails exactly when a block exists and the rate is 0; otherwise it gives `Count` blocks, block `i` being the transform of source block `i` alone |
| Streams.FilteredLength | src/synth.py:68-71 | with uniform blocks and a length-preserving transform the flat output has `Count*size <= n*size` samples, none for `n = 0`, exactly `n*size` from an endless source |
| Streams.TakeMapStream | src/synth.py:116-119 | taking from the filtered stream equals filtering what is taken, block for block |
| Streams.Generator.Next | src/synth.py:117 | `next(source_blocks)` hands out the next block and advances by one, or signals StopIteration without moving |
| Filters.LowPassFilter.constructor | filters.py:10-14 | stores source and cutoff, drops the `samplerate` argument, checks no cutoff |
| Filters.LowPassFilter.Blocks | filters.py:16-17 | a fresh generator that has yielded nothing and satisfies the stream-map invariant |
| Filters.LowPassBlocks.Next | filters.py:16-26 | keeps the invariant that yields are one per upstream block, in order, each filtered alone under the same design; ends exactly when upstream ends, or by raising on the first block when the rate is 0; the unused ratio does not affect the block |
| Logging.TargetsOf | src/logger.py:22-23 | `log['targets']` is a target list, a KeyError when absent, or a value the list operations reject |
| Logging.Values | src/logger.py:56 | `[r[key] for r in runs]` keeps length and order |
| Logging.PopSize | src/logger.py:80 | `log['pop_size']` is a KeyError when absent, a number when it is a number or a bool, and a TypeError otherwise |
| Logging.WithMetrics | src/logger.py:47-50 | storing metrics for all targets adds or overwrites only `log['metrics']`; for the last target it changes only that target's `metrics` key, leaving every other key, every other target and its runs as they were |
| Logging.SumBounds | src/logger.py:57 | a sum of `n` values in `[lo, hi]` lies in `[n*lo, n*hi]` |
| Logging.DivideBounds | src/logger.py:59 | dividing such a sum by `n > 0` lands in `[lo, hi]` |
| Logging.MeanBounds | src/logger.py:57 | a mean lies between the least and greatest values averaged |
| Logging.SumOfMeansBounds | src/logger.py:55-57 | the accumulated per-target means of `n` targets lie in `[n*lo, n*hi]` |
| Logging.MeanOfMeansBounds | src/logger.py:52-60 | every metric lies between the least and greatest per-run value it averages |
| Logging.ProportionInUnitInterval | src/logger.py:62-70 | the proportion of early stopping lies in `[0, 1]` |
| Logging.LastTargetMean | src/logger.py:54-57 | for the last target alone a metric is that target's own mean |
| Logging.MeanFitnessIsNotPooled | src/logger.py:52-60 | mean fitness averages per-target means and not all runs pooled: targets with runs `[1]` and `[0, 0]` give 1/2, where the pooled mean is 1/3 |
| Logging.Logger.constructor | src/logger.py:14-15 | a fresh log holds the description and an empty target list, and no target is current |
| Logging.Logger.SetHeader | src/logger.py:17-19 | the log becomes the old log with every header key copied over it, overwriting |
| Logging.Logger.SetTarget | src/logger.py:21-23 | on a target list, appends `{target, runs: []}` and makes its index current, so the current target is the last; KeyError, TypeError or AttributeError otherwise, with the index set before the append fails |
| Logging.Logger.AddRun | src/logger.py:25-40 | raises AssertionError, with the log unchanged, when no target is current; otherwise appends exactly one run to the current target, leaving every other target and key unchanged; keeps the current target the last one |
| Logging.Logger.CalculateMetrics | src/logger.py:42-50 | computes the three metrics in order and, when none raises, writes them as `WithMetrics` says; on the first error the log is unchanged |
| Logging.Logger.MeanFitness | src/logger.py:52-60 | the mean over the considered targets of each target's mean `best_fit` |
| Logging.Logger.ProportionOfEarlyStopping | src/logger.py:62-70 | the mean over the considered targets of each target's early-stopping fraction, within `[0, 1]` |
| Logging.Logger.EvaluationsPerRun | src/logger.py:72-80 | the mean of means of `n_gens` times `log['pop_size']`, with KeyError or TypeError when `pop_size` is missing or not a number |
| Logging.Logger.Accumulate | src/logger.py:53-59 | the shared loop adds up the per-target means of the considered targets and divides by the number of targets; it gives IndexError for the last of no targets and ZeroDivisionError for all of none |

## Left out

- Oscillators, `MixingFilter`, the `Filter`/`Oscillator` base classes and `params.norm_osc_blocksize`: this code is not shown, so it is the `Library` parameter. The blocks are any `Stream`, and the block size is any positive number.
- The `samplerate` a filter actually reads comes from the unseen `Filter` base class. It is a parameter, `inheritedRate` in the constructors and `filterRate` in `Library`.
- The `assert isinstance(source, Oscillator)` in both constructors is expressed by the parameter's type, so it cannot fail in the model.
- scipy's `butter` and `filtfilt` are floating-point code in a foreign library. They are the function parameter `ZeroPhaseLowpass`. Its errors, such as a cutoff at or above Nyquist or a block shorter than `filtfilt`'s padding, are not modelled.
- The model uses exact reals instead of IEEE floats, also for numpy's `array`/`flatten`/`mean`/`sum`. `amp_1 + amp_2 == 1` is exact only over the reals.
- `WhiteNoise` randomness is part of the unseen oscillator code. `Library.oscillator` is a function, so one `lib` fixes one white-noise stream and `Sound` is deterministic for a given `lib`. A fresh random draw is modelled by passing a different `lib` to each call.
- `duration` is a natural number. A float duration would hand `islice` a float.
- Ragged blocks in `np.array(...).flatten()` are not modelled. `Concat` joins blocks of any length, and the length rules assume uniform blocks.
- Logging.Logger.CalculateMetrics: requires that every considered target has at least one run; the NaN numpy gives for an empty run list is not modelled.
- Logging.Logger.MeanFitness: requires that every considered target has at least one run; the NaN numpy gives for an empty run list is not modelled.
- Logging.Logger.ProportionOfEarlyStopping: requires that every considered target has at least one run; the NaN numpy gives for an empty run list is not modelled.
- Logging.Logger.EvaluationsPerRun: requires that every considered target has at least one run; the NaN numpy gives for an empty run list is not modelled.
- Logging.Logger.Accumulate: requires that every considered target has at least one run; the NaN numpy gives for an empty run list is not modelled.
- Logging.Logger.AddRun: `best_fit` is a real, so the ValueError or TypeError that `float(best_fit)` can raise is not modelled. In the source it would come after the no-target check and before the append.
- Filters.LowPassBlocks.Next: the stream-map invariant assumes the filter's `cutoff` and `samplerate` are not reassigned while its generator is live. The source generator keeps going under the new design, with the blocks before and after it filtered differently; the model does not cover that.
- Log values are scalars, target lists or metrics records. Arbitrary nested dicts and lists are outside the model.
- Logging.PopSize: a list-valued `pop_size` is modelled as TypeError. This differs from numpy for `[]`, where the product is an empty array and nothing is raised.
- The single error `NotATargetList` stands for the errors Python raises when a header has replaced `log['targets']` by a non-list. These are a TypeError, KeyError or IndexError, or a ZeroDivisionError when the metrics loop over an empty string and then divide by its length.
- Keyword arguments to `set_parameters` other than the six recognised ones are not modelled. The source ignores them.
- Explicit `None` values for `set_parameters` are not modelled. In the source, `osc_1=None` or `osc_2=None` raises KeyError at the table lookup. `amp_1=None` or `amp_2=None` raises TypeError in `_normalise_amp`. `phase_1=None` and `cutoff=None` store `None`.
- `Logger.__init__`'s timestamp, path and `os.mkdir` are file-system work, as are `close`'s `json.dump` and the matplotlib import. They are not modelled. The metrics half of `close` is `CalculateMetrics(true)`.
