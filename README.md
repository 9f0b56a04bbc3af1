# Audio clip synthesizer — verified model of `AudioProcessor`

The processor keeps a library of `.WAV` clips sorted into three buckets, `long`, `medium` and
`min`, by the fragment each file name contains. On request it builds a new audio file by
appending randomly chosen clips from one bucket until a counter reaches the target. It
writes the result under a fresh `synthesized_<8 hex>.wav` name.

This Dafny project models that core:

- `Text` (`text.dfy`): Python's `str.startswith`, `str.endswith` and `sub in s`.
- `Paths` (`paths.dfy`): `os.path.join` and `os.path.basename` on POSIX paths.
- `ClipLibrary` (`library.dfy`): buckets, the classification rule, and the library built
  from a listing (`Classified`). It also holds the lemmas about that library: membership,
  `.WAV` only, listing order kept, and the buckets partitioning the accepted entries.
- `AudioProcessing` (`audio_processor.dfy`): type resolution, the clip count and the output
  file name, plus the class `AudioProcessor`. The class has its constructor, the loading
  loop, `ListSourceFiles`, `Synthesize` and the combining loop.
- `Wrappers` (`wrappers.dfy`): `Option` for Python's `None` and `Result` for the raised
  exception.

Clips are opaque paths. The synthesized audio is the sequence of paths appended, in order.
The randomness is injected:
- `uniformDraw` is the value of `random.uniform(3, 8)`, required to lie in [3, 8].
- `shuffled` is the result of `random.sample(files, len(files))`, required to be a
  permutation (equal multiset) of the bucket.
- `draws` are the indices `random.choice` picks, one per iteration, each required to be in
  range.
- `uuidHex` is `uuid4().hex`: 32 lower-case hex digits.

The directory listing is a parameter of the constructor. A target duration is a `Target`: a
finite number (a `real`), `+inf`, `-inf`, `nan`, or a value of another type.

Points where the code's behaviour is easy to misread:
- The combining loop adds **1 per clip** to its counter, not the clip's length. For a finite
  target the output therefore holds exactly the least natural number `n >= target` of clips
  (`ClipCount`), and none when the target is `<= 0`. The truncation of the last clip is
  commented out in the code and is not modelled.
- The guard `current_duration < target_duration` compares an int with the target exactly.
  For the non-finite floats the loop runs forever on `inf` and not at all on `-inf` or
  `nan`. For a target that is not a number, such as a string, the comparison raises
  Python's `TypeError`. The model's `Target` datatype has a case for each of these.
- Only the exact, case-sensitive suffix `.WAV` is loaded. The buckets are `long`, `medium`
  and `min`, checked in that order.
- `list_source_files` iterates the library's keys, so it always returns
  `["long", "medium", "min"]`.
- The default target is drawn from `uniform(3, 8)`. The docstring says 3–5 seconds.

## Model

| member | source | states |
|---|---|---|
| Text.EndsWithIff | audio_processor.py:26 | The case-sensitive suffix test holds exactly when the name is some string followed by the suffix |
| Text.Contains | audio_processor.py:27-31 | The `in` test always finds the empty fragment, and finds a fragment only in a name at least as long |
| Text.ContainsIff | audio_processor.py:27-31 | The `in` test used for the fragments holds exactly when the fragment occurs at some position of the name |
| Paths.Join | audio_processor.py:28 | The joined path ends with the file name, and starts with the directory when the name is relative |
| Paths.Basename | audio_processor.py:41 | The basename is the longest separator-free suffix of the path |
| Paths.BasenameOfJoin | audio_processor.py:68-69 | The basename of `join(output_dir, name)` is `name` for a separator-free name |
| ClipLibrary.FromName | audio_processor.py:54-55 | A selector names a bucket exactly when it is one of the valid types, and then it is that bucket's name |
| ClipLibrary.Library.Add | audio_processor.py:28-32 | Appending a path extends the chosen bucket by that path and leaves the other two unchanged |
| ClipLibrary.Classify | audio_processor.py:26-32 | A classified entry ends in `.WAV` and contains the name of its bucket |
| ClipLibrary.Classified | audio_processor.py:18-33 | The library built entry by entry from the listing; an empty listing gives three empty buckets. What each bucket holds is stated by the `Classified…` lemmas below |
| ClipLibrary.ClassifyFirstMatch | audio_processor.py:26-32 | An entry goes into bucket `b` iff it ends in `.WAV`, contains `b`'s name and contains no earlier bucket's name (long before medium before min) |
| ClipLibrary.ClassifyNone | audio_processor.py:26-32 | An entry is dropped iff it lacks the `.WAV` suffix or contains none of the three names |
| ClipLibrary.LowerCaseWavIgnored | audio_processor.py:26 | A name ending in lower-case `.wav` is never loaded |
| ClipLibrary.ClassifiedStep | audio_processor.py:25-32 | One more listing entry extends only its own bucket, by its joined path |
| ClipLibrary.ClassifiedSound | audio_processor.py:24-33 | Every path in bucket `b` is the joined path of some listing entry classified into `b` |
| ClipLibrary.ClassifiedComplete | audio_processor.py:24-33 | Every listing entry classified into `b` has its joined path in bucket `b` |
| ClipLibrary.ClassifiedMembership | audio_processor.py:24-33 | A path is in bucket `b` iff some listing entry classified into `b` joins to it |
| ClipLibrary.ClassifiedOnlyWav | audio_processor.py:26-32 | Every path in every bucket ends in `.WAV` |
| ClipLibrary.ClassifiedAppend | audio_processor.py:25-32 | Buckets keep listing order: a split listing's buckets are those of the front followed by those of the back |
| ClipLibrary.ClassifiedSingle | audio_processor.py:26-32 | A single entry contributes its joined path to its own bucket and nothing to the others |
| ClipLibrary.ClassifiedPartition | audio_processor.py:25-32 | The three buckets together hold one path per accepted entry and none for the others |
| AudioProcessing.ResolveType | audio_processor.py:54-55 | The resolved type is always a valid one: the requested type when valid, `long` otherwise, including for no type |
| AudioProcessing.Below | audio_processor.py:98 | The loop guard compares the int counter with the float target exactly: it holds exactly when the target is `+inf`, or finite and above the counter. It is always false for `-inf` and `nan`, and for any finite target of at most 0 |
| AudioProcessing.EffectiveTarget | audio_processor.py:61-62 | A given target is used as is. A missing one defaults to the `uniform(3, 8)` draw, on which the loop runs 3 to 8 times |
| AudioProcessing.ClipCount | audio_processor.py:88-114 | For a finite target the loop runs the least natural number of times that is at least the target, and zero times for a target of at most 0 |
| AudioProcessing.LoopCount | audio_processor.py:88-114 | How often the loop as written runs: the first count at which the exact guard fails, with every earlier count passing it. It is undefined exactly for `+inf`, where every count passes the guard |
| AudioProcessing.InfiniteTargetNeverStops | audio_processor.py:98-114 | For a target of `+inf` the guard holds at every count, so the loop as written never stops |
| AudioProcessing.OutputFilename | audio_processor.py:67-68 | The output name is `synthesized_`, then the UUID's first 8 lower-case hex digits, then `.wav`, with no separator |
| AudioProcessing.OutputFilenameInjective | audio_processor.py:67-68 | Two output names are equal exactly when the UUIDs share their first 8 hex digits, so the name is as unique as that UUID prefix |
| AudioProcessing.OutputNeverLoaded | audio_processor.py:26 | An output file name would never be loaded as a clip |
| AudioProcessing.SynthesisError.Message | audio_processor.py:58 | The empty-bucket message is `not found `, the bucket's name, ` type audio files`. The non-numeric-target message is Python's `TypeError` text for `<` between an int and that type |
| AudioProcessing.AudioProcessor.constructor | audio_processor.py:7-16 | Records both directories and loads the library from the listing |
| AudioProcessing.AudioProcessor.LoadAudioFiles | audio_processor.py:18-33 | The loop over the listing builds exactly the library `Classified` describes |
| AudioProcessing.AudioProcessor.ListSourceFiles | audio_processor.py:35-41 | Always returns `["long", "medium", "min"]`, whatever the directory holds |
| AudioProcessing.AudioProcessor.Synthesize | audio_processor.py:43-74 | Fails with `NotFound` iff the resolved bucket is empty, before combining. Otherwise it fails with the comparison error for a non-numeric target and with `InfiniteTarget` for `+inf`. In every other case it returns the path `join(output_dir, name)` with basename `name`, and as many clips from the bucket as the loop runs: 3 to 8 when the target defaults to the uniform draw |
| AudioProcessing.AudioProcessor.CombineAudioFiles | audio_processor.py:76-116 | Fails at the first comparison for a non-numeric target, and rejects `+inf` (see Findings). Otherwise it appends exactly `LoopCount(target)` clips. Clip `i` is the shuffled bucket's entry at draw `i`, and every clip is a member of the requested bucket |

## Findings

| source | as written | input that shows it | evidently intended | confidence | as-written member | corrected member |
|---|---|---|---|---|---|---|
| audio_processor.py:98-114 | The loop runs while the clip counter is below the target, and nothing bounds or checks the target | A JSON `duration` of `Infinity`, which `app.py:29` passes on unchecked: the counter never reaches `inf`, so clips are appended forever | A synthesis that finishes: a `+inf` target is rejected; every other numeric target already terminates | not executed; high for the loop itself, medium that the JSON parser lets the value through | AudioProcessing.LoopCount, AudioProcessing.InfiniteTargetNeverStops | AudioProcessing.AudioProcessor.CombineAudioFiles |

## Left out

- Audio decoding, concatenation, the empty starting segment and WAV export belong to the
  audio library. A clip is modelled as its path and the combined audio as the sequence of
  paths.
- The file system: the directory listing is a parameter. `os.path.join` and `basename` are
  modelled on strings as POSIX defines them. The write of the output file is the returned
  `Synthesized` value. Exceptions from the file system are not modelled: `os.listdir` on a
  missing audio directory, `AudioSegment.from_wav` on a `.WAV` entry that is a directory or
  not a WAV file, and `export` into an unwritable output directory. A `Success` result
  assumes that all of these calls succeed.
- Randomness and UUIDs are injected parameters, described above. The model does not capture
  uniformity, only the ranges and the permutation property.
- Floating point: finite targets are exact reals, so the rounding inside `uniform` is not
  modelled. The loop guard needs no rounding model, because Python compares an int with a
  float exactly.
- CombineAudioFiles: on a `+inf` target it returns `InfiniteTarget` instead of looping forever
  as the code does (see Findings). `LoopCount` records the code's behaviour.
- Synthesize: its `InfiniteTarget` failure for a `+inf` target carries the same deviation,
  since it passes the target on to `CombineAudioFiles`.
- ClipCount: covers finite targets only. `LoopCount` extends it to `+inf`, `-inf` and `nan`.
  `CombineAudioFiles` handles the non-numeric case, which raises `TypeError` at the first
  comparison.
- The type selector is `Option<string>`. A non-string selector behaves like an invalid
  string, falling back to `long`, and is not modelled separately.
- The debugging output and the commented-out truncation are not behaviour and are not
  modelled.
- The web front ends `app.py` and `index.py` are not part of this model. They are HTTP
  routing, JSON responses and file serving: a check for `text`, a `randint(2, 6)` default
  duration, and a call to `synthesize` without a type.
