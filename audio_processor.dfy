/** The audio processor: builds the clip library from a directory listing and synthesizes
    an output by appending randomly chosen clips of one bucket.

    Clips are opaque file paths; the synthesized audio is the sequence of paths appended,
    in order. The random sources are parameters: `shuffled` is what the shuffle of the
    bucket returned, `draws` are the indices the per-iteration random choice picked, and
    `uuidHex` is the hexadecimal form of the fresh UUID. */
module AudioProcessing {
  import opened Wrappers
  import opened Text
  import opened Paths
  import opened ClipLibrary

  /** The bucket a request's type selector resolves to: the named bucket when the selector
      is one of the valid types, `long` otherwise (also when no selector is given). */
  function ResolveType(requested: Option<string>): (b: Bucket)
    ensures b.Name() in ValidTypes
    ensures requested.Some? && requested.value in ValidTypes ==> b.Name() == requested.value
    ensures !(requested.Some? && requested.value in ValidTypes) ==> b == Long
  {
    match requested
    case None => Long
    case Some(s) => FromName(s).GetOr(Long)
  }

  /** The number of clips the combining loop appends for a finite target: the counter
      starts at 0, grows by one per clip, and the loop runs while it is below the target. */
  function ClipCount(target: real): (n: nat)
    ensures target <= n as real
    ensures n == 0 || (n - 1) as real < target
    ensures target <= 0.0 ==> n == 0
  {
    if target <= 0.0 then 0
    else if target.Floor as real == target then target.Floor
    else target.Floor + 1
  }

  /** The target duration as a request carries it: a number (an int, a finite float, or a
      bool, which compares as 0 or 1), one of the three non-finite floats, or a value of
      another type, named by its Python type name. */
  datatype Target =
    | Finite(value: real)
    | PositiveInfinity
    | NegativeInfinity
    | NotANumber
    | NonNumeric(typeName: string)

  /** The loop guard `current_duration < target_duration` for the int counter: exact for
      every finite float, always true against +inf, always false against -inf and nan.
      A non-numeric target makes the comparison raise, so it has no value there. */
  predicate Below(count: nat, target: Target): (b: bool)
    requires !target.NonNumeric?
    ensures b <==> !target.NegativeInfinity? && !target.NotANumber? &&
                   (target.Finite? ==> (count as real) < target.value)
    ensures target.Finite? && target.value <= 0.0 ==> !b
  {
    match target
    case Finite(v) => (count as real) < v
    case PositiveInfinity => true
    case NegativeInfinity => false
    case NotANumber => false
  }

  /** How many times the loop as written runs for a numeric target: the first count at
      which the guard fails, or None when no count ever fails it. */
  function LoopCount(target: Target): (n: Option<nat>)
    requires !target.NonNumeric?
    ensures n.Some? ==> !Below(n.value, target) && forall k :: 0 <= k < n.value ==> Below(k, target)
    ensures n.None? ==> forall k: nat :: Below(k, target)
    ensures n.None? <==> target.PositiveInfinity?
  {
    match target
    case Finite(v) => Some(ClipCount(v))
    case PositiveInfinity => None
    case NegativeInfinity => Some(0)
    case NotANumber => Some(0)
  }

  /** With an infinite target the loop as written never stops: the guard holds at every
      count, so it appends clips forever. */
  lemma InfiniteTargetNeverStops(k: nat)
    ensures Below(k, PositiveInfinity)
    ensures LoopCount(PositiveInfinity) == None
  {
  }

  /** The random draws the combining loop consumes: one per iteration, none for a target
      rejected before the loop */
  function DrawsNeeded(target: Target): nat {
    if target.NonNumeric? then 0 else LoopCount(target).GetOr(0)
  }

  /** The target a synthesis uses: the requested one, or the uniform draw when none is given */
  function EffectiveTarget(targetDuration: Option<Target>, uniformDraw: real): (t: Target)
    ensures targetDuration.Some? ==> t == targetDuration.value
    ensures targetDuration.None? ==> t.Finite? && t.value == uniformDraw
    ensures targetDuration.None? && 3.0 <= uniformDraw <= 8.0 ==> 3 <= DrawsNeeded(t) <= 8
  {
    targetDuration.GetOr(Finite(uniformDraw))
  }

  /** The first `n` random draws index into `pool` */
  predicate DrawsFit(pool: seq<string>, draws: seq<nat>, n: nat) {
    n <= |draws| && forall i :: 0 <= i < n ==> draws[i] < |pool|
  }

  /** A lower-case hexadecimal digit, as a UUID's hex form uses */
  predicate IsLowerHex(c: char) {
    '0' <= c <= '9' || 'a' <= c <= 'f'
  }

  const OutputPrefix: string := "synthesized_"
  const OutputExtension: string := ".wav"

  /** The output file name: the prefix, the first eight hex digits of the UUID, `.wav`. */
  function OutputFilename(uuidHex: string): (name: string)
    requires |uuidHex| >= 8
    requires forall i :: 0 <= i < 8 ==> IsLowerHex(uuidHex[i])
    ensures |name| == |OutputPrefix| + 8 + |OutputExtension|
    ensures StartsWith(name, OutputPrefix) && EndsWith(name, OutputExtension)
    ensures forall i :: |OutputPrefix| <= i < |OutputPrefix| + 8 ==> IsLowerHex(name[i])
    ensures name[|OutputPrefix|..|OutputPrefix| + 8] == uuidHex[..8]
    ensures Sep !in name
  {
    assert (OutputPrefix + uuidHex[..8]) + OutputExtension == OutputPrefix + uuidHex[..8] + OutputExtension;
    OutputPrefix + uuidHex[..8] + OutputExtension
  }

  /** Two output names coincide exactly when the UUIDs agree on their first eight hex
      digits, so distinct UUID prefixes give distinct files. */
  lemma OutputFilenameInjective(u: string, v: string)
    requires |u| >= 8 && forall i :: 0 <= i < 8 ==> IsLowerHex(u[i])
    requires |v| >= 8 && forall i :: 0 <= i < 8 ==> IsLowerHex(v[i])
    ensures OutputFilename(u) == OutputFilename(v) <==> u[..8] == v[..8]
  {
    var nu, nv := OutputFilename(u), OutputFilename(v);
    assert nu[|OutputPrefix|..|OutputPrefix| + 8] == u[..8];
    assert nv[|OutputPrefix|..|OutputPrefix| + 8] == v[..8];
  }

  /** The processor's output files end in lower-case `.wav`, so the loader would never pick
      one up as a clip. */
  lemma OutputNeverLoaded(uuidHex: string)
    requires |uuidHex| >= 8
    requires forall i :: 0 <= i < 8 ==> IsLowerHex(uuidHex[i])
    ensures Classify(OutputFilename(uuidHex)) == None
  {
    LowerCaseWavIgnored(OutputFilename(uuidHex));
  }

  /** Why synthesis failed */
  datatype SynthesisError =
    | NotFound(audioType: Bucket)
    | NotComparable(typeName: string)
    | InfiniteTarget
  {
    /** The exception text: for an empty bucket it names the bucket between `not found `
        and ` type audio files`; for a non-numeric target it is Python's `TypeError` text
        for `<` between an int and that type. */
    function Message(): (m: string)
      ensures NotFound? ==>
        StartsWith(m, "not found ") && EndsWith(m, " type audio files") && Contains(m, audioType.Name())
      ensures NotComparable? ==>
        StartsWith(m, "'<' not supported between instances of 'int' and '") && Contains(m, typeName)
    {
      match this
      case NotFound(b) =>
        var m := "not found " + b.Name() + " type audio files";
        assert m[10..10 + |b.Name()|] == b.Name();
        assert OccursAt(m, b.Name(), 10);
        ContainsIff(m, b.Name());
        m
      case NotComparable(t) =>
        var prefix := "'<' not supported between instances of 'int' and '";
        var m := prefix + t + "'";
        assert m[|prefix|..|prefix| + |t|] == t;
        assert OccursAt(m, t, |prefix|);
        ContainsIff(m, t);
        m
      case InfiniteTarget => "target duration must not be infinite"
    }
  }

  /** A synthesized file: where it was written and the clips it concatenates, in order */
  datatype Synthesized = Synthesized(path: string, clips: seq<string>)

  class AudioProcessor {
    const audioDir: string
    const outputDir: string
    const audioFiles: Library

    /** Records the two directories and loads the library from the listing of `audioDir`. */
    constructor (audioDir: string, outputDir: string, listing: seq<string>)
      ensures this.audioDir == audioDir && this.outputDir == outputDir
      ensures audioFiles == Classified(audioDir, listing)
    {
      this.audioDir := audioDir;
      this.outputDir := outputDir;
      var files := LoadAudioFiles(audioDir, listing);
      audioFiles := files;
    }

    /** Sorts a directory listing into the three buckets, entry by entry. */
    static method LoadAudioFiles(audioDir: string, listing: seq<string>) returns (files: Library)
      ensures files == Classified(audioDir, listing)
    {
      files := Library([], [], []);
      for i := 0 to |listing|
        invariant files == Classified(audioDir, listing[..i])
      {
        var file := listing[i];
        assert listing[..i + 1][..i] == listing[..i];
        if EndsWith(file, ".WAV") {
          if Contains(file, "long") {
            files := files.(long := files.long + [Join(audioDir, file)]);
          } else if Contains(file, "medium") {
            files := files.(medium := files.medium + [Join(audioDir, file)]);
          } else if Contains(file, "min") {
            files := files.(min := files.min + [Join(audioDir, file)]);
          }
        }
      }
      assert listing[..|listing|] == listing;
    }

    /** The base names of the library's keys: always the three bucket names, whatever the
        directory holds. */
    function ListSourceFiles(): (names: seq<string>)
      ensures names == ["long", "medium", "min"]
    {
      var keys := audioFiles.Keys();
      assert |keys| == 3;
      var long, medium, min := keys[0], keys[1], keys[2];
      assert long == "long" && medium == "medium" && min == "min";
      BasenameOfName(long);
      BasenameOfName(medium);
      BasenameOfName(min);
      [Basename(long), Basename(medium), Basename(min)]
    }

    /** The clips of the bucket a type selector resolves to */
    function ResolvedFiles(requestedType: Option<string>): seq<string> {
      audioFiles.Files(ResolveType(requestedType))
    }

    /** Synthesizes an output file: resolves the type, fails on an empty bucket before doing
        anything else, defaults a missing target to the uniform draw, combines clips and
        names the output file. */
    method Synthesize(targetDuration: Option<Target>, requestedType: Option<string>,
                      uniformDraw: real, shuffled: seq<string>, draws: seq<nat>, uuidHex: string)
      returns (r: Result<Synthesized, SynthesisError>)
      requires 3.0 <= uniformDraw <= 8.0
      requires |uuidHex| == 32 && forall i :: 0 <= i < 32 ==> IsLowerHex(uuidHex[i])
      requires multiset(shuffled) == multiset(ResolvedFiles(requestedType))
      requires ResolvedFiles(requestedType) != [] ==>
        DrawsFit(shuffled, draws, DrawsNeeded(EffectiveTarget(targetDuration, uniformDraw)))
      ensures ResolvedFiles(requestedType) == [] ==> r == Failure(NotFound(ResolveType(requestedType)))
      ensures ResolvedFiles(requestedType) != [] && EffectiveTarget(targetDuration, uniformDraw).NonNumeric? ==>
        r == Failure(NotComparable(EffectiveTarget(targetDuration, uniformDraw).typeName))
      ensures ResolvedFiles(requestedType) != [] && EffectiveTarget(targetDuration, uniformDraw).PositiveInfinity? ==>
        r == Failure(InfiniteTarget)
      ensures r.Success? <==>
        ResolvedFiles(requestedType) != [] &&
        !EffectiveTarget(targetDuration, uniformDraw).NonNumeric? &&
        !EffectiveTarget(targetDuration, uniformDraw).PositiveInfinity?
      ensures r.Success? ==>
        var name := OutputFilename(uuidHex);
        var n := DrawsNeeded(EffectiveTarget(targetDuration, uniformDraw));
        && r.value.path == Join(outputDir, name)
        && Basename(r.value.path) == name
        && |r.value.clips| == n
        && (forall i :: 0 <= i < n ==> r.value.clips[i] == shuffled[draws[i]])
        && (forall c :: c in r.value.clips ==> c in ResolvedFiles(requestedType))
      ensures targetDuration.None? && r.Success? ==> 3 <= |r.value.clips| <= 8
    {
      var audioType := ResolveType(requestedType);
      if audioFiles.Files(audioType) == [] {
        return Failure(NotFound(audioType));
      }
      var target := EffectiveTarget(targetDuration, uniformDraw);
      var combined := CombineAudioFiles(target, audioType, shuffled, draws);
      if combined.Failure? {
        return Failure(combined.error);
      }
      var outputFilename := OutputFilename(uuidHex);
      var outputPath := Join(outputDir, outputFilename);
      BasenameOfJoin(outputDir, outputFilename);
      return Success(Synthesized(outputPath, combined.value));
    }

    /** Appends one randomly chosen clip per iteration while the clip counter is below the
        target: the result holds exactly as many clips as the loop runs, each taken from the
        requested bucket. A non-numeric target fails at the first comparison; an infinite
        target, on which the loop would never stop, is rejected before the loop. */
    method CombineAudioFiles(target: Target, audioType: Bucket, shuffled: seq<string>, draws: seq<nat>)
      returns (r: Result<seq<string>, SynthesisError>)
      requires multiset(shuffled) == multiset(audioFiles.Files(audioType))
      requires DrawsFit(shuffled, draws, DrawsNeeded(target))
      ensures target.NonNumeric? ==> r == Failure(NotComparable(target.typeName))
      ensures target.PositiveInfinity? ==> r == Failure(InfiniteTarget)
      ensures r.Success? <==> !target.NonNumeric? && !target.PositiveInfinity?
      ensures r.Success? ==> LoopCount(target) == Some(|r.value|)
      ensures r.Success? ==> forall i :: 0 <= i < |r.value| ==> r.value[i] == shuffled[draws[i]]
      ensures r.Success? ==> forall c :: c in r.value ==> c in audioFiles.Files(audioType)
    {
      if target.NonNumeric? {
        return Failure(NotComparable(target.typeName));
      }
      if target.PositiveInfinity? {
        return Failure(InfiniteTarget);
      }
      var combined := [];
      var currentDuration: nat := 0;
      while Below(currentDuration, target)
        invariant currentDuration <= DrawsNeeded(target)
        invariant |combined| == currentDuration
        invariant forall i :: 0 <= i < currentDuration ==> combined[i] == shuffled[draws[i]]
        decreases DrawsNeeded(target) - currentDuration
      {
        var audioFile := shuffled[draws[currentDuration]];
        combined := combined + [audioFile];
        currentDuration := currentDuration + 1;
      }
      forall c | c in combined ensures c in audioFiles.Files(audioType) {
        var i :| 0 <= i < |combined| && combined[i] == c;
        assert c in multiset(shuffled);
      }
      return Success(combined);
    }
  }
}
