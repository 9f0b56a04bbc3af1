/** The clip library: the three buckets `long`, `medium` and `min`, and the rule that
    sorts a directory listing into them. */
module ClipLibrary {
  import opened Wrappers
  import opened Text
  import opened Paths

  /** A bucket of the library. Its name is both its key in the library and the
      fragment a file name must contain to be sorted into it. */
  datatype Bucket = Long | Medium | Min {

    function Name(): string {
      match this
      case Long => "long"
      case Medium => "medium"
      case Min => "min"
    }

    /** Position in the fixed priority order long, medium, min */
    function Rank(): nat {
      match this
      case Long => 0
      case Medium => 1
      case Min => 2
    }
  }

  /** The buckets in the order the library is built and checked */
  const BucketOrder: seq<Bucket> := [Long, Medium, Min]

  /** The selectors a synthesis request may name */
  const ValidTypes: seq<string> := ["long", "medium", "min"]

  /** Only files with this exact, case-sensitive suffix are loaded */
  const Extension: string := ".WAV"

  /** The bucket a selector names, if it names one */
  function FromName(s: string): (r: Option<Bucket>)
    ensures r.Some? <==> s in ValidTypes
    ensures r.Some? ==> r.value.Name() == s
  {
    if s == "long" then Some(Long)
    else if s == "medium" then Some(Medium)
    else if s == "min" then Some(Min)
    else None
  }

  /** The library: the file paths of each bucket, in the order they were found. */
  datatype Library = Library(long: seq<string>, medium: seq<string>, min: seq<string>) {

    function Files(b: Bucket): seq<string> {
      match b
      case Long => long
      case Medium => medium
      case Min => min
    }

    /** The library's keys, in the order they were inserted */
    function Keys(): seq<string> {
      seq(|BucketOrder|, i requires 0 <= i < |BucketOrder| => BucketOrder[i].Name())
    }

    /** The library with `path` appended to bucket `b` */
    function Add(b: Bucket, path: string): (lib: Library)
      ensures lib.Files(b) == Files(b) + [path]
      ensures forall c :: c != b ==> lib.Files(c) == Files(c)
    {
      match b
      case Long => this.(long := long + [path])
      case Medium => this.(medium := medium + [path])
      case Min => this.(min := min + [path])
    }
  }

  const EmptyLibrary: Library := Library([], [], [])

  /** The bucket a directory entry goes into: none unless the name ends in `.WAV`,
      otherwise the first bucket, in the order long, medium, min, whose name occurs in it. */
  function Classify(name: string): (r: Option<Bucket>)
    ensures r.Some? ==> EndsWith(name, Extension) && Contains(name, r.value.Name())
  {
    if !EndsWith(name, Extension) then None
    else if Contains(name, "long") then Some(Long)
    else if Contains(name, "medium") then Some(Medium)
    else if Contains(name, "min") then Some(Min)
    else None
  }

  /** The library built from a directory listing, one entry at a time; an empty listing
      gives the empty library. */
  function Classified(dir: string, listing: seq<string>): (lib: Library)
    ensures listing == [] ==> lib == EmptyLibrary
    decreases |listing|
  {
    if listing == [] then EmptyLibrary
    else
      var lib := Classified(dir, listing[..|listing| - 1]);
      var name := listing[|listing| - 1];
      match Classify(name)
      case None => lib
      case Some(b) => lib.Add(b, Join(dir, name))
  }

  /** An entry goes into bucket `b` exactly when it carries the `.WAV` suffix, contains
      the name of `b`, and contains the name of no bucket ranked before `b`. */
  lemma ClassifyFirstMatch(name: string, b: Bucket)
    ensures Classify(name) == Some(b) <==>
      EndsWith(name, Extension) && Contains(name, b.Name()) &&
      forall c: Bucket :: c.Rank() < b.Rank() ==> !Contains(name, c.Name())
  {
    if EndsWith(name, Extension) && Contains(name, b.Name()) {
      assert Long.Rank() == 0 && Medium.Rank() == 1;
    }
  }

  /** An entry that matches no bucket, or lacks the `.WAV` suffix, is dropped. */
  lemma ClassifyNone(name: string)
    ensures Classify(name) == None <==>
      !EndsWith(name, Extension) || forall c: Bucket :: !Contains(name, c.Name())
  {
    if EndsWith(name, Extension) && Classify(name) == None {
      forall c: Bucket ensures !Contains(name, c.Name()) {
        match c
        case Long =>
        case Medium =>
        case Min =>
      }
    }
  }

  /** A name ending in lower-case `.wav` is never loaded. */
  lemma LowerCaseWavIgnored(name: string)
    requires EndsWith(name, ".wav")
    ensures Classify(name) == None
  {
    LowerCaseSuffixIsNotUpperCase(name);
  }

  /** Adding one entry to the listing extends only that entry's bucket, by its path. */
  lemma ClassifiedStep(dir: string, listing: seq<string>, b: Bucket)
    requires listing != []
    ensures var name := listing[|listing| - 1];
      Classified(dir, listing).Files(b) ==
        Classified(dir, listing[..|listing| - 1]).Files(b) +
        (if Classify(name) == Some(b) then [Join(dir, name)] else [])
  {
  }

  /** Entry `i` of the listing is loaded into bucket `b` under path `p` */
  ghost predicate LoadedAs(dir: string, listing: seq<string>, b: Bucket, p: string, i: int) {
    0 <= i < |listing| && Classify(listing[i]) == Some(b) && p == Join(dir, listing[i])
  }

  /** Every path in bucket `b` comes from a listing entry classified into `b`. */
  lemma {:induction false} ClassifiedSound(dir: string, listing: seq<string>, b: Bucket, p: string)
    returns (i: int)
    requires p in Classified(dir, listing).Files(b)
    ensures LoadedAs(dir, listing, b, p, i)
    decreases |listing|
  {
    var init := listing[..|listing| - 1];
    ClassifiedStep(dir, listing, b);
    if p in Classified(dir, init).Files(b) {
      i := ClassifiedSound(dir, init, b, p);
      assert init[i] == listing[i];
    } else {
      i := |listing| - 1;
    }
  }

  /** Every listing entry classified into `b` has its joined path in bucket `b`. */
  lemma {:induction false} ClassifiedComplete(dir: string, listing: seq<string>, b: Bucket, i: int)
    requires 0 <= i < |listing| && Classify(listing[i]) == Some(b)
    ensures Join(dir, listing[i]) in Classified(dir, listing).Files(b)
    decreases |listing|
  {
    var init := listing[..|listing| - 1];
    ClassifiedStep(dir, listing, b);
    if i < |listing| - 1 {
      assert init[i] == listing[i];
      ClassifiedComplete(dir, init, b, i);
    }
  }

  /** A path is in bucket `b` exactly when some listing entry classified into `b` joins to it. */
  lemma ClassifiedMembership(dir: string, listing: seq<string>, b: Bucket, p: string)
    ensures p in Classified(dir, listing).Files(b) <==> exists i :: LoadedAs(dir, listing, b, p, i)
  {
    if p in Classified(dir, listing).Files(b) {
      var i := ClassifiedSound(dir, listing, b, p);
    }
    forall i | LoadedAs(dir, listing, b, p, i) ensures p in Classified(dir, listing).Files(b) {
      ClassifiedComplete(dir, listing, b, i);
    }
  }

  /** Every loaded path ends in `.WAV`. */
  lemma ClassifiedOnlyWav(dir: string, listing: seq<string>, b: Bucket, p: string)
    requires p in Classified(dir, listing).Files(b)
    ensures EndsWith(p, Extension)
  {
    var i := ClassifiedSound(dir, listing, b, p);
    EndsWithTransitive(p, listing[i], Extension);
  }

  /** Buckets keep listing order: the entries of a later part of the listing come after
      those of an earlier part, in every bucket. */
  lemma {:induction false} ClassifiedAppend(dir: string, front: seq<string>, back: seq<string>, b: Bucket)
    ensures Classified(dir, front + back).Files(b) ==
      Classified(dir, front).Files(b) + Classified(dir, back).Files(b)
    decreases |back|
  {
    if back == [] {
      assert front + back == front;
    } else {
      var whole, init, last := front + back, back[..|back| - 1], back[|back| - 1];
      assert whole[..|whole| - 1] == front + init;
      assert whole[|whole| - 1] == last;
      var extra := if Classify(last) == Some(b) then [Join(dir, last)] else [];
      ClassifiedAppend(dir, front, init, b);
      ClassifiedStep(dir, whole, b);
      ClassifiedStep(dir, back, b);
      assert Classified(dir, whole).Files(b) == Classified(dir, front + init).Files(b) + extra;
      assert Classified(dir, back).Files(b) == Classified(dir, init).Files(b) + extra;
    }
  }

  /** A single entry lands in its own bucket and in no other. */
  lemma ClassifiedSingle(dir: string, name: string, b: Bucket)
    ensures Classified(dir, [name]).Files(b) ==
      if Classify(name) == Some(b) then [Join(dir, name)] else []
  {
    assert [name][..0] == [];
  }

  /** Number of listing entries that are loaded into some bucket */
  function AcceptedCount(listing: seq<string>): nat {
    if listing == [] then 0
    else AcceptedCount(listing[..|listing| - 1]) + (if Classify(listing[|listing| - 1]).Some? then 1 else 0)
  }

  /** The buckets partition the accepted entries: together they hold one path per accepted
      entry, and nothing for the rest. */
  lemma {:induction false} ClassifiedPartition(dir: string, listing: seq<string>)
    ensures var lib := Classified(dir, listing);
      |lib.Files(Long)| + |lib.Files(Medium)| + |lib.Files(Min)| == AcceptedCount(listing)
    decreases |listing|
  {
    if listing != [] {
      ClassifiedPartition(dir, listing[..|listing| - 1]);
    }
  }
}
