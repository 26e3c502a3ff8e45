/** What the action reports once the image builder has run: the manifest
    found in the output directory and the artifacts, keyed by their type
    (src/bib.ts, the end of `build` and `extractArtifactTypes`).

    The recursive directory listing is an input, in listing order. Resolving
    a relative path against the working directory and computing a file's
    SHA-256 digest are function-valued parameters. */
module OutputReconciler {
  import opened Wrappers
  import opened JsStrings
  import opened BibTypes

  /** One entry of the recursive listing: its base name, the directory it
      sits in, and whether it is a regular file. */
  datatype Entry = Entry(name: string, parentPath: string, isFile: bool)

  // ---------------------------------------------------------------------
  // Manifest

  /** A regular file whose name ends in `.json`. */
  predicate IsManifest(e: Entry)
  {
    e.isFile && EndsWith(e.name, ".json")
  }

  /** The position of the first manifest in listing order (`Array.find`). */
  function FirstManifest(listing: seq<Entry>): (r: Option<nat>)
    ensures r.None? <==> forall i :: 0 <= i < |listing| ==> !IsManifest(listing[i])
    ensures r.Some? ==> r.value < |listing| && IsManifest(listing[r.value])
    ensures r.Some? ==> forall j :: 0 <= j < r.value ==> !IsManifest(listing[j])
    decreases |listing|
  {
    if listing == [] then None
    else if IsManifest(listing[0]) then Some(0)
    else
      match FirstManifest(listing[1..])
      case None => None
      case Some(i) => Some(i + 1)
  }

  /** The reported manifest path. When there is no manifest the template
      interpolates JavaScript's `undefined`. */
  function ManifestPath(outputDirectory: string, listing: seq<Entry>): string
  {
    var name := match FirstManifest(listing)
      case Some(i) => listing[i].name
      case None => "undefined";
    outputDirectory + "/" + name
  }

  /** The manifest path names the first manifest of the listing, and the
      text `undefined` when there is none. */
  lemma ManifestPathFirst(outputDirectory: string, listing: seq<Entry>)
    ensures var p := ManifestPath(outputDirectory, listing);
      || (exists i :: 0 <= i < |listing| && IsManifest(listing[i])
            && (forall j :: 0 <= j < i ==> !IsManifest(listing[j]))
            && p == outputDirectory + "/" + listing[i].name)
      || ((forall i :: 0 <= i < |listing| ==> !IsManifest(listing[i]))
            && p == outputDirectory + "/undefined")
  {
    match FirstManifest(listing)
    case Some(i) =>
    case None =>
      assert outputDirectory + "/" + "undefined" == outputDirectory + "/undefined";
  }

  /** Entries that follow the first manifest do not change its path. */
  lemma ManifestPathIgnoresLater(outputDirectory: string, listing: seq<Entry>, more: seq<Entry>)
    requires exists i :: 0 <= i < |listing| && IsManifest(listing[i])
    ensures ManifestPath(outputDirectory, listing + more) == ManifestPath(outputDirectory, listing)
  {
    var i := FirstManifest(listing).value;
    var k := FirstManifest(listing + more);
    assert forall j :: 0 <= j < |listing| ==> (listing + more)[j] == listing[j];
    assert k.Some? && k.value == i;
  }

  // ---------------------------------------------------------------------
  // Artifact types

  /** The directory names the image builder uses for some image types,
      which the action reports under their image-type names. */
  predicate IsLegacyName(t: string)
  {
    t == "bootiso" || t == "vpc" || t == "image"
  }

  /** `bootiso` becomes `anaconda-iso`, `vpc` becomes `vhd`, `image`
      becomes `raw`; every other name is kept. */
  function Renamed(t: string): (r: string)
    ensures t == "bootiso" ==> r == "anaconda-iso"
    ensures t == "vpc" ==> r == "vhd"
    ensures t == "image" ==> r == "raw"
    ensures !IsLegacyName(r)
    ensures !IsLegacyName(t) ==> r == t
    ensures t != "" ==> r != ""
  {
    if t == "bootiso" then "anaconda-iso"
    else if t == "vpc" then "vhd"
    else if t == "image" then "raw"
    else t
  }

  /** Renaming twice is renaming once. */
  lemma RenamedIdempotent(t: string)
    ensures Renamed(Renamed(t)) == Renamed(t)
  {
  }

  /** Only regular files that are not manifests become artifacts. */
  predicate IsArtifactCandidate(e: Entry)
  {
    e.isFile && !EndsWith(e.name, ".json")
  }

  /** A text whose last `/`-separated segment is empty. */
  predicate EmptyLastSegment(s: string)
  {
    s == "" || s[|s| - 1] == '/'
  }

  /** One file classified by its directory: an error when the file name or
      the directory name is empty, otherwise an artifact whose type is the
      renamed directory name, whose path is absolute and whose checksum is
      the digest of that path. */
  function Classify(e: Entry, resolve: string -> string, digest: string -> string): (r: Result<OutputArtifact, string>)
    ensures r.Err? <==> EmptyLastSegment(e.name) || EmptyLastSegment(e.parentPath)
    ensures r.Ok? ==> r.value.artifactType != "" && !IsLegacyName(r.value.artifactType)
    ensures r.Ok? ==> r.value.checksum == Some(digest(r.value.path))
  {
    LastSegmentEmpty(e.name, '/');
    LastSegmentEmpty(e.parentPath, '/');
    var fileName := LastSegment(e.name, '/');
    var kind := LastSegment(e.parentPath, '/');
    if fileName == "" then
      Err("Failed to extract file name from artifact path: " + e.name)
    else if kind == "" then
      Err("Failed to extract type from artifact path: " + e.parentPath)
    else
      var path := resolve(e.parentPath + "/" + e.name);
      Ok(OutputArtifact(Renamed(kind), path, Some(digest(path))))
  }

  /** A file in `dir/kind/` is reported under the renamed `kind`, at the
      resolved path of `dir/kind/name`, whatever directory part its own
      name still holds. */
  lemma ClassifyByDirectory(dir: string, kind: string, name: string,
                            resolve: string -> string, digest: string -> string)
    requires kind != "" && '/' !in kind && !EmptyLastSegment(name)
    ensures var e := Entry(name, dir + "/" + kind, true);
      var r := Classify(e, resolve, digest);
      && r.Ok?
      && r.value.artifactType == Renamed(kind)
      && r.value.path == resolve(dir + "/" + kind + "/" + name)
  {
    var parent := dir + "/" + kind;
    assert parent == dir + ['/'] + kind;
    SplitAppend(dir, kind, '/');
    SplitNoSeparator(kind, '/');
    LastSegmentEmpty(name, '/');
  }

  /** A bad file name is reported before a bad directory name. */
  lemma ClassifyErrorMessage(e: Entry, resolve: string -> string, digest: string -> string)
    ensures EmptyLastSegment(e.name) ==>
      Classify(e, resolve, digest) == Err("Failed to extract file name from artifact path: " + e.name)
    ensures !EmptyLastSegment(e.name) && EmptyLastSegment(e.parentPath) ==>
      Classify(e, resolve, digest) == Err("Failed to extract type from artifact path: " + e.parentPath)
  {
    LastSegmentEmpty(e.name, '/');
    LastSegmentEmpty(e.parentPath, '/');
  }

  /** The per-file step as the action writes it: two early failures, then
      the type reassigned by a `switch`. */
  method ClassifyFile(e: Entry, resolve: string -> string, digest: string -> string)
    returns (r: Result<OutputArtifact, string>)
    ensures r == Classify(e, resolve, digest)
  {
    var fileName := LastSegment(e.name, '/');
    if fileName == "" {
      return Err("Failed to extract file name from artifact path: " + e.name);
    }
    var kind := LastSegment(e.parentPath, '/');
    if kind == "" {
      return Err("Failed to extract type from artifact path: " + e.parentPath);
    }
    if kind == "bootiso" {
      kind := "anaconda-iso";
    } else if kind == "vpc" {
      kind := "vhd";
    } else if kind == "image" {
      kind := "raw";
    }
    var pathRelative := e.parentPath + "/" + e.name;
    var pathAbsolute := resolve(pathRelative);
    var checksum := digest(pathAbsolute);
    return Ok(OutputArtifact(kind, pathAbsolute, Some(checksum)));
  }

  // ---------------------------------------------------------------------
  // Classifying every candidate

  /** The candidates of a listing, in listing order. */
  function Candidates(files: seq<Entry>): seq<Entry>
  {
    Filter(files, IsArtifactCandidate)
  }

  /** Every entry classified in order; the first failure, in listing order,
      is the result. */
  function ClassifyAll(es: seq<Entry>, resolve: string -> string, digest: string -> string)
    : (r: Result<seq<OutputArtifact>, string>)
    ensures r.Ok? ==> |r.value| == |es|
    ensures r.Ok? ==> forall i :: 0 <= i < |es| ==> Classify(es[i], resolve, digest) == Ok(r.value[i])
    ensures r.Err? ==> exists i :: 0 <= i < |es| && Classify(es[i], resolve, digest).Err?
    decreases |es|
  {
    if es == [] then Ok([])
    else
      var init, last := es[..|es| - 1], es[|es| - 1];
      assert forall i :: 0 <= i < |init| ==> init[i] == es[i];
      match ClassifyAll(init, resolve, digest)
      case Err(msg) => Err(msg)
      case Ok(arts) =>
        match Classify(last, resolve, digest)
        case Err(msg) => Err(msg)
        case Ok(a) => Ok(arts + [a])
  }

  /** The error reported is that of the first entry that fails. */
  lemma {:induction false} ClassifyAllFirstError(es: seq<Entry>, resolve: string -> string,
                                                 digest: string -> string, k: nat)
    requires k < |es| && Classify(es[k], resolve, digest).Err?
    requires forall j :: 0 <= j < k ==> Classify(es[j], resolve, digest).Ok?
    ensures ClassifyAll(es, resolve, digest) == Err(Classify(es[k], resolve, digest).error)
    decreases |es|
  {
    var init := es[..|es| - 1];
    if k < |es| - 1 {
      assert init[k] == es[k];
      forall j | 0 <= j < k
        ensures Classify(init[j], resolve, digest).Ok?
      {
        assert init[j] == es[j];
      }
      ClassifyAllFirstError(init, resolve, digest, k);
    } else {
      assert forall j :: 0 <= j < |init| ==> init[j] == es[j];
    }
  }

  // ---------------------------------------------------------------------
  // First artifact of each type wins

  /** The types occurring among the artifacts. */
  function TypesOf(arts: seq<OutputArtifact>): set<string>
  {
    set i | 0 <= i < |arts| :: arts[i].artifactType
  }

  /** The map the action fills in listing order, skipping a type it
      already holds. */
  function FirstWins(arts: seq<OutputArtifact>): (m: map<string, OutputArtifact>)
    ensures m.Keys == TypesOf(arts)
    ensures forall k :: k in m ==> m[k].artifactType == k
    ensures forall k :: k in m ==> m[k] in arts
    decreases |arts|
  {
    if arts == [] then map[]
    else
      var init := arts[..|arts| - 1];
      var a := arts[|arts| - 1];
      var m := FirstWins(init);
      assert TypesOf(arts) == TypesOf(init) + {a.artifactType} by {
        assert forall i :: 0 <= i < |init| ==> arts[i] == init[i];
      }
      assert forall x :: x in init ==> x in arts;
      if a.artifactType in m then m else m[a.artifactType := a]
  }

  /** The artifact stored for a type is the first of that type. */
  lemma {:induction false} FirstWinsFirst(arts: seq<OutputArtifact>, i: nat)
    requires i < |arts|
    requires forall j :: 0 <= j < i ==> arts[j].artifactType != arts[i].artifactType
    ensures FirstWins(arts)[arts[i].artifactType] == arts[i]
    decreases |arts|
  {
    var init := arts[..|arts| - 1];
    if i < |arts| - 1 {
      assert init[i] == arts[i];
      forall j | 0 <= j < i
        ensures init[j].artifactType != init[i].artifactType
      {
        assert init[j] == arts[j];
      }
      FirstWinsFirst(init, i);
    } else {
      assert arts[i].artifactType !in TypesOf(init) by {
        forall j | 0 <= j < |init|
          ensures init[j].artifactType != arts[i].artifactType
        {
          assert init[j] == arts[j];
        }
      }
    }
  }

  /** A later artifact of a type already present leaves the map unchanged. */
  lemma FirstWinsIgnoresDuplicate(arts: seq<OutputArtifact>, a: OutputArtifact)
    requires a.artifactType in TypesOf(arts)
    ensures FirstWins(arts + [a]) == FirstWins(arts)
  {
    assert (arts + [a])[..|arts|] == arts;
  }

  // ---------------------------------------------------------------------
  // extractArtifactTypes

  /** What extracting the artifact types yields: the first classification
      error, or the first artifact of each type. */
  function ArtifactTypes(files: seq<Entry>, resolve: string -> string, digest: string -> string)
    : Result<map<string, OutputArtifact>, string>
  {
    match ClassifyAll(Candidates(files), resolve, digest)
    case Err(msg) => Err(msg)
    case Ok(arts) => Ok(FirstWins(arts))
  }

  /** Without errors, every candidate's type is a key, and nothing else is. */
  lemma ArtifactTypesKeys(files: seq<Entry>, resolve: string -> string, digest: string -> string)
    requires ArtifactTypes(files, resolve, digest).Ok?
    ensures var m := ArtifactTypes(files, resolve, digest).value;
      var cs := Candidates(files);
      && (forall i :: 0 <= i < |cs| ==> Classify(cs[i], resolve, digest).value.artifactType in m)
      && (forall k :: k in m ==> exists i :: 0 <= i < |cs| && Classify(cs[i], resolve, digest).value.artifactType == k)
  {
    var cs := Candidates(files);
    ClassifiedKeys(cs, resolve, digest, ClassifyAll(cs, resolve, digest).value);
  }

  /** The keys of the first-wins map of classified entries are exactly
      their types. */
  lemma ClassifiedKeys(cs: seq<Entry>, resolve: string -> string, digest: string -> string,
                       arts: seq<OutputArtifact>)
    requires |arts| == |cs|
    requires forall i :: 0 <= i < |cs| ==> Classify(cs[i], resolve, digest) == Ok(arts[i])
    ensures forall i :: 0 <= i < |cs| ==> Classify(cs[i], resolve, digest).value.artifactType in FirstWins(arts)
    ensures forall k :: k in FirstWins(arts) ==>
      exists i :: 0 <= i < |cs| && Classify(cs[i], resolve, digest).value.artifactType == k
  {
    forall i | 0 <= i < |cs|
      ensures Classify(cs[i], resolve, digest).value.artifactType in FirstWins(arts)
    {
      assert arts[i].artifactType in TypesOf(arts);
    }
    forall k | k in FirstWins(arts)
      ensures exists i :: 0 <= i < |cs| && Classify(cs[i], resolve, digest).value.artifactType == k
    {
      var i :| 0 <= i < |arts| && arts[i].artifactType == k;
      assert Classify(cs[i], resolve, digest).value.artifactType == k;
    }
  }

  /** A listing holding a file that cannot be classified yields an error. */
  lemma ArtifactTypesError(files: seq<Entry>, resolve: string -> string, digest: string -> string, i: nat)
    requires i < |files| && IsArtifactCandidate(files[i])
    requires EmptyLastSegment(files[i].name) || EmptyLastSegment(files[i].parentPath)
    ensures ArtifactTypes(files, resolve, digest).Err?
  {
    var cs := Candidates(files);
    FilterCount(files, IsArtifactCandidate, files[i]);
    assert files[i] in multiset(files);
    assert files[i] in cs;
    var k :| 0 <= k < |cs| && cs[k] == files[i];
    assert !Classify(cs[k], resolve, digest).Ok?;
  }

  /** Classifies the candidates one at a time, giving up at the first
      failure, then fills the map keeping the first artifact of each type. */
  method ExtractArtifactTypes(files: seq<Entry>, resolve: string -> string, digest: string -> string)
    returns (r: Result<map<string, OutputArtifact>, string>)
    ensures r == ArtifactTypes(files, resolve, digest)
  {
    var resolved := ClassifyCandidates(Candidates(files), resolve, digest);
    if resolved.Err? {
      return Err(resolved.error);
    }
    var artifactMap := CollectFirst(resolved.value);
    return Ok(artifactMap);
  }

  /** The classification of every candidate, in order, stopping at the
      first failure. */
  method ClassifyCandidates(candidates: seq<Entry>, resolve: string -> string, digest: string -> string)
    returns (r: Result<seq<OutputArtifact>, string>)
    ensures r == ClassifyAll(candidates, resolve, digest)
  {
    var resolved: seq<OutputArtifact> := [];
    for i := 0 to |candidates|
      invariant ClassifyAll(candidates[..i], resolve, digest) == Ok(resolved)
    {
      var artifact := ClassifyFile(candidates[i], resolve, digest);
      if artifact.Err? {
        forall j | 0 <= j < i
          ensures Classify(candidates[j], resolve, digest).Ok?
        {
          assert candidates[..i][j] == candidates[j];
        }
        ClassifyAllFirstError(candidates, resolve, digest, i);
        return Err(artifact.error);
      }
      assert candidates[..i + 1][..i] == candidates[..i];
      resolved := resolved + [artifact.value];
    }
    assert candidates[..|candidates|] == candidates;
    return Ok(resolved);
  }

  /** The map filled in order with `has`/`set`. */
  method CollectFirst(resolved: seq<OutputArtifact>) returns (artifactMap: map<string, OutputArtifact>)
    ensures artifactMap == FirstWins(resolved)
  {
    artifactMap := map[];
    for i := 0 to |resolved|
      invariant artifactMap == FirstWins(resolved[..i])
    {
      var artifact := resolved[i];
      assert resolved[..i + 1][..i] == resolved[..i];
      if artifact.artifactType !in artifactMap {
        artifactMap := artifactMap[artifact.artifactType := artifact];
      }
    }
    assert resolved[..|resolved|] == resolved;
  }
}
