/** The `build` entry point of src/bib.ts: reconfigure the container
    storage, pull both images, create the output directory, run the image
    builder in a privileged container, then report the manifest and the
    artifacts found in the output directory. A failed helper command or pull
    is reported and the build goes on; a failure of the run or after it
    yields the empty result.

    Starting a process is not modelled: the commands the action starts are
    returned in order, and whether each succeeds is a parameter. The
    directory listing is a parameter too, `None` when reading it fails. */
module BibBuild {
  import opened Wrappers
  import opened BibTypes
  import opened CommandBuilder
  import opened OutputReconciler

  /** A process started by the action: the executable and its arguments. */
  datatype Command = Command(executable: string, args: seq<string>)

  /** `podman pull` of one image. */
  function PullCommand(image: string, tlsVerify: bool): Command
  {
    Command(Executable, PullArgs(image, tlsVerify))
  }

  /** `podman run … bootc-image-builder build …`. */
  function RunCommand(o: BuildOptions): Command
  {
    Command(Executable, Argv(o))
  }

  /** The directory the storage workaround deletes, the configuration
      directory it creates, and the storage configuration it writes there. */
  const StorageDirectory := "/var/lib/containers/storage"
  const ContainersDirectory := "/etc/containers"
  const StorageConfFile := "/etc/containers/storage.conf"
  const StorageConf := "[storage]\ndriver = \"overlay\"\nrunroot = \"/run/containers/storage\"\ngraphroot = \"/var/lib/containers/storage\"\n"

  /** `rm -rf <dir>`. */
  function DeleteDirectoryCommand(dir: string): Command
  {
    Command("rm", ["-rf", dir])
  }

  /** `mkdir -p <dir>`. */
  function CreateDirectoryCommand(dir: string): Command
  {
    Command("mkdir", ["-p", dir])
  }

  /** The shell command that writes `data` to the temporary file beside `file`. */
  function WriteTempCommand(file: string, data: string): Command
  {
    Command("sh", ["-c", "echo '" + data + "' > " + file + ".tmp"])
  }

  /** Moves the temporary file over `file`. */
  function MoveCommand(file: string): Command
  {
    Command("mv", [file + ".tmp", file])
  }

  /** The commands of a file write: the move is started only when the shell
      command that fills the temporary file succeeded. */
  function WriteFileCommands(file: string, data: string, succeeds: Command -> bool): seq<Command>
  {
    var write := WriteTempCommand(file, data);
    if succeeds(write) then [write, MoveCommand(file)] else [write]
  }

  /** The storage workaround: delete the container storage, create the
      configuration directory and write the storage configuration. */
  function WorkaroundCommands(succeeds: Command -> bool): seq<Command>
  {
    [DeleteDirectoryCommand(StorageDirectory), CreateDirectoryCommand(ContainersDirectory)]
      + WriteFileCommands(StorageConfFile, StorageConf, succeeds)
  }

  /** The commands of one build, in the order they are started. A failed
      helper or pull is reported but does not stop the build, so the run of
      the image builder is always started. */
  function Commands(o: BuildOptions, succeeds: Command -> bool): seq<Command>
  {
    WorkaroundCommands(succeeds)
      + [PullCommand(o.builderImage, o.tlsVerify), PullCommand(o.image, o.tlsVerify),
         CreateDirectoryCommand(OutputDirectory), RunCommand(o)]
  }

  /** Every command in `cmds` succeeds. */
  predicate AllSucceed(cmds: seq<Command>, succeeds: Command -> bool)
  {
    forall i :: 0 <= i < |cmds| ==> succeeds(cmds[i])
  }

  /** Appending a command keeps every command successful exactly when the
      new one succeeds. */
  lemma AllSucceedSnoc(cmds: seq<Command>, c: Command, succeeds: Command -> bool)
    ensures AllSucceed(cmds + [c], succeeds) <==> AllSucceed(cmds, succeeds) && succeeds(c)
  {
    if AllSucceed(cmds, succeeds) && succeeds(c) {
      forall i | 0 <= i < |cmds + [c]|
        ensures succeeds((cmds + [c])[i])
      {
        if i < |cmds| {
          assert (cmds + [c])[i] == cmds[i];
        }
      }
    }
    if AllSucceed(cmds + [c], succeeds) {
      assert (cmds + [c])[|cmds|] == c;
      forall i | 0 <= i < |cmds|
        ensures succeeds(cmds[i])
      {
        assert (cmds + [c])[i] == cmds[i];
      }
    }
  }

  /** The order of a build: the storage is deleted first, the shell command
      writing the configuration is followed by the move exactly when it
      succeeds (and no move is started when it fails), and the output directory is created just before the run,
      which comes last, after both pulls. The move takes the file the shell
      command wrote to its place. */
  lemma CommandsOrder(o: BuildOptions, succeeds: Command -> bool)
    ensures var cs := Commands(o, succeeds);
      && cs[0] == Command("rm", ["-rf", "/var/lib/containers/storage"])
      && cs[1] == Command("mkdir", ["-p", "/etc/containers"])
      && cs[2] == WriteTempCommand(StorageConfFile, StorageConf)
      && cs[2].executable == "sh"
      && |cs| == (if succeeds(cs[2]) then 8 else 7)
      && (!succeeds(cs[2]) ==> forall i :: 3 <= i < |cs| ==> cs[i].executable != "mv")
      && (|cs| == 8 ==> && cs[3].executable == "mv"
                        && cs[3].args == [cs[3].args[0], "/etc/containers/storage.conf"]
                        && cs[2].args == ["-c", "echo '" + StorageConf + "' > " + cs[3].args[0]])
      && cs[|cs| - 4] == PullCommand(o.builderImage, o.tlsVerify)
      && cs[|cs| - 3] == PullCommand(o.image, o.tlsVerify)
      && cs[|cs| - 2] == Command("mkdir", ["-p", "./output"])
      && cs[|cs| - 1] == Command("podman", Argv(o))
  {
    var prefix, file := "echo '" + StorageConf + "' > ", StorageConfFile;
    assert prefix + file + ".tmp" == prefix + (file + ".tmp");
  }

  /** What a build reports, given whether the image builder succeeded, the
      listing of the output directory and the two file-system helpers. */
  function BuildResult(runSucceeded: bool, listing: Option<seq<Entry>>,
                       resolve: string -> string, digest: string -> string): BuildOutputs
  {
    if !runSucceeded || listing.None? then EmptyOutputs
    else
      match ArtifactTypes(listing.value, resolve, digest)
      case Err(_) => EmptyOutputs
      case Ok(artifacts) =>
        BuildOutputs(ManifestPath(OutputDirectory, listing.value), OutputDirectory, artifacts)
  }

  /** The result is empty exactly when the run, the listing or a
      classification failed; otherwise it reports the directory `./output`. */
  lemma BuildResultEmpty(runSucceeded: bool, listing: Option<seq<Entry>>,
                         resolve: string -> string, digest: string -> string)
    ensures var r := BuildResult(runSucceeded, listing, resolve, digest);
      && (r == EmptyOutputs <==>
            !runSucceeded || listing.None? || ArtifactTypes(listing.value, resolve, digest).Err?)
      && (r != EmptyOutputs ==> r.outputDirectory == "./output")
  {
    var r := BuildResult(runSucceeded, listing, resolve, digest);
    if runSucceeded && listing.Some? && ArtifactTypes(listing.value, resolve, digest).Ok? {
      assert r.outputDirectory != "";
    }
  }

  /** A successful build reports one artifact per type, keyed by that type,
      under its image-type name and with a checksum. */
  lemma BuildResultArtifacts(runSucceeded: bool, listing: Option<seq<Entry>>,
                             resolve: string -> string, digest: string -> string)
    ensures var r := BuildResult(runSucceeded, listing, resolve, digest);
      forall k :: k in r.outputArtifacts ==>
        && r.outputArtifacts[k].artifactType == k
        && r.outputArtifacts[k].checksum.Some?
        && !IsLegacyName(k)
  {
    var r := BuildResult(runSucceeded, listing, resolve, digest);
    if runSucceeded && listing.Some? && ArtifactTypes(listing.value, resolve, digest).Ok? {
      var cs := Candidates(listing.value);
      var arts := ClassifyAll(cs, resolve, digest).value;
      forall k | k in r.outputArtifacts
        ensures r.outputArtifacts[k].checksum.Some? && !IsLegacyName(k)
      {
        var i :| 0 <= i < |arts| && arts[i] == r.outputArtifacts[k];
        assert Classify(cs[i], resolve, digest) == Ok(arts[i]);
      }
    }
  }

  /** A successful build reports the first manifest of the listing. */
  lemma BuildResultManifest(listing: seq<Entry>,
                            resolve: string -> string, digest: string -> string, i: nat)
    requires ArtifactTypes(listing, resolve, digest).Ok?
    requires i < |listing| && IsManifest(listing[i])
    requires forall j :: 0 <= j < i ==> !IsManifest(listing[j])
    ensures BuildResult(true, Some(listing), resolve, digest).manifestPath
         == OutputDirectory + "/" + listing[i].name
  {
    var k := FirstManifest(listing);
    assert k.Some? && k.value == i;
  }

  /** The storage workaround; `failed` is set when one of its commands fails. */
  method GithubActionsWorkaroundFixes(succeeds: Command -> bool) returns (commands: seq<Command>, failed: bool)
    ensures commands == WorkaroundCommands(succeeds)
    ensures failed <==> !AllSucceed(commands, succeeds)
  {
    commands, failed := [], false;
    var rm := DeleteDirectoryCommand(StorageDirectory);
    AllSucceedSnoc(commands, rm, succeeds);
    commands, failed := commands + [rm], failed || !succeeds(rm);
    var mkdir := CreateDirectoryCommand(ContainersDirectory);
    AllSucceedSnoc(commands, mkdir, succeeds);
    commands, failed := commands + [mkdir], failed || !succeeds(mkdir);
    var write := WriteTempCommand(StorageConfFile, StorageConf);
    AllSucceedSnoc(commands, write, succeeds);
    commands, failed := commands + [write], failed || !succeeds(write);
    if succeeds(write) {
      var move := MoveCommand(StorageConfFile);
      AllSucceedSnoc(commands, move, succeeds);
      commands := commands + [move];
      failed := failed || !succeeds(move);
    }
  }

  /** Runs one build. Returns the commands started, what the action
      reports, and whether it marked the run as failed: exactly when a
      command failed or the result is empty. */
  method Build(o: BuildOptions, succeeds: Command -> bool, listing: Option<seq<Entry>>,
               resolve: string -> string, digest: string -> string)
    returns (commands: seq<Command>, outputs: BuildOutputs, failed: bool)
    ensures commands == Commands(o, succeeds)
    ensures outputs == BuildResult(succeeds(RunCommand(o)), listing, resolve, digest)
    ensures failed <==> !AllSucceed(commands, succeeds) || outputs == EmptyOutputs
  {
    commands, failed := GithubActionsWorkaroundFixes(succeeds);
    ghost var workaround := commands;

    var pullBuilder := PullCommand(o.builderImage, o.tlsVerify);
    AllSucceedSnoc(commands, pullBuilder, succeeds);
    commands := commands + [pullBuilder];
    if !succeeds(pullBuilder) {
      failed := true;
    }
    var pullImage := PullCommand(o.image, o.tlsVerify);
    AllSucceedSnoc(commands, pullImage, succeeds);
    commands := commands + [pullImage];
    assert commands == workaround + [pullBuilder, pullImage];
    if !succeeds(pullImage) {
      failed := true;
    }
    var createOutput := CreateDirectoryCommand(OutputDirectory);
    AllSucceedSnoc(commands, createOutput, succeeds);
    commands := commands + [createOutput];
    assert commands == workaround + [pullBuilder, pullImage, createOutput];
    if !succeeds(createOutput) {
      failed := true;
    }

    var run, runFailed;
    run, outputs, runFailed := RunBuilder(o, succeeds, listing, resolve, digest);
    AllSucceedSnoc(commands, run, succeeds);
    commands, failed := commands + [run], failed || runFailed;
    assert commands == workaround + [pullBuilder, pullImage, createOutput, run];
  }

  /** Runs the image builder and collects what it wrote: the empty result
      when the run, the listing or a classification fails. */
  method RunBuilder(o: BuildOptions, succeeds: Command -> bool, listing: Option<seq<Entry>>,
                    resolve: string -> string, digest: string -> string)
    returns (run: Command, outputs: BuildOutputs, failed: bool)
    ensures run == RunCommand(o)
    ensures outputs == BuildResult(succeeds(run), listing, resolve, digest)
    ensures failed <==> !succeeds(run) || outputs == EmptyOutputs
  {
    BuildResultEmpty(succeeds(RunCommand(o)), listing, resolve, digest);
    var podmanArgs, bibArgs := AssembleCommand(o);
    run := Command(Executable, Tokenize(podmanArgs + bibArgs));
    if !succeeds(run) {
      return run, EmptyOutputs, true;
    }

    if listing.None? {
      return run, EmptyOutputs, true;
    }
    var manifestPath := ManifestPath(OutputDirectory, listing.value);
    var outputArtifacts := ExtractArtifactTypes(listing.value, resolve, digest);
    if outputArtifacts.Err? {
      return run, EmptyOutputs, true;
    }
    outputs := BuildOutputs(manifestPath, OutputDirectory, outputArtifacts.value);
    failed := false;
  }
}
