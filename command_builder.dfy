/** Construction of the `podman` command lines: the runtime argument list of
    `podman run`, the argument list of the image builder running inside the
    container, their flattening into one argv, and the argv of `podman pull`. */
module CommandBuilder {
  import opened Wrappers
  import opened JsStrings
  import opened BibTypes

  const Executable := "podman"
  const OutputDirectory := "./output"
  const SecurityOpt := "--security-opt label=type:unconfined_t"
  const StorageVolume := "--volume /var/lib/containers/storage:/var/lib/containers/storage"
  const OutputVolume := "--volume " + (OutputDirectory + ":/output")
  const AwsEnv := "--env AWS_*"

  /** The read-only mount of the config file; the in-container name keeps the
      text after the last `.` of the host path. */
  function ConfigVolume(configFilePath: string): string
  {
    "--volume " + (configFilePath + ":/config." + LastSegment(configFilePath, '.') + ":ro")
  }

  /** `options.types?.includes('aws')`: an exact match on the raw list. */
  predicate RequestsAws(o: BuildOptions)
  {
    "aws" in o.types
  }

  /** A flag carrying a value when the value is set, otherwise the empty
      placeholder that is filtered out later. */
  function OptionalFlag(flag: string, value: string): string
  {
    if value != "" then flag + value else ""
  }

  function TlsSlot(tlsVerify: bool): string
  {
    if tlsVerify then "" else "--tls-verify false"
  }

  /** `type.trim() !== ''` */
  predicate NotBlank(t: string)
  {
    Trim(t) != ""
  }

  /** The requested types that are not blank, in their original order. */
  function NonBlankTypes(types: seq<string>): seq<string>
  {
    Filter(types, NotBlank)
  }

  function TypeFlag(t: string): string
  {
    "--type " + t
  }

  /** `--type <t>` for each element, in order. */
  function TypeFlagEach(types: seq<string>): seq<string>
  {
    if types == [] then [] else [TypeFlag(types[0])] + TypeFlagEach(types[1..])
  }

  /** One `--type` argument per non-blank requested type. */
  function TypeFlags(types: seq<string>): seq<string>
  {
    TypeFlagEach(NonBlankTypes(types))
  }

  /** A template-literal interpolation of a possibly missing field. */
  function Interpolate(field: Option<string>): string
  {
    match field
    case Some(v) => v
    case None => "undefined"
  }

  /** The AWS flags of the builder: bucket and AMI name always (the literal
      `undefined` when no AWS options were given), the region only when set. */
  function AwsToolFlags(aws: Option<AwsOptions>): seq<string>
  {
    var bucket := if aws.Some? then Some(aws.value.bucketName) else None;
    var ami := if aws.Some? then Some(aws.value.amiName) else None;
    var region := if aws.Some? then aws.value.region else "";
    ["--aws-bucket " + Interpolate(bucket),
     "--aws-ami-name " + Interpolate(ami),
     OptionalFlag("--aws-region ", region)]
  }

  /** The fixed arguments of `podman run`. */
  function RuntimeHead(o: BuildOptions): seq<string>
  {
    ["run"] + ["--rm"] + ["--privileged"] + [SecurityOpt] + [StorageVolume] + [OutputVolume]
    + [ConfigVolume(o.configFilePath)]
  }

  /** The arguments of `podman run`, ending with the builder image. */
  function RuntimeArgs(o: BuildOptions): seq<string>
  {
    RuntimeHead(o)
    + (if RequestsAws(o) then [AwsEnv] else [])
    + [o.builderImage]
  }

  /** The six leading slots of the builder's arguments; an unset option
      leaves an empty placeholder. */
  function ToolHead(o: BuildOptions): seq<string>
  {
    ["build"] + ["--output /output"] + [TlsSlot(o.tlsVerify)]
    + [OptionalFlag("--chown ", o.chown)] + [OptionalFlag("--rootfs ", o.rootfs)]
    + [OptionalFlag("", o.additionalArgs)]
  }

  /** The arguments of the image builder, ending with the image to convert. */
  function ToolArgs(o: BuildOptions): seq<string>
  {
    ToolHead(o)
    + TypeFlags(o.types)
    + (if RequestsAws(o) then AwsToolFlags(o.awsOptions) else [])
    + [o.image]
  }

  /** The two argument lists, grown one push at a time as the action does. */
  method AssembleCommand(o: BuildOptions) returns (podmanArgs: seq<string>, bibArgs: seq<string>)
    ensures podmanArgs == RuntimeArgs(o) && bibArgs == ToolArgs(o)
  {
    podmanArgs := ["run"];
    podmanArgs := podmanArgs + ["--rm"];
    podmanArgs := podmanArgs + ["--privileged"];
    podmanArgs := podmanArgs + [SecurityOpt];
    podmanArgs := podmanArgs + [StorageVolume];
    podmanArgs := podmanArgs + [OutputVolume];
    podmanArgs := podmanArgs + [ConfigVolume(o.configFilePath)];

    bibArgs := ["build"];
    bibArgs := bibArgs + ["--output /output"];
    bibArgs := bibArgs + [TlsSlot(o.tlsVerify)];
    bibArgs := bibArgs + [OptionalFlag("--chown ", o.chown)];
    bibArgs := bibArgs + [OptionalFlag("--rootfs ", o.rootfs)];
    bibArgs := bibArgs + [OptionalFlag("", o.additionalArgs)];

    bibArgs := PushTypeFlags(bibArgs, o.types);

    if "aws" in o.types {
      podmanArgs := podmanArgs + [AwsEnv];
      bibArgs := PushAwsFlags(bibArgs, o.awsOptions);
    }

    podmanArgs := podmanArgs + [o.builderImage];
    bibArgs := bibArgs + [o.image];
  }

  /** Pushes one `--type` flag per non-blank requested type. */
  method PushTypeFlags(args: seq<string>, types: seq<string>) returns (r: seq<string>)
    ensures r == args + TypeFlags(types)
  {
    var bibTypeArgs: seq<string> := [];
    if |types| > 0 {
      bibTypeArgs := TypeFlags(types);
    }
    r := args + bibTypeArgs;
  }

  /** Pushes the bucket, AMI name and region flags. */
  method PushAwsFlags(args: seq<string>, aws: Option<AwsOptions>) returns (r: seq<string>)
    ensures r == args + AwsToolFlags(aws)
  {
    r := args;
    r := r + ["--aws-bucket " + Interpolate(if aws.Some? then Some(aws.value.bucketName) else None)];
    r := r + ["--aws-ami-name " + Interpolate(if aws.Some? then Some(aws.value.amiName) else None)];
    r := r + [OptionalFlag("--aws-region ", if aws.Some? then aws.value.region else "")];
  }

  /** What the process receives for a list of arguments: the non-empty ones,
      joined with single spaces and split again at every space. */
  function Tokenize(args: seq<string>): seq<string>
  {
    Split(Join(DropEmpty(args), ' '), ' ')
  }

  /** The argv of `podman` for a build. */
  function Argv(o: BuildOptions): seq<string>
  {
    Tokenize(RuntimeArgs(o) + ToolArgs(o))
  }

  /** The argv of `podman pull`; no join/split happens here, so the TLS flag
      is the single token `--tls-verify=false`. */
  function PullArgs(image: string, tlsVerify: bool): seq<string>
  {
    DropEmpty(["pull", if tlsVerify then "" else "--tls-verify=false", image])
  }

  // ---------------------------------------------------------------------
  // The runtime and tool lists

  /** The fixed runtime prefix, the AWS environment forwarding exactly when
      AWS is requested, and the builder image in the last position. */
  lemma RuntimeArgsShape(o: BuildOptions)
    ensures var r := RuntimeArgs(o);
      && |r| == (if RequestsAws(o) then 9 else 8)
      && r[..6] == ["run", "--rm", "--privileged", SecurityOpt, StorageVolume, OutputVolume]
      && r[6] == ConfigVolume(o.configFilePath)
      && r[|r| - 1] == o.builderImage
      && (AwsEnv in r[..|r| - 1] <==> RequestsAws(o))
  {
    var r := RuntimeArgs(o);
    // the fixed arguments all differ from AwsEnv in length
    assert |r[6]| > |AwsEnv|;
    assert r[..|r| - 1] == r[..7] + (if RequestsAws(o) then [AwsEnv] else []);
  }

  /** The config file is mounted under `/config.<ext>`, where `<ext>` holds no
      dot and ends the host path, after a dot unless the path has none. */
  lemma ConfigVolumeExtension(path: string)
    ensures var ext := LastSegment(path, '.');
      && ConfigVolume(path) == "--volume " + (path + ":/config." + ext + ":ro")
      && '.' !in ext && |ext| <= |path| && path[|path| - |ext|..] == ext
      && ('.' in path ==> path[|path| - |ext| - 1] == '.')
      && ('.' !in path ==> ext == path)
  {
    LastSegmentSuffix(path, '.');
    var ext := LastSegment(path, '.');
    if '.' !in path {
      LastSegmentNoSeparator(path, '.');
    }
    assert path[0..] == path;
    assert '.' in path ==> path != ext;
  }

  /** The builder's list in the source order: the six fixed slots, the type
      flags, the AWS flags exactly when AWS is requested, and the image last. */
  lemma ToolArgsShape(o: BuildOptions)
    ensures var r := ToolArgs(o);
      var n := |TypeFlags(o.types)|;
      var aws := if RequestsAws(o) then AwsToolFlags(o.awsOptions) else [];
      && |r| == 7 + n + |aws|
      && r[0] == "build" && r[1] == "--output /output" && r[2] == TlsSlot(o.tlsVerify)
      && r[3] == OptionalFlag("--chown ", o.chown) && r[4] == OptionalFlag("--rootfs ", o.rootfs)
      && r[5] == OptionalFlag("", o.additionalArgs)
      && r[6..6 + n] == TypeFlags(o.types)
      && r[6 + n..|r| - 1] == aws
      && r[|r| - 1] == o.image
  {
    var aws := if RequestsAws(o) then AwsToolFlags(o.awsOptions) else [];
    ToolHeadSlots(o);
    ListShape(ToolHead(o), TypeFlags(o.types), aws, o.image);
  }

  /** The six fixed slots of the builder's list. */
  lemma ToolHeadSlots(o: BuildOptions)
    ensures var h := ToolHead(o);
      && |h| == 6 && h[0] == "build" && h[1] == "--output /output" && h[2] == TlsSlot(o.tlsVerify)
      && h[3] == OptionalFlag("--chown ", o.chown) && h[4] == OptionalFlag("--rootfs ", o.rootfs)
      && h[5] == OptionalFlag("", o.additionalArgs)
  {
  }

  /** Where the parts of `head + middle + tail + [last]` sit. */
  lemma ListShape(head: seq<string>, middle: seq<string>, tail: seq<string>, last: string)
    ensures var r := head + middle + tail + [last];
      && |r| == |head| + |middle| + |tail| + 1
      && r[..|head|] == head
      && r[|head|..|head| + |middle|] == middle
      && r[|head| + |middle|..|r| - 1] == tail
      && r[|r| - 1] == last
  {
    var r := head + middle + tail + [last];
    assert r[..|head|] == head;
    assert r[|head|..|head| + |middle|] == middle;
    assert r[|head| + |middle|..|r| - 1] == tail;
  }

  // ---------------------------------------------------------------------
  // Type flags

  /** Type flags are produced entry by entry, preserving the request order. */
  lemma {:induction false} TypeFlagEachAppend(a: seq<string>, b: seq<string>)
    ensures TypeFlagEach(a + b) == TypeFlagEach(a) + TypeFlagEach(b)
    decreases |a|
  {
    if a == [] {
      assert a + b == b;
    } else {
      assert (a + b)[0] == a[0];
      assert (a + b)[1..] == a[1..] + b;
      TypeFlagEachAppend(a[1..], b);
    }
  }

  lemma {:induction false} TypeFlagsAppend(a: seq<string>, b: seq<string>)
    ensures TypeFlags(a + b) == TypeFlags(a) + TypeFlags(b)
  {
    FilterAppend(a, b, NotBlank);
    TypeFlagEachAppend(NonBlankTypes(a), NonBlankTypes(b));
  }

  /** A single requested type yields one flag, unless it is blank. */
  lemma TypeFlagsSingle(t: string)
    ensures TypeFlags([t]) == if IsBlank(t) then [] else [TypeFlag(t)]
  {
    TrimEmptyIffBlank(t);
    assert [t] == [t] + [];
    FilterCons(t, [], NotBlank);
    assert [t][1..] == [];
    assert TypeFlagEach([t]) == [TypeFlag(t)] + TypeFlagEach([]);
  }

  /** For a non-blank type, the number of `--type t` flags equals the number
      of times `t` was requested. */
  lemma {:induction false} TypeFlagsCount(types: seq<string>, t: string)
    requires !IsBlank(t)
    ensures multiset(TypeFlags(types))[TypeFlag(t)] == multiset(types)[t]
    decreases |types|
  {
    if types != [] {
      assert types == [types[0]] + types[1..];
      TypeFlagsAppend([types[0]], types[1..]);
      TypeFlagsSingle(types[0]);
      TypeFlagsCount(types[1..], t);
      if TypeFlag(types[0]) == TypeFlag(t) {
        assert types[0] == TypeFlag(types[0])[7..] == TypeFlag(t)[7..] == t;
      }
    }
  }

  /** A blank entry never yields a flag. */
  lemma TypeFlagsSkipBlank(types: seq<string>, t: string)
    requires IsBlank(t)
    ensures TypeFlags(types + [t]) == TypeFlags(types)
  {
    TypeFlagsAppend(types, [t]);
    TypeFlagsSingle(t);
  }

  // ---------------------------------------------------------------------
  // AWS flags

  /** With AWS requested, bucket and AMI flags are present and the region
      flag is present, carrying the region, exactly when a region is given. */
  lemma AwsFlags(o: BuildOptions)
    requires RequestsAws(o)
    ensures var r := ToolArgs(o);
      var aws := AwsToolFlags(o.awsOptions);
      && r[|r| - 4..|r| - 1] == aws
      && aws[0] == "--aws-bucket " + (if o.awsOptions.Some? then o.awsOptions.value.bucketName else "undefined")
      && aws[1] == "--aws-ami-name " + (if o.awsOptions.Some? then o.awsOptions.value.amiName else "undefined")
      && (aws[2] != "" <==> o.awsOptions.Some? && o.awsOptions.value.region != "")
      && (o.awsOptions.Some? && o.awsOptions.value.region != "" ==>
            aws[2] == "--aws-region " + o.awsOptions.value.region)
  {
    ToolArgsShape(o);
  }

  // ---------------------------------------------------------------------
  // Flattening into one argv

  /** The tokens of the runtime list come before the tokens of the tool
      list, and each surviving argument is split at its spaces. */
  lemma TokenizeOrder(runtime: seq<string>, tool: seq<string>)
    requires DropEmpty(runtime + tool) != []
    ensures Tokenize(runtime + tool)
         == SplitEach(DropEmpty(runtime), ' ') + SplitEach(DropEmpty(tool), ' ')
  {
    FilterAppend(runtime, tool, NonEmpty);
    SplitJoin(DropEmpty(runtime + tool), ' ');
    SplitEachAppend(DropEmpty(runtime), DropEmpty(tool), ' ');
  }

  /** When no surviving argument holds a space, the argv is exactly the
      non-empty arguments in order, and it holds no empty token. */
  lemma TokenizeSpaceFree(args: seq<string>)
    requires DropEmpty(args) != []
    requires forall i :: 0 <= i < |DropEmpty(args)| ==> ' ' !in DropEmpty(args)[i]
    ensures Tokenize(args) == DropEmpty(args)
    ensures "" !in Tokenize(args)
  {
    var kept := DropEmpty(args);
    SplitJoin(kept, ' ');
    SplitEachIdentity(kept, ' ');
    forall i | 0 <= i < |kept| ensures kept[i] != "" {
      FilterAccepted(args, NonEmpty, i);
    }
  }

  /** A surviving argument holding a space, wherever it stands, reaches the
      process as several tokens: there are more tokens than arguments. */
  lemma TokenizeBreaksSpaces(args: seq<string>, i: nat)
    requires i < |DropEmpty(args)| && ' ' in DropEmpty(args)[i]
    ensures |Tokenize(args)| > |DropEmpty(args)|
  {
    SplitJoin(DropEmpty(args), ' ');
    SplitEachGrows(DropEmpty(args), ' ', i);
  }

  /** The build argv: all runtime tokens, then all tool tokens. */
  lemma ArgvLayout(o: BuildOptions)
    ensures Argv(o) == SplitEach(DropEmpty(RuntimeArgs(o)), ' ') + SplitEach(DropEmpty(ToolArgs(o)), ' ')
  {
    var all := RuntimeArgs(o) + ToolArgs(o);
    assert all[0] == "run";
    assert [all[0]] + all[1..] == all;
    FilterAppend([all[0]], all[1..], NonEmpty);
    TokenizeOrder(RuntimeArgs(o), ToolArgs(o));
  }

  /** A space-free builder image ends the runtime tokens and a space-free
      image ends the argv. */
  lemma ArgvEndsWithImages(o: BuildOptions)
    requires o.builderImage != "" && ' ' !in o.builderImage
    requires o.image != "" && ' ' !in o.image
    ensures var rt := SplitEach(DropEmpty(RuntimeArgs(o)), ' ');
      |rt| > 0 && rt[|rt| - 1] == o.builderImage
    ensures |Argv(o)| > 0 && Argv(o)[|Argv(o)| - 1] == o.image
  {
    ArgvLayout(o);
    var rt := RuntimeArgs(o);
    var tl := ToolArgs(o);
    var keep := NonEmpty;
    assert rt == rt[..|rt| - 1] + [o.builderImage];
    assert tl == tl[..|tl| - 1] + [o.image];
    FilterAppend(rt[..|rt| - 1], [o.builderImage], keep);
    FilterAppend(tl[..|tl| - 1], [o.image], keep);
    assert DropEmpty([o.builderImage]) == [o.builderImage];
    assert DropEmpty([o.image]) == [o.image];
    SplitEachAppend(DropEmpty(rt[..|rt| - 1]), [o.builderImage], ' ');
    SplitEachAppend(DropEmpty(tl[..|tl| - 1]), [o.image], ' ');
    SplitEachIdentity([o.builderImage], ' ');
    SplitEachIdentity([o.image], ' ');
  }

  /** Unlike the pull command, the build splits the TLS flag into the two
      tokens `--tls-verify` and `false`, right after `build --output /output`. */
  lemma ArgvTlsTokens(o: BuildOptions)
    requires !o.tlsVerify
    ensures var t := SplitEach(DropEmpty(ToolArgs(o)), ' ');
      |t| >= 5 && t[..5] == ["build", "--output", "/output", "--tls-verify", "false"]
  {
    var tl := ToolArgs(o);
    var head := ["build", "--output /output", "--tls-verify false"];
    assert tl[..3] == head;
    assert tl == head + tl[3..];
    FilterAppend(head, tl[3..], NonEmpty);
    FilterKeepsAll(head, NonEmpty);
    SplitEachAppend(head, DropEmpty(tl[3..]), ' ');
    InsecureHeadTokens();
  }

  lemma InsecureHeadTokens()
    ensures SplitEach(["build", "--output /output", "--tls-verify false"], ' ')
         == ["build", "--output", "/output", "--tls-verify", "false"]
  {
    HeadLiterals();
    SplitEachWords("build", "--output", "/output", "--tls-verify", "false");
  }

  lemma HeadLiterals()
    ensures "--output /output" == "--output" + [' '] + "/output"
    ensures "--tls-verify false" == "--tls-verify" + [' '] + "false"
    ensures ' ' !in "build" && ' ' !in "--output" && ' ' !in "/output"
    ensures ' ' !in "--tls-verify" && ' ' !in "false"
  {
  }

  lemma SplitEachWords(a: string, b: string, c: string, d: string, e: string)
    requires ' ' !in a && ' ' !in b && ' ' !in c && ' ' !in d && ' ' !in e
    ensures SplitEach([a, b + [' '] + c, d + [' '] + e], ' ') == [a, b, c, d, e]
  {
    SplitTwo(b, c, ' ');
    SplitTwo(d, e, ' ');
    SplitNoSeparator(a, ' ');
    var x, y := b + [' '] + c, d + [' '] + e;
    assert [a, x, y] == [a] + ([x] + [y]);
    SplitEachAppend([a], [x] + [y], ' ');
    SplitEachAppend([x], [y], ' ');
    SplitEachOne(a);
    SplitEachOne(x);
    SplitEachOne(y);
  }

  lemma SplitEachOne(a: string)
    ensures SplitEach([a], ' ') == Split(a, ' ')
  {
    assert [a][1..] == [];
  }

  /** `podman pull` receives `pull`, the single-token TLS flag when TLS
      verification is off, and the image unless it is empty. */
  lemma PullArgsShape(image: string, tlsVerify: bool)
    ensures PullArgs(image, tlsVerify)
         == ["pull"] + (if tlsVerify then [] else ["--tls-verify=false"]) + (if image == "" then [] else [image])
  {
    var keep := NonEmpty;
    var tls := if tlsVerify then "" else "--tls-verify=false";
    assert ["pull", tls, image] == ["pull"] + ([tls] + [image]);
    FilterCons("pull", [tls] + [image], keep);
    FilterCons(tls, [image], keep);
    FilterCons(image, [], keep);
  }

  // ---------------------------------------------------------------------
  // Scenarios

  /** Blank and white-space-only entries around a real type are dropped. */
  lemma BlanksAroundType(a: string, b: string, t: string)
    requires IsBlank(a) && IsBlank(b) && !IsBlank(t)
    ensures TypeFlags([a, b, t]) == [TypeFlag(t)]
  {
    assert [a, b, t] == [a, b] + [t];
    assert [a, b] == [a] + [b];
    TypeFlagsAppend([a, b], [t]);
    TypeFlagsAppend([a], [b]);
    TypeFlagsSingle(a);
    TypeFlagsSingle(b);
    TypeFlagsSingle(t);
  }

  lemma BlankTypesDropped()
    ensures TypeFlags(["", "  ", "qcow2"]) == ["--type qcow2"]
  {
    assert TypeFlag("qcow2") == "--type qcow2";
    assert IsBlank("  ") by { assert IsWhiteSpace(' '); }
    assert !IsBlank("qcow2") by { assert !IsWhiteSpace("qcow2"[0]); }
    BlanksAroundType("", "  ", "qcow2");
  }

  /** A build with TLS verification on, no optional flags and a single
      non-AWS type keeps exactly four builder arguments. */
  lemma PlainBuild(o: BuildOptions, t: string)
    requires o.tlsVerify && o.chown == "" && o.rootfs == "" && o.additionalArgs == ""
    requires o.types == [t] && !IsBlank(t) && t != "aws" && o.image != ""
    ensures DropEmpty(ToolArgs(o)) == ["build", "--output /output", TypeFlag(t), o.image]
  {
    PlainToolArgs(o, t);
    DropEmptyMiddle(["build", "--output /output"], ["", "", "", ""], [TypeFlag(t), o.image]);
  }

  lemma PlainToolArgs(o: BuildOptions, t: string)
    requires o.tlsVerify && o.chown == "" && o.rootfs == "" && o.additionalArgs == ""
    requires o.types == [t] && !IsBlank(t) && t != "aws"
    ensures ToolArgs(o) == ["build", "--output /output"] + ["", "", "", ""] + [TypeFlag(t), o.image]
  {
    TypeFlagsSingle(t);
    assert ToolHead(o) == ["build", "--output /output"] + ["", "", "", ""];
  }

  lemma DropEmptyMiddle(keep: seq<string>, mid: seq<string>, tail: seq<string>)
    requires forall i :: 0 <= i < |keep| ==> keep[i] != ""
    requires forall i :: 0 <= i < |mid| ==> mid[i] == ""
    requires forall i :: 0 <= i < |tail| ==> tail[i] != ""
    ensures DropEmpty(keep + mid + tail) == keep + tail
  {
    FilterAppend(keep, mid, NonEmpty);
    FilterKeepsAll(keep, NonEmpty);
    FilterDropsAll(mid, NonEmpty);
    assert keep + [] == keep;
    FilterAppend(keep + mid, tail, NonEmpty);
    FilterKeepsAll(tail, NonEmpty);
  }

  /** A qcow2 build of `quay.io/x/base` keeps only four builder arguments. */
  lemma Qcow2Scenario()
    ensures var o := BuildOptions("/tmp/c.toml", "quay.io/x/base", "quay.io/x/bib",
                                  "", "", "", true, ["qcow2"], None);
      DropEmpty(ToolArgs(o)) == ["build", "--output /output", "--type qcow2", "quay.io/x/base"]
  {
    var o := BuildOptions("/tmp/c.toml", "quay.io/x/base", "quay.io/x/bib",
                          "", "", "", true, ["qcow2"], None);
    Qcow2Literals();
    PlainBuild(o, "qcow2");
  }

  lemma Qcow2Literals()
    ensures !IsBlank("qcow2") && "qcow2" != "aws" && TypeFlag("qcow2") == "--type qcow2"
  {
    assert !IsWhiteSpace("qcow2"[0]);
  }

  /** `/tmp/c.toml` is mounted under the extension `toml`. */
  lemma TomlConfigScenario()
    ensures LastSegment("/tmp/c.toml", '.') == "toml"
  {
    assert "/tmp/c.toml" == "/tmp/c" + ['.'] + "toml";
    SplitTwo("/tmp/c", "toml", '.');
  }
}
