/** The records exchanged between the action's entry point and its build
    logic (src/types.ts). Optional strings are modelled as strings in which
    the empty string stands for "not given": every use in the action is a
    JavaScript truthiness test, which treats `undefined` and `''` alike. */
module BibTypes {
  import opened Wrappers

  /** Options for publishing the image as an Amazon machine image. */
  datatype AwsOptions = AwsOptions(amiName: string, bucketName: string, region: string)

  /** One build request. An absent `types` list behaves exactly like `[]`. */
  datatype BuildOptions = BuildOptions(
    configFilePath: string,
    image: string,
    builderImage: string,
    additionalArgs: string,
    chown: string,
    rootfs: string,
    tlsVerify: bool,
    types: seq<string>,
    awsOptions: Option<AwsOptions>)

  /** One produced image; the checksum is set once it has been computed. */
  datatype OutputArtifact = OutputArtifact(artifactType: string, path: string, checksum: Option<string>)

  /** The result of one build: the manifest, the output directory and the
      artifacts keyed by their type. */
  datatype BuildOutputs = BuildOutputs(
    manifestPath: string,
    outputDirectory: string,
    outputArtifacts: map<string, OutputArtifact>)

  /** The well-formed but empty result returned after any failure. */
  const EmptyOutputs := BuildOutputs("", "", map[])
}
