/** config/config.go: the settings the pipelines read, and how runs end. */
module Config {
  import opened Wrappers
  import opened World

  datatype Config = Config(
    gcsBucket: string,
    s3Bucket: string,
    hostname: string,
    tmpDir: string,
    acceptance: bool,
    version: string,
    encryption: string,
    objectPrefix: string,
    storage: Option<Provider>)

  // Where a service run stopped.
  datatype Stage =
    | Collecting | Staging | Archiving | Uploading
    | Downloading | Extracting | Inspecting | Loading | Replaying(errors: nat)

  datatype Outcome = Completed | Stopped(at: Stage)
}
