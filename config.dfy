/** The application settings that the core reads (api/config.py). Values that
  * come from the process environment are gathered in `EnvSettings` and passed
  * in as parameters; fixed defaults are constants. */
module Config {
  import opened Wrappers

  /** `Decimal(str(0.02))`: exactly two hundredths. */
  const VALIDATION_TOLERANCE: real := 0.02

  const STORAGE_PATH: string := "/app/storage/receipts"

  const DEFAULT_AWS_REGION: string := "us-west-2"

  /** The values loaded from the environment (or `.env`): `None` where the
    * variable is unset. */
  datatype EnvSettings = EnvSettings(
    awsAccessKeyId: Option<string>,
    awsSecretAccessKey: Option<string>,
    awsRegion: string,
    googleApiKey: Option<string>)
}
