/** Application-wide names and the database configuration of the main
    process. */
module Constants {
  import opened Wrappers

  const AppName := "electron_example"
  const PackagedDbName := "electron_example.db"
  const DevDbName := "electron_example.dev.db"
  const DbTimeoutMs := 5000

  /** The part of Electron's `app` object the name choice reads. */
  datatype ElectronApp = ElectronApp(isPackaged: bool)

  /** The module-level handle: initialised to `null` and never assigned. */
  const electronApp: Option<ElectronApp> := None

  /** The name chosen in the `try` branch from `electronApp?.isPackaged`. */
  function DbNameFor(app: Option<ElectronApp>): (name: string)
    ensures name == PackagedDbName || name == DevDbName
    ensures name == PackagedDbName <==> app.Some? && app.value.isPackaged
  {
    if app.Some? && app.value.isPackaged then PackagedDbName else DevDbName
  }

  /** The name the `catch` branch would choose from `NODE_ENV`. The branch is
      unreachable: optional chaining on a plain value cannot throw. */
  function FallbackDbName(nodeEnv: Option<string>): (name: string)
    ensures name == PackagedDbName || name == DevDbName
    ensures name == PackagedDbName <==> nodeEnv == Some("production")
  {
    if nodeEnv == Some("production") then PackagedDbName else DevDbName
  }

  /** `getDbName()`: since the handle stays `null`, always the development
      name, whatever the environment. */
  function GetDbName(): (name: string)
    ensures name == DevDbName
    ensures name != PackagedDbName
  {
    DbNameFor(electronApp)
  }

  datatype DbConfig = DbConfig(name: string, timeout: nat, appName: string)

  /** `getDbConfig()`. */
  function GetDbConfig(): (c: DbConfig)
    ensures c.name == DevDbName
    ensures c.timeout == 5000
    ensures c.appName == "electron_example"
  {
    DbConfig(GetDbName(), DbTimeoutMs, AppName)
  }
}
