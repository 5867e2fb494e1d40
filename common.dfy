/** The job description the bash generator reads and the script document it
    returns (the `common.Build`, `common.ShellScriptInfo` and
    `common.ShellScript` records), together with the collaborators whose
    code is not part of this model, passed in as a `Library` of functions. */
module Common {

  datatype Option<+T> = None | Some(value: T)

  /** `helpers.BoolOrDefault` on a `*bool`: the value when set, the default
      otherwise. */
  function BoolOrDefault(b: Option<bool>, default: bool): bool
  {
    match b
    case Some(v) => v
    case None => default
  }

  /** A dynamically typed Go value (`interface{}`) as the build options
      carry them: `nil`, a `bool`, a `string`, a `[]interface{}`, a
      `map[string]interface{}`, or a value of any other Go type. */
  datatype Value =
    | Nil
    | Bool(b: bool)
    | Str(s: string)
    | List(items: seq<Value>)
    | Hash(entries: map<string, Value>)
    | Other

  /** Reading a key of a Go map: a missing key reads as `nil`. */
  function Lookup(m: map<string, Value>, key: string): Value
  {
    if key in m then m[key] else Nil
  }

  /** The part of the runner configuration the generator reads. */
  datatype RunnerConfig = RunnerConfig(url: string, disableVerbose: Option<bool>)

  /** The part of `common.Build` the generator reads.  `projectDir` is the
      value `Build.FullProjectDir()` returns. */
  datatype Build = Build(
    id: int,
    token: string,
    repoURL: string,
    sha: string,
    refName: string,
    commands: string,
    allowGitFetch: bool,
    hostname: string,
    options: map<string, Value>,
    runner: RunnerConfig,
    projectDir: string)

  datatype ShellType = NormalShell | LoginShell

  /** `common.ShellScriptInfo`: `user` is the `*string` execution identity. */
  datatype ShellScriptInfo = ShellScriptInfo(
    build: Build,
    shellType: ShellType,
    user: Option<string>,
    environment: seq<string>)

  /** `common.ShellScript`: the script text, the environment to run it with
      and the interpreter invocation. */
  datatype ShellScript = ShellScript(
    script: string,
    environment: seq<string>,
    command: string,
    arguments: seq<string>)

  /** The functions and constants the generator calls but whose code is not
      part of this model; every generator takes them as a parameter, so
      nothing here depends on how they are written.
      - shellEscape: `helpers.ShellEscape`
      - quote: Go's `%q` verb and `strconv.Quote` on a string (the two agree)
      - cleanPath: `path.Clean`
      - joinPath: `filepath.Join` of two elements
      - toSlash: `helpers.ToSlash`
      - ansiBoldGreen, ansiReset: `helpers.ANSI_BOLD_GREEN`, `helpers.ANSI_RESET`
      - getVariables: `AbstractShell.GetVariables(build, projectDir, environment)`
      - artifactsUploadURL: `common.GetArtifactsUploadURL(runner, buildID)` */
  datatype Library = Library(
    shellEscape: string -> string,
    quote: string -> string,
    cleanPath: string -> string,
    joinPath: (string, string) -> string,
    toSlash: string -> string,
    ansiBoldGreen: string,
    ansiReset: string,
    getVariables: (Build, string, seq<string>) -> seq<string>,
    artifactsUploadURL: (RunnerConfig, int) -> string)
}
