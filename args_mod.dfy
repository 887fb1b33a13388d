/**
 * The command-line layer of src/args/mod.rs: the privilege gate
 * `CallArgs::validate` and the decoding half of
 * `ClapArgumentLoader::load_from_cli`, built with every backend feature
 * (`backend+cli`, `backend+ui`) enabled.
 */
module ArgsMod {
  import opened Wrappers
  import Overrides

  datatype Privilege = Normal | Experimental

  datatype ShellTrust = None | Prompt | Ultimate

  datatype Backend = CLI | UI

  datatype RenderArguments = RenderArguments(
    configuration: string,
    template: Option<string>,
    valueOverrides: map<string, string>,
    shellTrust: ShellTrust,
    backend: Backend)

  datatype Command = Init | Render(args: RenderArguments)

  datatype CallArgs = CallArgs(privileges: Privilege, command: Command)

  /**
   * `std::io::Error` as this layer produces it: an `Other` error with a
   * message, or whatever reading the configuration file failed with.
   */
  datatype Error = Other(message: string) | Io

  const UiDenied := "can not use backend+ui without experimental features being activated"
  const OverridesDenied := "value overrides is an experimental feature and needs the respective flag to be active"
  const ConfigMissing := "configuration not specified"
  const UnknownBackend := "unknown backend configuration"
  const NoSubcommand := "could not resolve subcommand"

  /**
   * The privilege gate. Under normal privilege a render may not use the UI
   * backend, and after that may not carry overrides; everything else passes.
   */
  function Validate(call: CallArgs): (r: Result<(), Error>)
    ensures call.privileges == Experimental ==> r == Ok(())
    ensures call.privileges == Normal && call.command == Init ==> r == Ok(())
    ensures call.privileges == Normal && call.command.Render? && call.command.args.backend == UI
      ==> r == Err(Other(UiDenied))
    ensures call.privileges == Normal && call.command.Render? && call.command.args.backend == CLI
      && |call.command.args.valueOverrides| > 0
      ==> r == Err(Other(OverridesDenied))
    ensures r.Ok? <==>
      call.privileges == Experimental || call.command == Init
      || (call.command.args.backend == CLI && |call.command.args.valueOverrides| == 0)
  {
    match call.privileges
    case Normal =>
      (match call.command
       case Render(args) =>
         (match args.backend
          case UI => Err(Other(UiDenied))
          case CLI =>
            if |args.valueOverrides| > 0 then Err(Other(OverridesDenied))
            else Ok(()))
       case _ => Ok(()))
    case Experimental => Ok(())
  }

  /** `-e`/`--experimental` selects experimental privilege. */
  function PrivilegeOf(experimental: bool): (p: Privilege)
    ensures p == Experimental <==> experimental
  {
    if experimental then Experimental else Normal
  }

  /** The command-line spelling of each trust mode. */
  function TrustName(t: ShellTrust): string {
    match t
    case None => "none"
    case Prompt => "prompt"
    case Ultimate => "ultimate"
  }

  /** The `--shell-trust` value; unknown and absent values fall back to `None`. */
  function DecodeTrust(value: Option<string>): (t: ShellTrust)
    ensures t == Prompt <==> value == Some("prompt")
    ensures t == Ultimate <==> value == Some("ultimate")
    ensures value.Some? && t != ShellTrust.None ==> TrustName(t) == value.value
  {
    match value
    case Some(name) =>
      if name == "none" then ShellTrust.None
      else if name == "prompt" then Prompt
      else if name == "ultimate" then Ultimate
      else ShellTrust.None
    case None => ShellTrust.None
  }

  lemma TrustRoundTrip(t: ShellTrust)
    ensures DecodeTrust(Some(TrustName(t))) == t
  {
  }

  /** The command-line spelling of each backend. */
  function BackendName(b: Backend): string {
    match b
    case CLI => "cli"
    case UI => "ui"
  }

  /**
   * The `--backend` value: `cli` or `ui`, the first arm `CLI` when absent,
   * and an error for any other name.
   */
  function DecodeBackend(value: Option<string>): (r: Result<Backend, Error>)
    ensures value.None? ==> r == Ok(CLI)
    ensures value.Some? ==> (r.Ok? <==> value.value in {"cli", "ui"})
    ensures value.Some? && r.Ok? ==> BackendName(r.value) == value.value
    ensures r.Err? ==> r.error == Other(UnknownBackend)
  {
    match value
    case Some(name) =>
      if name == "cli" then Ok(CLI)
      else if name == "ui" then Ok(UI)
      else Err(Other(UnknownBackend))
    case None => Ok(CLI)
  }

  lemma BackendRoundTrip(b: Backend)
    ensures DecodeBackend(Some(BackendName(b))) == Ok(b)
  {
  }

  /**
   * The backend names offered to the `--backend` argument, one pushed per
   * enabled feature; the first is the argument's default.
   */
  method BackendValues(cliFeature: bool, uiFeature: bool) returns (values: seq<string>)
    ensures forall n :: n in values <==> (n == "cli" && cliFeature) || (n == "ui" && uiFeature)
    ensures |values| == (if cliFeature then 1 else 0) + (if uiFeature then 1 else 0)
    ensures |values| > 0 <==> cliFeature || uiFeature
    ensures cliFeature ==> values[0] == "cli"
    ensures cliFeature && uiFeature ==>
      (forall n :: n in values <==> DecodeBackend(Some(n)).Ok?) && DecodeBackend(Some(values[0])) == DecodeBackend(Option.None)
  {
    values := [];
    if cliFeature {
      values := values + ["cli"];
    }
    if uiFeature {
      values := values + ["ui"];
    }
  }

  /** The matches of the `render` subcommand, as clap returns them. */
  datatype RenderMatches = RenderMatches(
    config: Option<string>,
    template: Option<string>,
    shellTrust: Option<string>,
    backend: Option<string>,
    values: Option<seq<string>>)

  /** The matches of the whole command line. */
  datatype Matches = Matches(experimental: bool, init: bool, render: Option<RenderMatches>)

  function OverrideValues(m: RenderMatches): seq<string> {
    if m.values.Some? then m.values.value else []
  }

  /**
   * The override loop runs when no `init` subcommand is given, a `render`
   * subcommand names a configuration file and that file could be read.
   */
  predicate ReachesOverrides(m: Matches, readFile: string -> Option<string>) {
    !m.init && m.render.Some? && m.render.value.config.Some?
    && readFile(m.render.value.config.value).Some?
  }

  /**
   * `load_from_cli` after clap has parsed the command line. `readFile` is
   * `std::fs::read_to_string`, `None` standing for its error.
   */
  method LoadFromCli(m: Matches, readFile: string -> Option<string>) returns (r: Result<CallArgs, Error>)
    requires ReachesOverrides(m, readFile) ==> Overrides.Splittable(OverrideValues(m.render.value))
    ensures r.Ok? ==> (r.value.privileges == Experimental <==> m.experimental)
    ensures m.init ==> r.Ok? && r.value.command == Init
    ensures !m.init && m.render.None? ==> r == Err(Other(NoSubcommand))
    ensures !m.init && m.render.Some? && m.render.value.config.None? ==> r == Err(Other(ConfigMissing))
    ensures (!m.init && m.render.Some? && m.render.value.config.Some?
             && readFile(m.render.value.config.value).None?) ==> r == Err(Io)
    ensures ReachesOverrides(m, readFile) && DecodeBackend(m.render.value.backend).Err?
      ==> r == Err(Other(UnknownBackend))
    ensures ReachesOverrides(m, readFile) && DecodeBackend(m.render.value.backend).Ok? ==>
      var x := m.render.value;
      r.Ok? && r.value.command == Render(RenderArguments(
        readFile(x.config.value).value,
        x.template,
        Overrides.Insert(OverrideValues(x)),
        DecodeTrust(x.shellTrust),
        DecodeBackend(x.backend).value))
  {
    var privileges := PrivilegeOf(m.experimental);

    if m.init {
      return Ok(CallArgs(privileges, Init));
    }

    match m.render
    case Some(x) =>
      if x.config.None? {
        return Err(Other(ConfigMissing));
      }
      var contents := readFile(x.config.value);
      if contents.None? {
        return Err(Io);
      }
      var shellTrust := DecodeTrust(x.shellTrust);
      var valueOverrides: map<string, string> := map[];
      if x.values.Some? {
        valueOverrides := Overrides.Collect(x.values.value);
      }
      var backend := DecodeBackend(x.backend);
      if backend.Err? {
        return Err(backend.error);
      }
      r := Ok(CallArgs(privileges, Render(RenderArguments(
        contents.value, x.template, valueOverrides, shellTrust, backend.value))));
    case None =>
      r := Err(Other(NoSubcommand));
  }
}
