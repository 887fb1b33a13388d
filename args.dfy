/**
 * The command-line layer of src/args.rs: the privilege gate
 * `CallArgs::validate`, the backend names of `root_command` and the decoding
 * half of `ClapArgumentLoader::load`, built with every backend feature
 * (`backend+cli`, `backend+ui`) enabled.
 */
module Args {
  import opened Wrappers
  import Overrides

  datatype Privilege = Normal | Experimental

  datatype ManualFormat = Manpages | Markdown

  datatype ShellTrust = None | Ultimate

  datatype Backend = Headless | CLI | UI

  datatype RenderArguments = RenderArguments(
    configuration: string,
    template: Option<string>,
    valueOverrides: map<string, string>,
    shellTrust: ShellTrust,
    loose: bool,
    backend: Backend)

  /**
   * The subcommands. The completion shell is kept as the name clap accepted;
   * its conversion to `clap_complete::Shell` is not part of this model.
   */
  datatype Command =
    | Manual(path: string, format: ManualFormat)
    | Autocomplete(path: string, shell: string)
    | Init
    | Render(args: RenderArguments)

  datatype CallArgs = CallArgs(privileges: Privilege, command: Command)

  /** `crate::error::Error` as this layer raises it, plus a failed file read. */
  datatype Error = Argument(message: string) | UnknownCommand | Io

  const UnknownFormat := "unknown format"
  const NoBackend := "no backend specified"

  /** The privilege gate of this version lets every call through. */
  function Validate(call: CallArgs): (r: Result<(), Error>)
    ensures r == Ok(())
  {
    match call.privileges
    case Normal => (match call.command case _ => Ok(()))
    case Experimental => Ok(())
  }

  /** `-e`/`--experimental` selects experimental privilege. */
  function PrivilegeOf(experimental: bool): (p: Privilege)
    ensures p == Experimental <==> experimental
  {
    if experimental then Experimental else Normal
  }

  /** The command-line spelling of each manual format. */
  function FormatName(f: ManualFormat): string {
    match f
    case Manpages => "manpages"
    case Markdown => "markdown"
  }

  /** The `--format` value of `man`; any other name is an argument error. */
  function DecodeFormat(name: string): (r: Result<ManualFormat, Error>)
    ensures r.Ok? <==> name in {"manpages", "markdown"}
    ensures r.Ok? ==> FormatName(r.value) == name
    ensures r.Err? ==> r.error == Argument(UnknownFormat)
  {
    if name == "manpages" then Ok(Manpages)
    else if name == "markdown" then Ok(Markdown)
    else Err(Argument(UnknownFormat))
  }

  lemma FormatRoundTrip(f: ManualFormat)
    ensures DecodeFormat(FormatName(f)) == Ok(f)
  {
  }

  /** `--trust` grants ultimate shell trust; without it there is none. */
  function TrustOf(trust: bool): (t: ShellTrust)
    ensures t == Ultimate <==> trust
  {
    if trust then Ultimate else ShellTrust.None
  }

  /** The command-line spelling of each backend. */
  function BackendName(b: Backend): string {
    match b
    case Headless => "headless"
    case CLI => "cli"
    case UI => "ui"
  }

  /** The `--backend` value; any other name is an argument error. */
  function DecodeBackend(name: string): (r: Result<Backend, Error>)
    ensures r.Ok? <==> name in {"headless", "cli", "ui"}
    ensures r.Ok? ==> BackendName(r.value) == name
    ensures r.Err? ==> r.error == Argument(NoBackend)
  {
    if name == "headless" then Ok(Headless)
    else if name == "cli" then Ok(CLI)
    else if name == "ui" then Ok(UI)
    else Err(Argument(NoBackend))
  }

  lemma BackendRoundTrip(b: Backend)
    ensures DecodeBackend(BackendName(b)) == Ok(b)
  {
  }

  /**
   * The backend names `root_command` offers: `headless` always, then one
   * pushed per enabled feature. With every feature enabled they are exactly
   * the names `DecodeBackend` accepts, so its error is out of clap's reach.
   */
  method BackendValues(cliFeature: bool, uiFeature: bool) returns (values: seq<string>)
    ensures |values| > 0 && values[0] == "headless"
    ensures |values| == 1 + (if cliFeature then 1 else 0) + (if uiFeature then 1 else 0)
    ensures forall n :: n in values <==> n == "headless" || (n == "cli" && cliFeature) || (n == "ui" && uiFeature)
    ensures cliFeature && uiFeature ==> forall n :: n in values <==> DecodeBackend(n).Ok?
  {
    values := ["headless"];
    if cliFeature {
      values := values + ["cli"];
    }
    if uiFeature {
      values := values + ["ui"];
    }
  }

  /**
   * The matches of each subcommand, as clap returns them. Arguments that are
   * required or carry a default value are always present and are plain
   * strings here.
   */
  datatype ManMatches = ManMatches(out: string, format: string)

  datatype AutocompleteMatches = AutocompleteMatches(out: string, shell: string)

  datatype RenderMatches = RenderMatches(
    config: string,
    template: Option<string>,
    trust: bool,
    loose: bool,
    backend: string,
    values: Option<seq<string>>)

  /** The matches of the whole command line. */
  datatype Matches = Matches(
    experimental: bool,
    man: Option<ManMatches>,
    autocomplete: Option<AutocompleteMatches>,
    init: bool,
    render: Option<RenderMatches>)

  function OverrideValues(m: RenderMatches): seq<string> {
    if m.values.Some? then m.values.value else []
  }

  /** No subcommand before `render` matched. */
  predicate RenderSelected(m: Matches) {
    m.man.None? && m.autocomplete.None? && !m.init && m.render.Some?
  }

  /** The override loop runs when `render` is selected and its configuration file could be read. */
  predicate ReachesOverrides(m: Matches, readFile: string -> Option<string>) {
    RenderSelected(m) && readFile(m.render.value.config).Some?
  }

  /**
   * `load` after clap has parsed the command line. Subcommands are tried in
   * the order `man`, `autocomplete`, `init`, `render`. `readFile` is
   * `std::fs::read_to_string`, `None` standing for its error.
   */
  method Load(m: Matches, readFile: string -> Option<string>) returns (r: Result<CallArgs, Error>)
    requires ReachesOverrides(m, readFile) ==> Overrides.Splittable(OverrideValues(m.render.value))
    ensures r.Ok? ==> (r.value.privileges == Experimental <==> m.experimental)
    ensures m.man.Some? ==>
      match DecodeFormat(m.man.value.format)
      case Ok(f) => r.Ok? && r.value.command == Manual(m.man.value.out, f)
      case Err(e) => r == Err(e)
    ensures m.man.None? && m.autocomplete.Some? ==>
      r.Ok? && r.value.command == Autocomplete(m.autocomplete.value.out, m.autocomplete.value.shell)
    ensures m.man.None? && m.autocomplete.None? && m.init ==> r.Ok? && r.value.command == Init
    ensures m.man.None? && m.autocomplete.None? && !m.init && m.render.None? ==> r == Err(UnknownCommand)
    ensures RenderSelected(m) && readFile(m.render.value.config).None? ==> r == Err(Io)
    ensures ReachesOverrides(m, readFile) && DecodeBackend(m.render.value.backend).Err?
      ==> r == Err(Argument(NoBackend))
    ensures ReachesOverrides(m, readFile) && DecodeBackend(m.render.value.backend).Ok? ==>
      var x := m.render.value;
      r.Ok? && r.value.command == Render(RenderArguments(
        readFile(x.config).value,
        x.template,
        Overrides.Insert(OverrideValues(x)),
        TrustOf(x.trust),
        x.loose,
        DecodeBackend(x.backend).value))
  {
    var privileges := PrivilegeOf(m.experimental);

    if m.man.Some? {
      var format := DecodeFormat(m.man.value.format);
      if format.Err? {
        return Err(format.error);
      }
      r := Ok(CallArgs(privileges, Manual(m.man.value.out, format.value)));
    } else if m.autocomplete.Some? {
      r := Ok(CallArgs(privileges, Autocomplete(m.autocomplete.value.out, m.autocomplete.value.shell)));
    } else if m.init {
      r := Ok(CallArgs(privileges, Init));
    } else if m.render.Some? {
      var x := m.render.value;
      var contents := readFile(x.config);
      if contents.None? {
        return Err(Io);
      }
      var shellTrust := TrustOf(x.trust);
      var valueOverrides: map<string, string> := map[];
      if x.values.Some? {
        valueOverrides := Overrides.Collect(x.values.value);
      }
      var backend := DecodeBackend(x.backend);
      if backend.Err? {
        return Err(backend.error);
      }
      r := Ok(CallArgs(privileges, Render(RenderArguments(
        contents.value, x.template, valueOverrides, shellTrust, x.loose, backend.value))));
    } else {
      r := Err(UnknownCommand);
    }
  }
}
