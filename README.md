# complate command-line layer, in Dafny

complate renders text templates for command-line workflows. This project models
the layer that turns a parsed command line into a `CallArgs` value, a
privilege level plus a subcommand with its arguments, and the privilege gate
`CallArgs::validate` that runs before any rendering. The repository has two
versions of this layer, and each one is a module here:

- `ArgsMod` (src/args/mod.rs, the clap 2 version): subcommands `init` and
  `render`, trust modes `none|prompt|ultimate`, backends `cli|ui`. Its gate
  rejects the UI backend and any value override under normal privilege.
- `Args` (src/args.rs, the clap 4 version): subcommands `man`,
  `autocomplete`, `init` and `render`, a `--trust` flag, a `--loose` flag and
  backends `headless|cli|ui`. Its gate accepts every call.
- `Overrides`: the `--value key=value` loop that both versions share. It
  splits each entry at its first `=` (`splitn(2, "=")`) and inserts the two
  parts into a map, so a later entry for a key overwrites an earlier one. It
  is written once as the method `Collect` and specified by the function
  `Insert`.
- `Wrappers`: `Option` and `Result`.

What clap returns from `get_matches` is an abstract record (`Matches`). It
holds each subcommand's matches, flags as `bool`s, optional values as
`Option<string>` and the `-v` values as a sequence. Clap always supplies
arguments that are required or have a default value, so in `Args` those are
plain strings and the `unwrap()` calls on them cannot fail. Reading the
configuration file (`std::fs::read_to_string`) becomes the parameter
`readFile: string -> Option<string>`, where `None` is the I/O error that `?`
passes on. The model is the build with every cargo feature enabled, so the
`CLI` and `UI` variants (and `Headless` in src/args.rs) all exist. The
`cfg!` tests in the backend-name lists become the two boolean parameters of
`BackendValues`.

Facts about the two gates and decoders worth knowing:
- Neither version's gate looks at the shell trust mode.
- The gate in src/args.rs accepts every call.
- src/args/mod.rs has no headless backend.
- In src/args.rs the unknown-backend error carries the message
  `no backend specified`.

## Model

| member | source | states |
|---|---|---|
| `ArgsMod.Validate` | src/args/mod.rs:10-35 | experimental privilege accepts every call; normal privilege accepts `Init`; a normal render with backend UI gets the UI error, even when it has overrides; a normal CLI render with a non-empty override map gets the overrides error; and the gate passes exactly when the privilege is experimental, the command is `Init`, or it is a CLI render with no overrides |
| `ArgsMod.PrivilegeOf` | src/args/mod.rs:143-147 | privilege is `Experimental` exactly when the `experimental` flag is present |
| `ArgsMod.DecodeTrust` | src/args/mod.rs:174-182 | the result is `Prompt` exactly for `"prompt"` and `Ultimate` exactly for `"ultimate"`; every other value, and an absent one, gives `None`; a trust other than `None` decodes from its own name |
| `ArgsMod.TrustRoundTrip` | src/args/mod.rs:175-178 | decoding a trust mode's name gives that trust mode back |
| `ArgsMod.DecodeBackend` | src/args/mod.rs:192-210 | an absent value gives `CLI`; a given name decodes exactly when it is `cli` or `ui`, and then to the backend with that name; every failure is the "unknown backend configuration" error |
| `ArgsMod.BackendRoundTrip` | src/args/mod.rs:193-197 | decoding a backend's name gives that backend back |
| `ArgsMod.BackendValues` | src/args/mod.rs:74-80 | the list holds `cli` exactly when its feature is on and `ui` exactly when its feature is on, one entry per enabled feature; it is empty only when both are off; `cli` comes first when present; with both features on, the list holds exactly the names `DecodeBackend` accepts, and its first entry, the clap default, decodes to the same backend as an absent value |
| `ArgsMod.LoadFromCli` | src/args/mod.rs:143-227 | privilege follows the flag in every successful result; `init` wins over `render`; no subcommand gives "could not resolve subcommand"; a render without a configuration gives "configuration not specified"; a failed read gives the I/O error; an unknown backend gives "unknown backend configuration"; otherwise the render arguments hold the file contents, the template, the override map `Insert` of the values, the decoded trust and the decoded backend; it requires every override to contain `=` only when the override loop is reached |
| `Overrides.FirstEq` | src/args/mod.rs:187 | the index returned is the first `=` in the string, or the length when there is none |
| `Overrides.SplitN2` | src/args/mod.rs:187 | `splitn(2, "=")` gives two parts exactly when the string contains `=`, and otherwise the whole string; with two parts, the key has no `=` and key, `=` and value joined give back the string |
| `Overrides.SplitUnique` | src/args/mod.rs:187-188 | any way of writing a string as a key without `=`, then `=`, then any value (which may contain `=`) is the split, so the split is the first-`=` split |
| `Overrides.ValueKeepsLaterEq` | src/args/mod.rs:187-188 | `name=a=b` splits into `name` and `a=b` |
| `Overrides.JoinThenSplit` | src/args/mod.rs:187-188 | for a key without `=`, splitting key, `=` and value joined gives back the key and the value |
| `Overrides.Collect` | src/args/mod.rs:184-190 | the override loop, which is the same in src/args.rs:195-201, builds the map `Insert` of its entries: every entry inserted in order, each later insert overwriting; it requires every entry to contain `=`, since `spl[1]` panics otherwise |
| `Overrides.InsertKeys` | src/args/mod.rs:184-190 | the override map's key set equals the set of the entries' keys |
| `Overrides.InsertLastWins` | src/args.rs:195-201 | for a key, the map holds the value of the last entry with that key |
| `Overrides.OverrideOwnEntry` | src/args.rs:198-199 | an entry `key=value` appended after any entries leaves `value` stored for `key` |
| `Args.Validate` | src/args.rs:14-21 | the gate accepts every call, for both privileges and every command |
| `Args.PrivilegeOf` | src/args.rs:154-158 | privilege is `Experimental` exactly when the `experimental` flag is set |
| `Args.DecodeFormat` | src/args.rs:164-167 | the format decodes exactly for `manpages` and `markdown`, and then to the format with that name; otherwise the error is `Argument("unknown format")` |
| `Args.FormatRoundTrip` | src/args.rs:165-166 | decoding a format's name gives that format back |
| `Args.TrustOf` | src/args.rs:188-192 | trust is `Ultimate` exactly when the `trust` flag is set, and `None` otherwise |
| `Args.DecodeBackend` | src/args.rs:202-209 | the backend decodes exactly for `headless`, `cli` and `ui`, and then to the backend with that name; otherwise the error is `Argument("no backend specified")` |
| `Args.BackendRoundTrip` | src/args.rs:203-207 | decoding a backend's name gives that backend back |
| `Args.BackendValues` | src/args.rs:73-79 | the list starts with `headless` and holds `cli` and `ui` exactly when their features are on, one entry each; with both features on, it holds exactly the names `DecodeBackend` accepts |
| `Args.Load` | src/args.rs:150-225 | subcommands are tried in the order `man`, `autocomplete`, `init`, `render`, and none gives `UnknownCommand`; privilege follows the flag in every successful result; `man` carries the output path and the decoded format, or the format error; `autocomplete` carries its path and shell; a failed read gives the I/O error; an unknown backend gives the `Argument` error; otherwise the render arguments hold the file contents, the template, the override map `Insert` of the values, the trust from the flag, the `loose` flag and the decoded backend |

## Left out

- Building the clap command (`clap::App`/`clap::Command` construction, possible and default values, help texts, `get_matches`): library plumbing. Its result is the abstract `Matches` record.
- Reading the configuration file: I/O. It is the `readFile` parameter, and its error is the opaque `Io` error.
- `clap_complete::Shell::from_str` in src/args.rs: a call into another crate. The `Autocomplete` command keeps the shell's name as clap accepted it.
- `async` on `validate` and `load`, and the `cfg(feature = …)` gating: the model is the all-features build, written as plain functions and methods.
- Overrides.Collect: an override without `=` panics at `spl[1]` in the source; here that case is excluded by a precondition instead of being modelled as a panic.
- ArgsMod.LoadFromCli: the same panic is a precondition, stated only for calls that reach the override loop.
- Args.Load: the same panic is a precondition, stated only for calls that reach the override loop.
- `std::io::ErrorKind::Other` and the boxing of errors: errors are plain datatypes carrying the source's messages.
- `HashMap` is a Dafny `map`. Its iteration order is never observed by this layer.
- The variable resolver, renderer, shell trust gate and interactive backends are not part of this model.
