/** The command line's own rules: which handler a command reaches, the
    flag defaults, and the text the `version` command prints. */
module Cli {
  import opened Types
  import Secconf
  import Cmd

  // ---------------------------------------------------------------------
  // Dispatch

  datatype Command = SetCommand | GetCommand | ListCommand | VersionCommand | Help

  /** The word that names a command on the command line.  Help has no word
      of its own: `main` reaches it through its default case, so any word
      other than the four, including the empty one, leads there. */
  function CommandName(c: Command): string
  {
    match c
    case SetCommand => "set"
    case GetCommand => "get"
    case ListCommand => "list"
    case VersionCommand => "version"
    case Help => ""
  }

  /** The handler `main` runs for the process arguments (args[0] is the
      program).  Help prints the usage and exits. */
  function Dispatch(args: seq<string>): (c: Command)
    ensures |args| < 2 ==> c == Help
    ensures c != Help ==> |args| >= 2 && CommandName(c) == args[1]
    ensures c == Help <==> |args| < 2 || args[1] !in {"set", "get", "list", "version"}
  {
    if |args| < 2 then Help
    else if args[1] == "set" then SetCommand
    else if args[1] == "get" then GetCommand
    else if args[1] == "list" then ListCommand
    else if args[1] == "version" then VersionCommand
    else Help
  }

  /** Every command other than help is reached by its own name. */
  lemma DispatchByName(c: Command, program: string, rest: seq<string>)
    requires c != Help
    ensures Dispatch([program, CommandName(c)] + rest) == c
  {
  }

  // ---------------------------------------------------------------------
  // Flag defaults

  /** The global flags every command reads. */
  datatype Flags = Flags(backend: string, endpoint: string, plaintext: bool, encryptionEngine: string)

  const DefaultFlags: Flags := Flags("etcd", "", false, "pgp")

  /** Keyring paths used when -secret-keyring (get, list) or -keyring (set) is not given. */
  const DefaultSecretKeyring: string := ".secring.gpg"
  const DefaultPublicKeyring: string := ".pubring.gpg"

  /** The version a build reports when no version is linked in. */
  const DefaultVersion: string := "dev"

  /** The flag table of `init`; with no flags given, commands talk to a
      local etcd and encrypt with pgp. */
  lemma DefaultsSelectLocalEtcdAndPgp()
    ensures DefaultFlags.backend == "etcd" && DefaultFlags.endpoint == ""
    ensures DefaultFlags.encryptionEngine == "pgp"
    ensures Cmd.GetBackendStore(DefaultFlags.backend, DefaultFlags.endpoint)
              == Ok(Cmd.BackendConfig(Cmd.Etcd, ["http://127.0.0.1:4001"]))
    ensures Cmd.GetEncryptionEngine(DefaultFlags.encryptionEngine) == Ok(Secconf.Pgp)
    ensures !DefaultFlags.plaintext
  {
  }

  // ---------------------------------------------------------------------
  // Version text

  /** One optional line of the version text: its tag and its value. */
  datatype BuildField = BuildField(tag: string, value: string)

  /** The optional lines, in the order they are printed. */
  function BuildFields(commit: string, date: string, builtBy: string): seq<BuildField>
  {
    [BuildField("\ncommit: ", commit), BuildField("\nbuilt at: ", date), BuildField("\nbuilt by: ", builtBy)]
  }

  /** A field's line, or nothing when its value is empty. */
  function Line(f: BuildField): string
  {
    if f.value == "" then "" else f.tag + f.value
  }

  /** The lines whose value is non-empty, in table order. */
  function Render(fields: seq<BuildField>): string
  {
    if fields == [] then "" else Line(fields[0]) + Render(fields[1..])
  }

  lemma RenderThree(a: BuildField, b: BuildField, c: BuildField)
    ensures Render([a, b, c]) == Line(a) + Line(b) + Line(c)
  {
    calc {
      Render([a, b, c]);
      { assert [a, b, c][1..] == [b, c]; }
      Line(a) + Render([b, c]);
      { assert [b, c][1..] == [c]; }
      Line(a) + (Line(b) + Render([c]));
      { assert [c][1..] == []; }
      Line(a) + (Line(b) + (Line(c) + ""));
      Line(a) + Line(b) + Line(c);
    }
  }

  /** One step of the version builder: `result` gains the tagged value
      only when the value is non-empty. */
  function AppendIf(result: string, tag: string, value: string): (r: string)
    ensures result <= r
    ensures r == result <==> value == ""
    ensures value != "" ==> r[|result|..] == tag + value
  {
    if value != "" then result + tag + value else result
  }

  /** Each step appends exactly the field's line. */
  lemma AppendIfLine(result: string, tag: string, value: string)
    ensures AppendIf(result, tag, value) == result + Line(BuildField(tag, value))
  {
    if value != "" {
      assert result + tag + value == result + (tag + value);
    }
  }

  /** Three steps of the builder append exactly the rendered fields. */
  lemma AppendThree(start: string, a: BuildField, b: BuildField, c: BuildField)
    ensures AppendIf(AppendIf(AppendIf(start, a.tag, a.value), b.tag, b.value), c.tag, c.value)
              == start + Render([a, b, c])
  {
    var withA := AppendIf(start, a.tag, a.value);
    var withB := AppendIf(withA, b.tag, b.value);
    AppendIfLine(start, a.tag, a.value);
    AppendIfLine(withA, b.tag, b.value);
    AppendIfLine(withB, c.tag, c.value);
    calc {
      AppendIf(withB, c.tag, c.value);
      withB + Line(c);
      start + Line(a) + Line(b) + Line(c);
      start + (Line(a) + Line(b) + Line(c));
      { RenderThree(a, b, c); }
      start + Render([a, b, c]);
    }
  }

  /** The version text, without the module-version line. */
  function BuildVersion(version: string, commit: string, date: string, builtBy: string): (r: string)
    ensures r == "crypt version " + version + Render(BuildFields(commit, date, builtBy))
    ensures "crypt version " + version <= r
    ensures commit == "" && date == "" && builtBy == "" ==> r == "crypt version " + version
  {
    var lines := BuildFields(commit, date, builtBy);
    var withVersion := "crypt version " + version;
    var withCommit := AppendIf(withVersion, lines[0].tag, lines[0].value);
    var withDate := AppendIf(withCommit, lines[1].tag, lines[1].value);
    var withBuilder := AppendIf(withDate, lines[2].tag, lines[2].value);
    AppendThree(withVersion, lines[0], lines[1], lines[2]);
    assert lines == [lines[0], lines[1], lines[2]];
    withBuilder
  }

  /** A default build reports exactly its version. */
  lemma DefaultBuildVersion()
    ensures BuildVersion(DefaultVersion, "", "", "") == "crypt version dev"
  {
  }
}
