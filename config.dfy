/**
 The configuration resolver: the parsed YAML mapping is overlaid with every
 command-line option whose value is not None, after the three action flags have
 been forced to False.
 */
module Config {
  import opened PyValues

  /** The merged configuration dict. */
  type Conf = map<string, Value>

  /** The three action flags, forced to False before the command line is applied. */
  const ActionKeys: set<string> := {"upload", "list_files", "download"}

  /** What the YAML loader returns for the configuration file. */
  datatype YamlDoc =
    | Mapping(m: map<string, Value>)
    | NotMapping(v: Value)      // an empty file (None), a scalar or a sequence

  /** The keys the command line sets, that is, those whose value is not None. */
  function Given(args: map<string, Value>): (keys: set<string>)
    ensures forall k :: k in keys <==> k in args && args[k] != Null
  {
    set k | k in args && args[k] != Null
  }

  /** The file's mapping with the three action flags forced to False. */
  function Baseline(file: map<string, Value>): (conf: Conf)
    ensures conf.Keys == file.Keys + ActionKeys
    ensures forall k :: k in ActionKeys ==> conf[k] == Bool(false)
    ensures forall k :: k in file && k !in ActionKeys ==> conf[k] == file[k]
  {
    file["upload" := Bool(false)]["list_files" := Bool(false)]["download" := Bool(false)]
  }

  /** The part of the command line that overrides: the entries whose value is not None. */
  function Overrides(args: map<string, Value>): (o: map<string, Value>)
    ensures o.Keys == Given(args)
    ensures forall k :: k in o ==> o[k] == args[k] && o[k] != Null
  {
    map k | k in args && args[k] != Null :: args[k]
  }

  /**
   The merged configuration: the key set is the file's keys, the action flags and
   the given command-line keys; a given command-line value always wins; an action
   flag not given is False; every other file key keeps the file's value.
   */
  function Merged(file: map<string, Value>, args: map<string, Value>): (conf: Conf)
    ensures conf.Keys == file.Keys + ActionKeys + Given(args)
    ensures forall k :: k in Given(args) ==> conf[k] == args[k]
    ensures forall k :: k in ActionKeys && k !in Given(args) ==> conf[k] == Bool(false)
    ensures forall k :: k in file && k !in ActionKeys && k !in Given(args) ==> conf[k] == file[k]
  {
    Baseline(file) + Overrides(args)
  }

  /**
   Reads the configuration: fails with a TypeError when the YAML document is not a
   mapping, and otherwise returns the merged configuration, built as the source
   builds it: three assignments, then one overwrite per command-line key.
   */
  method ConfigRead(doc: YamlDoc, args: map<string, Value>) returns (r: Result<Conf, Uncaught>)
    ensures doc.NotMapping? <==> r.Err?
    ensures r.Err? ==> r.error == NotAMapping
    ensures doc.Mapping? ==> r == Ok(Merged(doc.m, args))
  {
    if doc.NotMapping? {
      return Err(NotAMapping);
    }
    var json := doc.m;
    json := json["upload" := Bool(false)];
    json := json["list_files" := Bool(false)];
    json := json["download" := Bool(false)];
    var pending := args.Keys;
    while pending != {}
      invariant pending <= args.Keys
      invariant json == Baseline(doc.m) + Overrides(args - pending)
      decreases pending
    {
      var key :| key in pending;
      ghost var before := args - pending;
      if args[key] != Null {
        json := json[key := args[key]];
      }
      pending := pending - {key};
      assert args - pending == before[key := args[key]];
      assert Overrides(args - pending) ==
        if args[key] != Null then Overrides(before)[key := args[key]] else Overrides(before);
    }
    assert args - pending == args;
    return Ok(json);
  }

  /** The eight option names the argument parser always produces. */
  const OptionNames: set<string> :=
    {"config", "host", "access_key", "secret_key", "upload", "download", "list_files", "bucket"}

  /** A string option: a string when given, None otherwise. */
  predicate StringOption(v: Value) {
    v.Null? || v.Str?
  }

  /**
   What the argument parser can return: all eight names; `config` a string (its
   default is "config.yaml"); the other string options a string or None;
   `download` and `list_files` booleans (their default is False); and at most one
   of the mutually exclusive group `upload`, `download`, `list_files` set.
   */
  predicate FromParser(args: map<string, Value>) {
    && args.Keys == OptionNames
    && args["config"].Str?
    && StringOption(args["host"]) && StringOption(args["access_key"])
    && StringOption(args["secret_key"]) && StringOption(args["bucket"])
    && StringOption(args["upload"])
    && args["download"].Bool? && args["list_files"].Bool?
    && (if args["upload"].Str? then 1 else 0)
       + (if args["download"].b then 1 else 0)
       + (if args["list_files"].b then 1 else 0) <= 1
  }

  /** The parser's result when no option is given on the command line. */
  function ParserDefaults(): (args: map<string, Value>)
    ensures FromParser(args)
    ensures Given(args) == {"config", "download", "list_files"}
  {
    map[
      "config" := Str("config.yaml"), "host" := Null, "access_key" := Null,
      "secret_key" := Null, "upload" := Null, "download" := Bool(false),
      "list_files" := Bool(false), "bucket" := Null]
  }

  /**
   Whatever the file says about the action flags is lost: `download` and
   `list_files` end as the command-line booleans, and `upload` is the
   command-line path when one is given and False otherwise.
   */
  lemma ActionFlagsFromCommandLine(file: map<string, Value>, args: map<string, Value>)
    requires FromParser(args)
    ensures Merged(file, args)["download"] == args["download"]
    ensures Merged(file, args)["list_files"] == args["list_files"]
    ensures Merged(file, args)["upload"] ==
      if args["upload"].Null? then Bool(false) else args["upload"]
  {
    assert "download" in Given(args) && "list_files" in Given(args);
  }

  /** The `config` key is always present, with the parser's path in it. */
  lemma ConfigKeyPresent(file: map<string, Value>, args: map<string, Value>)
    requires FromParser(args)
    ensures "config" in Merged(file, args) && Merged(file, args)["config"] == args["config"]
  {
    assert "config" in Given(args);
  }

  /** The merged flags never depend on the file: two files give the same flags. */
  lemma ActionFlagsIgnoreFile(f1: map<string, Value>, f2: map<string, Value>, args: map<string, Value>)
    ensures forall k :: k in ActionKeys ==> Merged(f1, args)[k] == Merged(f2, args)[k]
  {
  }

  /**
   With parsed arguments at most one action flag of the merged configuration is
   truthy (and an empty `--upload ""` leaves none truthy).
   */
  lemma AtMostOneActionTruthy(file: map<string, Value>, args: map<string, Value>)
    requires FromParser(args)
    ensures var conf := Merged(file, args);
      (if Truthy(conf["upload"]) then 1 else 0)
      + (if Truthy(conf["download"]) then 1 else 0)
      + (if Truthy(conf["list_files"]) then 1 else 0) <= 1
  {
    ActionFlagsFromCommandLine(file, args);
  }
}
