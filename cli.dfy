/**
 The program's entry: resolve the configuration, connect, and run the one
 action that the merged flags select, upload first, then download, then list.
 */
module Cli {
  import opened PyValues
  import opened Config
  import opened Storage

  datatype Action = DoUpload | DoDownload | DoList | NoAction

  /** The selection chain: the first truthy flag of upload, download, list_files wins. */
  function SelectAction(conf: Conf): (a: Action)
    requires ActionKeys <= conf.Keys
    ensures a == DoUpload <==> Truthy(conf["upload"])
    ensures a == DoDownload <==> !Truthy(conf["upload"]) && Truthy(conf["download"])
    ensures a == DoList <==>
      !Truthy(conf["upload"]) && !Truthy(conf["download"]) && Truthy(conf["list_files"])
  {
    if Truthy(conf["upload"]) then DoUpload
    else if Truthy(conf["download"]) then DoDownload
    else if Truthy(conf["list_files"]) then DoList
    else NoAction
  }

  /**
   The action a parsed command line asks for, read off the options alone: the
   flag that was given, where an empty upload path asks for nothing.
   */
  function Requested(args: map<string, Value>): (a: Action)
    requires FromParser(args)
  {
    if args["download"].b then DoDownload
    else if args["list_files"].b then DoList
    else if args["upload"].Str? && args["upload"].s != "" then DoUpload
    else NoAction
  }

  /**
   The dispatched action is the one the command line asks for, whatever the
   configuration file says about the action flags.
   */
  lemma DispatchFollowsCommandLine(file: map<string, Value>, args: map<string, Value>)
    requires FromParser(args)
    ensures SelectAction(Merged(file, args)) == Requested(args)
  {
    ActionFlagsFromCommandLine(file, args);
  }

  /** `--upload ""` gives a falsy path, so the chain falls through to "No actions". */
  lemma EmptyUploadPathIsNoAction(file: map<string, Value>, args: map<string, Value>)
    requires FromParser(args) && args["upload"] == Str("")
    ensures SelectAction(Merged(file, args)) == NoAction
  {
    DispatchFollowsCommandLine(file, args);
  }

  /** Without options nothing runs, even when the file sets the action flags. */
  lemma NoOptionsNoAction(file: map<string, Value>)
    ensures SelectAction(Merged(file, ParserDefaults())) == NoAction
  {
    DispatchFollowsCommandLine(file, ParserDefaults());
  }

  /** The first of the keys the connection reads, in order, that the configuration lacks. */
  function MissingConnectionKey(conf: Conf): (r: Option<string>)
    ensures r.None? <==> "host" in conf && "access_key" in conf && "secret_key" in conf
    ensures r.Some? ==> r.value !in conf
    ensures r == Some("host") <==> "host" !in conf
    ensures r == Some("access_key") <==> "host" in conf && "access_key" !in conf
    ensures r == Some("secret_key") <==> "host" in conf && "access_key" in conf && "secret_key" !in conf
  {
    if "host" !in conf then Some("host")
    else if "access_key" !in conf then Some("access_key")
    else if "secret_key" !in conf then Some("secret_key")
    else None
  }

  /** How a run ends. */
  datatype RunOutcome =
    | StartFailed(failure: Uncaught)          // configuration or connection failed
    | RanUpload(upload: Outcome<UploadResult>)
    | RanDownload(download: Outcome<Choice>)
    | RanList(listing: Outcome<Listing>)
    | NoActions                               // "No actions" was printed

  /** The configuration a run reaches the dispatch with, if it does. */
  function Started(doc: YamlDoc, args: map<string, Value>): (r: Option<Conf>)
    ensures r.Some? <==> doc.Mapping? && MissingConnectionKey(Merged(doc.m, args)).None?
    ensures r.Some? ==> r.value == Merged(doc.m, args)
  {
    if doc.NotMapping? then None
    else if MissingConnectionKey(Merged(doc.m, args)).Some? then None
    else Some(Merged(doc.m, args))
  }

  /**
   What one run yields, and the server's buckets after it: a startup failure
   leaves the buckets alone; otherwise the selected operation runs on the merged
   configuration, and "No actions" touches nothing.
   */
  function RunSpec(doc: YamlDoc, args: map<string, Value>, buckets: set<string>,
                   abspath: string -> string, putSucceeds: bool,
                   enumerated: seq<Entry>, inputs: seq<Input>): (RunOutcome, set<string>)
  {
    match Started(doc, args)
    case None =>
      (StartFailed(if doc.NotMapping? then NotAMapping
                   else KeyError(MissingConnectionKey(Merged(doc.m, args)).value)), buckets)
    case Some(conf) =>
      match SelectAction(conf)
      case DoUpload => (RanUpload(UploadOutcome(conf, buckets, abspath, putSucceeds)), BucketsAfter(conf, buckets))
      case DoDownload => (RanDownload(DownloadOutcome(conf, buckets, enumerated, inputs)), BucketsAfter(conf, buckets))
      case DoList => (RanList(ListOutcome(conf, buckets, enumerated)), BucketsAfter(conf, buckets))
      case NoAction => (NoActions, buckets)
  }

  /** The connection keys are present and the bucket is a string, so the run reaches the operation. */
  predicate Connects(file: map<string, Value>, args: map<string, Value>) {
    MissingConnectionKey(Merged(file, args)).None? && BucketName(Merged(file, args)).Ok?
  }

  /** `-l` on a missing bucket ends the run cleanly and does not create the bucket. */
  lemma {:induction false} ListOnMissingBucketExits(file: map<string, Value>, args: map<string, Value>, buckets: set<string>,
                                 abspath: string -> string, putSucceeds: bool,
                                 enumerated: seq<Entry>, inputs: seq<Input>)
    requires FromParser(args) && args["list_files"] == Bool(true) && Connects(file, args)
    requires BucketName(Merged(file, args)).value !in buckets
    ensures RunSpec(Mapping(file), args, buckets, abspath, putSucceeds, enumerated, inputs)
      == (RanList(ExitedNoBucket), buckets)
  {
    DispatchFollowsCommandLine(file, args);
    ActionFlagsFromCommandLine(file, args);
  }

  /**
   `-d` creates a missing bucket, and an answer k in 1..N downloads the k-th
   listed object; an answer 0 downloads the last one.
   */
  lemma {:induction false} DownloadPicksNumberedEntry(file: map<string, Value>, args: map<string, Value>, buckets: set<string>,
                                   abspath: string -> string, putSucceeds: bool,
                                   enumerated: seq<Entry>, inputs: seq<Input>)
    requires FromParser(args) && args["download"] == Bool(true) && Connects(file, args)
    requires |inputs| > 0 && inputs[0].Number? && 0 <= inputs[0].k <= |enumerated|
    requires |enumerated| > 0
    ensures var b := BucketName(Merged(file, args)).value;
      var k := inputs[0].k;
      RunSpec(Mapping(file), args, buckets, abspath, putSucceeds, enumerated, inputs)
      == (RanDownload(Completed(Picked(if k == 0 then enumerated[|enumerated| - 1] else enumerated[k - 1]))),
          buckets + {b})
  {
    var conf := Merged(file, args);
    var b := BucketName(conf).value;
    DispatchFollowsCommandLine(file, args);
    ActionFlagsFromCommandLine(file, args);
    assert Started(Mapping(file), args) == Some(conf);
    assert SelectAction(conf) == DoDownload;
    assert DecideBucket(b in buckets, Truthy(conf["list_files"])) != ExitClean;
    assert ListOutcome(conf, buckets, enumerated).value.returned == Some(enumerated);
    ResolveNumbered(enumerated, inputs[0].k);
    var picked := if inputs[0].k == 0 then enumerated[|enumerated| - 1] else enumerated[inputs[0].k - 1];
    assert Resolve(enumerated, inputs[0].k) == Some(picked);
    assert Prompt(Some(enumerated), inputs) == Ok(Picked(picked));
    assert DownloadOutcome(conf, buckets, enumerated, inputs) == Completed(Picked(picked));
    assert BucketsAfter(conf, buckets) == buckets + {b};
  }

  /** `-u path` with a successful put stores the file under the last component of its absolute path. */
  lemma {:induction false} UploadStoresUnderObjectName(file: map<string, Value>, args: map<string, Value>, buckets: set<string>,
                                    abspath: string -> string,
                                    enumerated: seq<Entry>, inputs: seq<Input>)
    requires FromParser(args) && args["upload"].Str? && args["upload"].s != "" && Connects(file, args)
    ensures var b := BucketName(Merged(file, args)).value;
      RunSpec(Mapping(file), args, buckets, abspath, true, enumerated, inputs)
      == (RanUpload(Completed(Uploaded(b, ObjectName(abspath(args["upload"].s))))), buckets + {b})
  {
    var conf := Merged(file, args);
    var b := BucketName(conf).value;
    var path := args["upload"].s;
    assert conf["upload"] == Str(path) && !Truthy(conf["list_files"]) by {
      ActionFlagsFromCommandLine(file, args);
    }
    assert Started(Mapping(file), args) == Some(conf);
    assert SelectAction(conf) == DoUpload;
    UploadCompletes(conf, buckets, abspath);
    BucketEnsuredOutsideListing(conf, buckets);
    assert BucketsAfter(conf, buckets) == buckets + {b};
  }

  /**
   One run of the program. `buckets` is the server's set of buckets before the
   run and `after` the set after it; `enumerated` is what the server lists for
   the bucket; `abspath`, `putSucceeds` and `inputs` stand for the environment,
   the outcome of the put and the user's answers.
   */
  method Run(doc: YamlDoc, args: map<string, Value>, buckets: set<string>,
             abspath: string -> string, putSucceeds: bool,
             enumerated: seq<Entry>, inputs: seq<Input>)
    returns (r: RunOutcome, after: set<string>)
    ensures doc.NotMapping? ==> r == StartFailed(NotAMapping)
    ensures doc.Mapping? && MissingConnectionKey(Merged(doc.m, args)).Some? ==>
      r == StartFailed(KeyError(MissingConnectionKey(Merged(doc.m, args)).value))
    ensures r.StartFailed? <==> Started(doc, args).None?
    ensures r.RanUpload? <==> Started(doc, args).Some? && SelectAction(Started(doc, args).value) == DoUpload
    ensures r.RanDownload? <==> Started(doc, args).Some? && SelectAction(Started(doc, args).value) == DoDownload
    ensures r.RanList? <==> Started(doc, args).Some? && SelectAction(Started(doc, args).value) == DoList
    ensures r.StartFailed? || r.NoActions? ==> after == buckets
    ensures after == buckets ||
      (doc.Mapping? && BucketName(Merged(doc.m, args)).Ok? &&
       after == buckets + {BucketName(Merged(doc.m, args)).value})
    ensures r.RanUpload? && r.upload.Completed? && r.upload.value.Uploaded? ==>
      && doc.Mapping?
      && var conf := Merged(doc.m, args);
      && conf["upload"].Str?
      && r.upload.value.bucket in after
      && r.upload.value.objectName == ObjectName(abspath(conf["upload"].s))
    ensures (r, after) == RunSpec(doc, args, buckets, abspath, putSucceeds, enumerated, inputs)
  {
    var read := ConfigRead(doc, args);
    if read.Err? {
      return StartFailed(read.error), buckets;
    }
    var conf := read.value;
    var missing := MissingConnectionKey(conf);
    if missing.Some? {
      return StartFailed(KeyError(missing.value)), buckets;
    }
    var client := new Client(conf, buckets);
    var action := SelectAction(conf);
    match action {
      case DoUpload =>
        var u := client.Upload(abspath, putSucceeds);
        r := RanUpload(u);
      case DoDownload =>
        var d := client.Download(enumerated, inputs);
        r := RanDownload(d);
      case DoList =>
        var l := client.ListFiles(enumerated);
        r := RanList(l);
      case NoAction =>
        r := NoActions;
    }
    after := client.buckets;
  }
}
