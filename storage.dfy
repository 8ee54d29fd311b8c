/**
 The storage client: the bucket precondition, the numbered listing, the
 interactive choice of an object to download, and the object name of an upload.
 The object-storage server is reduced to the set of bucket names that exist;
 the objects a listing enumerates, the result of a put, the absolute-path
 resolution and the user's answers are parameters.
 */
module Storage {
  import opened PyValues
  import opened Config

  /** One object of a listing: its name, last-modified time and size in bytes. */
  datatype Entry = Entry(name: string, lastModified: int, size: nat)

  /** One printed line of a listing: its number and the object it shows. */
  datatype Row = Row(number: nat, entry: Entry)

  /** What the bucket precondition decides. */
  datatype BucketDecision = Proceed | ExitClean | CreateThenProceed

  /** How a client operation ends: normally, by the clean exit on a missing bucket, or by an uncaught exception. */
  datatype Outcome<+T> = Completed(value: T) | ExitedNoBucket | Crashed(failure: Uncaught)

  /** What a listing yields: the printed rows and what it returns to its caller. */
  datatype Listing = Listing(rows: seq<Row>, returned: Option<seq<Entry>>)

  /** How an upload ends when the bucket precondition passed. */
  datatype UploadResult =
    | Uploaded(bucket: string, objectName: string)
    | Reported                  // an exception inside the upload was caught and printed

  /** One answer on the download prompt. */
  datatype Input =
    | Number(k: int)            // text that int() accepts
    | NotANumber                // text that int() rejects
    | Interrupt                 // the user pressed Ctrl-C

  /** How the download prompt ends when it ends normally. */
  datatype Choice = Picked(entry: Entry) | Cancelled

  /**
   The bucket name of a configuration: a KeyError when the key is missing, a
   rejection by the storage library when the value is not a string.
   */
  function BucketName(conf: Conf): (r: Result<string, Uncaught>)
    ensures r.Ok? <==> "bucket" in conf && conf["bucket"].Str?
    ensures r.Ok? ==> r.value == conf["bucket"].s
    ensures "bucket" !in conf ==> r == Err(KeyError("bucket"))
  {
    if "bucket" !in conf then Err(KeyError("bucket"))
    else if conf["bucket"].Str? then Ok(conf["bucket"].s)
    else Err(InvalidBucketName)
  }

  /**
   The bucket precondition: an existing bucket is used as it is; a missing one
   ends a listing cleanly and is created for any other action.
   */
  function DecideBucket(found: bool, listing: bool): (d: BucketDecision)
    ensures d == Proceed <==> found
    ensures d == ExitClean <==> !found && listing
    ensures d == CreateThenProceed <==> !found && !listing
  {
    if found then Proceed
    else if listing then ExitClean
    else CreateThenProceed
  }

  /**
   In download mode the parsed `list_files` flag is False, so a missing bucket is
   created rather than ending the run; in list mode a missing bucket ends it.
   */
  lemma MissingBucketByMode(file: map<string, Value>, args: map<string, Value>)
    requires FromParser(args)
    ensures args["download"] == Bool(true) ==>
      DecideBucket(false, Truthy(Merged(file, args)["list_files"])) == CreateThenProceed
    ensures args["list_files"] == Bool(true) ==>
      DecideBucket(false, Truthy(Merged(file, args)["list_files"])) == ExitClean
  {
    ActionFlagsFromCommandLine(file, args);
  }

  /** The rows a listing prints: entry i is numbered i + 1. */
  function Numbered(objs: seq<Entry>): (rows: seq<Row>)
    ensures |rows| == |objs|
  {
    seq(|objs|, i requires 0 <= i < |objs| => Row(i + 1, objs[i]))
  }

  /** The set of numbers that rows show. */
  function Numbers(rows: seq<Row>): (numbers: set<int>) {
    set r | r in rows :: r.number
  }

  /** The numbers of a listing are exactly 1 to N, in increasing order with no gap, and show the entries in order. */
  lemma {:induction false} NumberingContiguous(objs: seq<Entry>)
    ensures forall n: int :: n in Numbers(Numbered(objs)) <==> 1 <= n <= |objs|
    ensures forall i :: 0 <= i < |objs| ==> Numbered(objs)[i].number == i + 1
    ensures forall i :: 0 <= i < |objs| ==> Numbered(objs)[i].entry == objs[i]
  {
    var rows := Numbered(objs);
    var numbers := Numbers(rows);
    forall n: nat | 1 <= n <= |objs| ensures n in numbers {
      assert rows[n - 1] in rows;
    }
    forall x | x in numbers ensures 1 <= x <= |objs| {
      var r :| r in rows && r.number == x;
      var i :| 0 <= i < |rows| && rows[i] == r;
    }
  }

  /** Numbers the entries as the listing loop prints them, with a counter starting at 1. */
  method NumberEntries(objs: seq<Entry>) returns (rows: seq<Row>)
    ensures |rows| == |objs|
    ensures forall i :: 0 <= i < |rows| ==> rows[i].number == i + 1 && rows[i].entry == objs[i]
    ensures rows == Numbered(objs)
  {
    rows := [];
    var counter := 1;
    for i := 0 to |objs|
      invariant counter == i + 1
      invariant |rows| == i
      invariant forall j :: 0 <= j < i ==> rows[j] == Row(j + 1, objs[j])
    {
      rows := rows + [Row(counter, objs[i])];
      counter := counter + 1;
    }
  }

  /** The object an answer k selects: the list index k - 1, with Python's negative indexing. */
  function Resolve(objs: seq<Entry>, k: int): (r: Option<Entry>)
    ensures r.Some? <==> 1 - |objs| <= k <= |objs|
    ensures r.Some? ==> r.value == objs[(k - 1) % |objs|]
  {
    PyIndex(objs, k - 1)
  }

  /** Answers 1 to N pick the entry with that number; 0 picks the last entry instead of being refused. */
  lemma ResolveNumbered(objs: seq<Entry>, k: int)
    requires |objs| > 0
    ensures 1 <= k <= |objs| ==> Resolve(objs, k) == Some(Numbered(objs)[k - 1].entry)
    ensures Resolve(objs, 0) == Some(objs[|objs| - 1])
    ensures k > |objs| || k <= -|objs| ==> Resolve(objs, k) == None
  {
    assert (0 - 1) % |objs| == |objs| - 1;
  }

  /** An answer that makes the prompt ask again: a number outside the accepted range. */
  predicate Reprompts(objs: seq<Entry>, inp: Input) {
    inp.Number? && Resolve(objs, inp.k).None?
  }

  /**
   The download prompt over the user's answers: an interrupt cancels, text that
   is not a number is fatal, a number out of range asks again, a number in range
   picks that object, and indexing a missing listing or running out of input is
   fatal.
   */
  function Prompt(objects: Option<seq<Entry>>, inputs: seq<Input>): (r: Result<Choice, Uncaught>)
    ensures r.Ok? && r.value.Picked? ==> objects.Some? && r.value.entry in objects.value
    ensures objects == Some([]) ==> !(r.Ok? && r.value.Picked?)
    ensures r.Err? ==> r.error == NotAnInteger || r.error == EndOfInput || r.error == NotSubscriptable
    decreases |inputs|
  {
    if inputs == [] then Err(EndOfInput)
    else match inputs[0]
      case Interrupt => Ok(Cancelled)
      case NotANumber => Err(NotAnInteger)
      case Number(k) =>
        match objects
        case None => Err(NotSubscriptable)
        case Some(objs) =>
          match Resolve(objs, k)
          case Some(e) => Ok(Picked(e))
          case None => Prompt(objects, inputs[1..])
  }

  /**
   The prompt's outcome is decided by the first answer that does not ask again:
   an interrupt cancels, non-numeric text is fatal, a number k picks entry
   (k - 1) mod N; if every answer asks again the input runs out, which is fatal.
   */
  lemma {:induction false} PromptDecidedByFirstAccepted(objs: seq<Entry>, inputs: seq<Input>, i: nat)
    requires i <= |inputs|
    requires forall j :: 0 <= j < i ==> Reprompts(objs, inputs[j])
    requires i < |inputs| ==> !Reprompts(objs, inputs[i])
    ensures i == |inputs| ==> Prompt(Some(objs), inputs) == Err(EndOfInput)
    ensures i < |inputs| && inputs[i] == Interrupt ==> Prompt(Some(objs), inputs) == Ok(Cancelled)
    ensures i < |inputs| && inputs[i] == NotANumber ==> Prompt(Some(objs), inputs) == Err(NotAnInteger)
    ensures i < |inputs| && inputs[i].Number? ==>
      |objs| > 0 && Prompt(Some(objs), inputs) == Ok(Picked(objs[(inputs[i].k - 1) % |objs|]))
  {
    if i > 0 {
      assert Reprompts(objs, inputs[0]);
      PromptDecidedByFirstAccepted(objs, inputs[1..], i - 1);
    }
  }

  /** The download prompt loop, asking until an answer ends it. */
  method PromptLoop(objects: Option<seq<Entry>>, inputs: seq<Input>) returns (r: Result<Choice, Uncaught>)
    ensures r == Prompt(objects, inputs)
  {
    var i := 0;
    while i < |inputs|
      invariant 0 <= i <= |inputs|
      invariant Prompt(objects, inputs) == Prompt(objects, inputs[i..])
    {
      assert inputs[i..][1..] == inputs[i + 1..];
      match inputs[i]
      case Interrupt =>
        return Ok(Cancelled);
      case NotANumber =>
        return Err(NotAnInteger);
      case Number(k) =>
        if objects.None? {
          return Err(NotSubscriptable);
        }
        var choice := k - 1;
        var picked := PyIndex(objects.value, choice);
        if picked.Some? {
          return Ok(Picked(picked.value));
        }
        i := i + 1;
    }
    return Err(EndOfInput);
  }

  /**
   The object name of an upload: the last component of the path, that is, the
   longest suffix without a '/'. It is the whole path when there is no '/',
   and empty when the path ends in '/'.
   */
  function ObjectName(path: string): (name: string)
    ensures '/' !in name
    ensures |name| <= |path| && path[|path| - |name|..] == name
    ensures |name| < |path| ==> path[|path| - |name| - 1] == '/'
  {
    if path == [] then []
    else if path[|path| - 1] == '/' then []
    else ObjectName(path[..|path| - 1]) + [path[|path| - 1]]
  }

  /**
   The object name depends only on the final component: two files with the same
   base name in different directories get the same object name.
   */
  lemma {:induction false} SameBaseNameSameObject(dir1: string, dir2: string, base: string)
    requires '/' !in base
    ensures ObjectName(dir1 + "/" + base) == base
    ensures ObjectName(dir1 + "/" + base) == ObjectName(dir2 + "/" + base)
  {
    ObjectNameOfComponent(dir1, base);
    ObjectNameOfComponent(dir2, base);
  }

  /** A path that ends in a '/' followed by a component without '/' is named by that component. */
  lemma {:induction false} ObjectNameOfComponent(dir: string, base: string)
    requires '/' !in base
    ensures ObjectName(dir + "/" + base) == base
  {
    var p := dir + "/" + base;
    if base != [] {
      var last := |base| - 1;
      assert p[..|p| - 1] == dir + "/" + base[..last];
      ObjectNameOfComponent(dir, base[..last]);
      assert base == base[..last] + [base[last]];
    }
  }

  /**
   The server's buckets after the bucket precondition: the configured bucket is
   added exactly when it was missing and the action is not a listing. Unless the
   listing exits, the configured bucket exists afterwards.
   */
  function BucketsAfter(conf: Conf, buckets: set<string>): (after: set<string>)
    requires ActionKeys <= conf.Keys
    ensures after == buckets || (BucketName(conf).Ok? && after == buckets + {BucketName(conf).value})
    ensures BucketName(conf).Ok? ==>
      (BucketName(conf).value in after <==>
       DecideBucket(BucketName(conf).value in buckets, Truthy(conf["list_files"])) != ExitClean)
  {
    match BucketName(conf)
    case Err(_) => buckets
    case Ok(b) =>
      if DecideBucket(b in buckets, Truthy(conf["list_files"])) == CreateThenProceed
      then buckets + {b} else buckets
  }

  /** The outcome of a listing on a server whose buckets are `buckets`. */
  function ListOutcome(conf: Conf, buckets: set<string>, enumerated: seq<Entry>): Outcome<Listing>
    requires ActionKeys <= conf.Keys
  {
    match BucketName(conf)
    case Err(e) => Crashed(e)
    case Ok(b) =>
      if DecideBucket(b in buckets, Truthy(conf["list_files"])) == ExitClean then ExitedNoBucket
      else Completed(Listing(Numbered(enumerated),
                             if Truthy(conf["download"]) then Some(enumerated) else None))
  }

  /** The outcome of an upload on a server whose buckets are `buckets`. */
  function UploadOutcome(conf: Conf, buckets: set<string>, abspath: string -> string, putSucceeds: bool)
    : Outcome<UploadResult>
    requires ActionKeys <= conf.Keys
  {
    match BucketName(conf)
    case Err(e) => Crashed(e)
    case Ok(b) =>
      if DecideBucket(b in buckets, Truthy(conf["list_files"])) == ExitClean then ExitedNoBucket
      else if conf["upload"].Str? && putSucceeds
      then Completed(Uploaded(b, ObjectName(abspath(conf["upload"].s))))
      else Completed(Reported)
  }

  /** An upload of a string path with a successful put, outside list mode, stores the file under its object name. */
  lemma UploadCompletes(conf: Conf, buckets: set<string>, abspath: string -> string)
    requires ActionKeys <= conf.Keys && BucketName(conf).Ok? && conf["upload"].Str?
    requires !Truthy(conf["list_files"])
    ensures UploadOutcome(conf, buckets, abspath, true)
      == Completed(Uploaded(BucketName(conf).value, ObjectName(abspath(conf["upload"].s))))
  {
  }

  /** Outside list mode the configured bucket exists after the precondition, and nothing else is added. */
  lemma BucketEnsuredOutsideListing(conf: Conf, buckets: set<string>)
    requires ActionKeys <= conf.Keys && BucketName(conf).Ok?
    requires !Truthy(conf["list_files"])
    ensures BucketsAfter(conf, buckets) == buckets + {BucketName(conf).value}
  {
  }

  /** The outcome of a download on a server whose buckets are `buckets`. */
  function DownloadOutcome(conf: Conf, buckets: set<string>, enumerated: seq<Entry>, inputs: seq<Input>)
    : Outcome<Choice>
    requires ActionKeys <= conf.Keys
  {
    match ListOutcome(conf, buckets, enumerated)
    case Crashed(e) => Crashed(e)
    case ExitedNoBucket => ExitedNoBucket
    case Completed(listing) =>
      match Prompt(listing.returned, inputs)
      case Ok(c) => Completed(c)
      case Err(e) => Crashed(e)
  }

  /**
   A client bound to one configuration. `buckets` is the set of bucket names
   that exist on the server; creating a bucket adds to it.
   */
  class Client {
    const conf: Conf
    var buckets: set<string>

    /** The configuration has the action flags, as every merged configuration has. */
    predicate Valid() {
      ActionKeys <= conf.Keys
    }

    constructor (conf: Conf, buckets: set<string>)
      requires ActionKeys <= conf.Keys
      ensures Valid()
      ensures this.conf == conf && this.buckets == buckets
    {
      this.conf := conf;
      this.buckets := buckets;
    }

    /**
     The bucket precondition: looks the configured bucket up and creates it when
     it is missing and the action is not a listing. A missing bucket in a
     listing leaves the store as it is and asks the caller to exit cleanly.
     */
    method CheckBucket() returns (r: Result<BucketDecision, Uncaught>)
      requires Valid()
      modifies this
      ensures BucketName(conf).Err? ==> r == Err(BucketName(conf).error) && buckets == old(buckets)
      ensures BucketName(conf).Ok? ==>
        var b := BucketName(conf).value;
        && r == Ok(DecideBucket(b in old(buckets), Truthy(conf["list_files"])))
        && buckets == (if r.value == CreateThenProceed then old(buckets) + {b} else old(buckets))
      ensures buckets == BucketsAfter(conf, old(buckets))
      ensures Valid()
    {
      var name := BucketName(conf);
      if name.Err? {
        return Err(name.error);
      }
      var found := name.value in buckets;
      if !found {
        if Truthy(conf["list_files"]) {
          return Ok(ExitClean);
        } else {
          buckets := buckets + {name.value};
          return Ok(CreateThenProceed);
        }
      }
      return Ok(Proceed);
    }

    /**
     Lists the bucket: after the bucket precondition, the objects the server
     enumerates are copied, numbered from 1, and returned only in download mode.
     */
    method ListFiles(enumerated: seq<Entry>) returns (r: Outcome<Listing>)
      requires Valid()
      modifies this
      ensures BucketName(conf).Err? ==> r == Crashed(BucketName(conf).error) && buckets == old(buckets)
      ensures BucketName(conf).Ok? ==>
        var b := BucketName(conf).value;
        var d := DecideBucket(b in old(buckets), Truthy(conf["list_files"]));
        && buckets == (if d == CreateThenProceed then old(buckets) + {b} else old(buckets))
        && r == if d == ExitClean then ExitedNoBucket
                else Completed(Listing(Numbered(enumerated),
                                       if Truthy(conf["download"]) then Some(enumerated) else None))
      ensures r == ListOutcome(conf, old(buckets), enumerated)
      ensures buckets == BucketsAfter(conf, old(buckets))
      ensures Valid()
    {
      var check := CheckBucket();
      if check.Err? {
        return Crashed(check.error);
      }
      if check.value == ExitClean {
        return ExitedNoBucket;
      }
      var objDict := [];
      for i := 0 to |enumerated|
        invariant objDict == enumerated[..i]
      {
        objDict := objDict + [enumerated[i]];
      }
      assert objDict == enumerated;
      var rows := NumberEntries(objDict);
      if Truthy(conf["download"]) {
        return Completed(Listing(rows, Some(objDict)));
      }
      return Completed(Listing(rows, None));
    }

    /**
     Uploads the configured file: after the bucket precondition, the object
     name is the last component of the absolute path. A path that is not a
     string or a failing put is caught and reported, and the bucket is then
     left as the precondition made it.
     */
    method Upload(abspath: string -> string, putSucceeds: bool) returns (r: Outcome<UploadResult>)
      requires Valid()
      modifies this
      ensures BucketName(conf).Err? ==> r == Crashed(BucketName(conf).error) && buckets == old(buckets)
      ensures BucketName(conf).Ok? ==>
        var b := BucketName(conf).value;
        var d := DecideBucket(b in old(buckets), Truthy(conf["list_files"]));
        && buckets == (if d == CreateThenProceed then old(buckets) + {b} else old(buckets))
        && r == if d == ExitClean then ExitedNoBucket
                else if "upload" in conf && conf["upload"].Str? && putSucceeds
                then Completed(Uploaded(b, ObjectName(abspath(conf["upload"].s))))
                else Completed(Reported)
      ensures r == UploadOutcome(conf, old(buckets), abspath, putSucceeds)
      ensures buckets == BucketsAfter(conf, old(buckets))
      ensures Valid()
    {
      var check := CheckBucket();
      if check.Err? {
        return Crashed(check.error);
      }
      if check.value == ExitClean {
        return ExitedNoBucket;
      }
      var source := conf["upload"];
      if !source.Str? {
        return Completed(Reported);
      }
      var filepath := abspath(source.s);
      var filename := ObjectName(filepath);
      if !putSucceeds {
        return Completed(Reported);
      }
      return Completed(Uploaded(BucketName(conf).value, filename));
    }

    /**
     Downloads one object the user picks: lists the bucket, then runs the prompt
     over the listing it returned (None outside download mode).
     */
    method Download(enumerated: seq<Entry>, inputs: seq<Input>) returns (r: Outcome<Choice>)
      requires Valid()
      modifies this
      ensures BucketName(conf).Err? ==> r == Crashed(BucketName(conf).error) && buckets == old(buckets)
      ensures BucketName(conf).Ok? ==>
        var b := BucketName(conf).value;
        var d := DecideBucket(b in old(buckets), Truthy(conf["list_files"]));
        var objects := if Truthy(conf["download"]) then Some(enumerated) else None;
        && buckets == (if d == CreateThenProceed then old(buckets) + {b} else old(buckets))
        && r == if d == ExitClean then ExitedNoBucket
                else match Prompt(objects, inputs)
                  case Ok(c) => Completed(c)
                  case Err(e) => Crashed(e)
      ensures r == DownloadOutcome(conf, old(buckets), enumerated, inputs)
      ensures buckets == BucketsAfter(conf, old(buckets))
      ensures Valid()
    {
      var listed := ListFiles(enumerated);
      if !listed.Completed? {
        return match listed
          case ExitedNoBucket => ExitedNoBucket
          case Crashed(e) => Crashed(e);
      }
      var chosen := PromptLoop(listed.value.returned, inputs);
      if chosen.Err? {
        return Crashed(chosen.error);
      }
      return Completed(chosen.value);
    }
  }
}
