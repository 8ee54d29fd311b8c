# minio-cli decision logic in Dafny

minio-cli is a command-line wrapper around a MinIO (S3-compatible) client. It
uploads a local file, lists a bucket, or downloads one object the user picks
interactively. Connection settings come from a YAML file, with command-line
options layered on top. This project models the decision logic under that glue:

- **Configuration overlay** (`Config`). The YAML mapping gets `upload`,
  `list_files` and `download` forced to False. Then every command-line option
  whose value is not None overwrites its key. `ConfigRead` does this with a
  loop over the option keys. It is proved equal to the declarative `Merged`,
  whose contract gives the exact key set and the value of every key.
- **Action dispatch** (`Cli.SelectAction`). This is the chain
  upload > download > list_files > "No actions", using Python truthiness.
  Merged with parsed arguments, it runs the action the command line asked for.
  The file's flags never matter.
- **Bucket precondition** (`Storage.DecideBucket`, `Storage.Client.CheckBucket`).
  The server is reduced to the set of existing bucket names. A missing bucket
  ends a listing cleanly. For any other action it is created.
- **Listing and download choice** (`Storage.NumberEntries`, `Storage.Resolve`,
  `Storage.Prompt`, `Storage.PromptLoop`). Listing rows are numbered 1..N. The
  user's answer `k` becomes the Python index `k - 1`, so negative indexing
  applies. The prompt loop runs over a sequence of answers. An interrupt
  cancels. Text that is not a number is fatal. An index outside `[-N, N)`
  asks again. Running out of input is fatal (EOFError).
- **Upload object name** (`Storage.ObjectName`). This is the suffix after the
  last `/` of the absolute path.
- **One run** (`Cli.Run`). Configuration, connection keys, dispatch and the
  chosen operation, with the bucket set before and after.

Modules: `PyValues` (values.dfy) holds the Python values, truthiness, list
indexing and uncaught exceptions. `Config` (config.dfy) holds the `Config`
class's overlay and the shape of the parser's result. `Storage` (storage.dfy)
holds the `Client` class. `Cli` (cli.dfy) holds the `__main__` block.

External parts become parameters:
- the parsed YAML document (`YamlDoc`) and the parsed options (`args`);
- the server's set of buckets, and the objects it lists for the bucket
  (`enumerated`);
- `os.path.abspath`, as a function `abspath`;
- whether `fput_object` succeeds (`putSucceeds`);
- the answers typed at the download prompt (`inputs`).

An answer of `0` becomes index `-1` and selects the last object instead of
asking again (`Storage.ResolveNumbered`). Answers `-N+1 .. -1` count from the
end.

## Model

| member | source | states |
|---|---|---|
| PyValues.PyIndex | main.py:125 | Python list indexing succeeds exactly for indices in [-N, N) and then yields element `i mod N` |
| Config.Baseline | main.py:71-73 | the file's mapping plus the three action flags, each False, with every other file key unchanged |
| Config.Overrides | main.py:74-76 | exactly the command-line entries whose value is not None, with their values |
| Config.Merged | main.py:66-77 | key set = file keys + action flags + non-None option keys; a non-None option always wins; an action flag not given is False; every other file key keeps the file value |
| Config.ConfigRead | main.py:66-77 | a non-mapping YAML document raises a TypeError; otherwise the three assignments and the per-key overwrite loop produce exactly `Merged` |
| Config.ParserDefaults | main.py:14-61 | the parser's result without options has the parser's shape, and only `config`, `download` and `list_files` are non-None |
| Config.ActionFlagsFromCommandLine | main.py:44-76 | with parsed options, merged `download`/`list_files` equal the command-line booleans and merged `upload` is the given path or False, whatever the file says |
| Config.ConfigKeyPresent | main.py:14-19 | `config` is always in the merged map, carrying the parser's path (its default is non-null) |
| Config.ActionFlagsIgnoreFile | main.py:71-76 | two different files give the same merged action flags |
| Config.AtMostOneActionTruthy | main.py:38-55 | with parsed options, at most one merged action flag is truthy |
| Storage.BucketName | main.py:95 | the bucket is the configured string; a missing key is a KeyError and a non-string is rejected |
| Storage.DecideBucket | main.py:94-101 | Proceed exactly when the bucket exists; ExitClean exactly when it is missing in list mode; CreateThenProceed exactly when it is missing otherwise |
| Storage.MissingBucketByMode | main.py:96-101 | with parsed options, download on a missing bucket creates it, and list on a missing bucket exits without creating |
| Storage.NumberingContiguous | main.py:145-149 | the printed numbers are exactly 1..N, row i shows number i+1 and the i-th enumerated object |
| Storage.NumberEntries | main.py:145-149 | the counter loop numbers entry i as i+1, in enumeration order |
| Storage.Resolve | main.py:123-125 | answer k selects an object exactly when 1-N <= k <= N, and then it selects `objects[(k-1) mod N]` |
| Storage.ResolveNumbered | main.py:123-125 | answers 1..N pick the row with that number; 0 picks the last object; answers above N or at most -N select nothing |
| Storage.Prompt | main.py:121-137 | a picked object comes from the listing; with an empty listing nothing is ever picked; every failure is a ValueError, EOFError or TypeError |
| Storage.PromptDecidedByFirstAccepted | main.py:121-137 | the first answer that does not ask again decides: interrupt cancels, non-number is fatal, k picks entry (k-1) mod N; if every answer asks again the input runs out |
| Storage.PromptLoop | main.py:121-137 | the while-loop with break/continue computes exactly `Prompt` |
| Storage.BucketsAfter | main.py:94-101 | the bucket set after the precondition gains at most the configured bucket, and holds it exactly unless a listing exits on it |
| Storage.UploadCompletes | main.py:103-113 | outside list mode, a string path with a successful put is stored under `ObjectName(abspath(path))` in the configured bucket |
| Storage.BucketEnsuredOutsideListing | main.py:96-101 | outside list mode the configured bucket exists afterwards, and no other bucket is added |
| Storage.ObjectName | main.py:106-107 | the name has no '/', is a suffix of the path, and is preceded by '/' unless it is the whole path |
| Storage.ObjectNameOfComponent | main.py:107 | a path `dir/base` with no '/' in `base` is named `base` |
| Storage.SameBaseNameSameObject | main.py:106-110 | two files with the same base name in different directories get the same object name |
| Storage.Client.constructor | main.py:85-92 | the client holds the merged configuration and starts from the given bucket set |
| Storage.Client.CheckBucket | main.py:94-101 | returns the decision for the configured bucket; the bucket set gains that bucket exactly when the decision is to create it, and is otherwise unchanged (`BucketsAfter`) |
| Storage.Client.ListFiles | main.py:139-151 | after the bucket precondition, rows are the numbered enumeration; the listing is returned only when `download` is truthy, otherwise None; the outcome is `ListOutcome` and the bucket set `BucketsAfter` |
| Storage.Client.Upload | main.py:103-117 | after the bucket precondition, a string path with a successful put uploads under `ObjectName(abspath(path))`; a non-string path or a failed put is reported, not raised; the outcome is `UploadOutcome` |
| Storage.Client.Download | main.py:119-137 | lists, then runs the prompt over the returned listing; uncaught prompt failures crash the run; the outcome is `DownloadOutcome` |
| Cli.SelectAction | main.py:158-165 | upload if its value is truthy, else download if truthy, else list_files if truthy, else no action |
| Cli.DispatchFollowsCommandLine | main.py:158-165 | with parsed options, the dispatched action is the one given on the command line, independent of the file |
| Cli.EmptyUploadPathIsNoAction | main.py:158 | `--upload ""` is falsy and falls through to "No actions" |
| Cli.NoOptionsNoAction | main.py:154-165 | with no options, nothing runs, whatever the file's flags say |
| Cli.MissingConnectionKey | main.py:87-92 | names host when it is missing, else access_key when it is missing, else secret_key when it is missing, and none when all three are present |
| Cli.Started | main.py:154-157 | the run reaches dispatch exactly when the YAML document is a mapping and the connection keys are present, with the merged configuration |
| Cli.Run | main.py:154-165 | a run fails at startup exactly when configuration or connection keys fail; otherwise it runs exactly the selected operation; the outcome with its payload and the bucket set afterwards are exactly `RunSpec`, built from the operations' outcomes and `BucketsAfter` |
| Cli.ListOnMissingBucketExits | main.py:96-99 | `-l` on a missing bucket ends the run cleanly and leaves the bucket set unchanged |
| Cli.DownloadPicksNumberedEntry | main.py:119-131 | `-d` creates a missing bucket, and a first answer k in 1..N downloads the k-th listed object (0 downloads the last) |
| Cli.UploadStoresUnderObjectName | main.py:103-113 | `-u path` with a successful put stores the file under the last component of its absolute path, and the bucket exists afterwards |

## Left out

- Argument parsing (`Parse`, main.py:10-62) is library behaviour. Its result is described by `Config.FromParser`, which the lemmas take as a precondition.
- Opening and reading the YAML file (main.py:67-70) is I/O. The loaded document is an input. A missing or unreadable file is not modelled.
- YAML mappings with non-string keys, and floats, nested mappings and dates as values, are not modelled. `Value` covers None, booleans, integers, strings and lists.
- Python dict iteration order in the overwrite loop is not modelled. Each option key is written at most once, so the order cannot change the result.
- The storage library's validation of host, keys and bucket names is not modelled. Any string is accepted as a bucket name, and only a non-string is rejected. Network errors inside `bucket_exists`, `make_bucket`, `list_objects` and `get_object` are not modelled either.
- Storage.Client.ListFiles: the objects the server enumerates are a parameter. They are not derived from earlier uploads or from a bucket just created.
- Storage.Client.Upload: the effect of `fput_object` on the stored objects is not modelled. Its success is a parameter, and its result is only the object name and bucket.
- Storage.Client.Download: fetching the object and writing the local file (main.py:126-130) are not modelled, and always succeed. An interrupt during the fetch is not distinguished from one at the prompt.
- `os.path.abspath` (main.py:106) depends on the working directory. It is the parameter `abspath`. Only the last-component extraction is modelled.
- Printed output (messages, the 60-column name padding, timestamps) and `exit(0)` are I/O and process control. The clean exit is the outcome `ExitedNoBucket`.
- Reading `_object_name`, `_last_modified` and `_size` from the library's objects (main.py:144, 148) is a foreign representation. An entry is the plain datatype `Storage.Entry`.
- The text-to-integer conversion of `int()` is not modelled. Each answer is a parsed `Input`.
