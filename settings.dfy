/**
 * The configuration part of `HiggsDemo.__init__` and the choice of dataset
 * index files in `_dataset_files`. The mapping file is a JSON list of
 * entries, one per cluster; its contents are an input of the model.
 */
module Settings {
  import opened Wrappers
  import opened Errors

  /** The constructor's keyword arguments. */
  datatype Args = Args(
    datasetPattern: Option<string>, namespace: string, image: string,
    accessKey: string, secretKey: string, storageType: string, storageHost: string,
    cpuLimit: string, bucket: string, outputBucket: string, backoffLimit: int,
    multipartThreads: int, outputFile: string, outputJsonFile: string, redisHost: string,
    gcsProjectId: string, downloadMaxKb: int, uploadMaxKb: int, run: string, limit: int,
    cluster: Option<string>, datasetMapping: Option<string>, datasetIndex: Option<int>,
    gcsRegion: string, prefix: string, dpath: string)

  /** The defaults of `HiggsDemo.__init__`. */
  const DefaultArgs: Args := Args(
    Some("*Higgs*"), "default", "lukasheinrich/cms-higgs-4l-full",
    "", "", "gs", "https://storage.googleapis.com",
    "900m", "higgs-demo-nl", "higgs-demo-nl", 5,
    10, "/tmp/output.root", "/tmp/output.json", "10.0.0.4",
    "nimble-valve-236407", 50000, 10000, "run6", 200,
    None, None, None,
    "europe-west4", "kubecon-demo-", "/mnt/disks/ssd0")

  /** One entry of the mapping file: its `dpath` and `datasets` keys, when present. */
  datatype MappingEntry = MappingEntry(dpath: Option<string>, datasets: Option<seq<string>>)

  /**
   * The object's configuration once constructed: the arguments, the volume
   * type and path handed to jobs, the loaded mapping (`None` when the
   * constructor never set `self.dataset_mapping`), and the storage host.
   */
  datatype Config = Config(args: Args, ftype: string, dpath: string,
    mapping: Option<seq<MappingEntry>>, storageHost: string)

  /** Python truthiness of an optional text. */
  predicate Truthy(s: Option<string>) {
    s.Some? && s.value != ""
  }

  /** Python `xs[i]`: negative indices count from the end; out of range is `None` (an `IndexError`). */
  function PyIndex<T>(xs: seq<T>, i: int): (r: Option<T>)
    ensures r.Some? <==> -|xs| <= i < |xs|
    ensures 0 <= i < |xs| ==> r == Some(xs[i])
    ensures -|xs| <= i < 0 ==> r == Some(xs[|xs| + i])
  {
    if 0 <= i < |xs| then Some(xs[i])
    else if -|xs| <= i < 0 then Some(xs[|xs| + i])
    else None
  }

  /** The storage host: an empty one is defaulted for `gcs` and `s3` only. */
  function StorageHost(storageType: string, storageHost: string): (r: string)
    ensures storageHost != "" ==> r == storageHost
    ensures r == "" <==> storageHost == "" && storageType != "gcs" && storageType != "s3"
  {
    if storageHost == "" then
      if storageType == "gcs" then "https://storage.googleapis.com"
      else if storageType == "s3" then "https://s3.amazonaws.com"
      else ""
    else storageHost
  }

  /**
   * The `dpath` of the mapping entry the constructor consults: only with a
   * mapping file, a dataset index, and an entry holding that key.
   */
  function SelectedPath(args: Args, mappingFile: Option<seq<MappingEntry>>): Option<string> {
    if Truthy(args.datasetMapping) && mappingFile.Some? && args.datasetIndex.Some? then
      match PyIndex(mappingFile.value, args.datasetIndex.value)
      case Some(entry) => entry.dpath
      case None => None
    else None
  }

  /**
   * `HiggsDemo.__init__` up to the client set-up. `mappingFile` is the parsed
   * content of the file named by `dataset_mapping` (`None` when it cannot be
   * opened); it is read only when that name is truthy.
   */
  function Configure(args: Args, mappingFile: Option<seq<MappingEntry>>): Result<Config, Exception> {
    var host := StorageHost(args.storageType, args.storageHost);
    if !Truthy(args.datasetMapping) then Ok(Config(args, "Directory", args.dpath, None, host))
    else match mappingFile
      case None => Err(FileNotFoundError(args.datasetMapping.value))
      case Some(entries) =>
        if args.datasetIndex.None? then Ok(Config(args, "Directory", args.dpath, Some(entries), host))
        else match PyIndex(entries, args.datasetIndex.value)
          case None => Err(IndexError)
          case Some(entry) =>
            if entry.dpath.None? then Ok(Config(args, "Directory", args.dpath, Some(entries), host))
            else
              var dpath := entry.dpath.value;
              Ok(Config(args, if dpath == "/dev/null" then "File" else "Directory", dpath, Some(entries), host))
  }

  /**
   * What construction yields: it fails only for an unreadable mapping file or
   * an index outside the mapping; the volume path comes from the selected
   * entry when it has one, and the volume type is `File` exactly when that
   * path is `/dev/null`; the mapping is kept exactly when its name is truthy.
   */
  lemma ConfigureSpec(args: Args, mappingFile: Option<seq<MappingEntry>>)
    ensures var r := Configure(args, mappingFile);
      && (r.Err? <==>
        (Truthy(args.datasetMapping) && (mappingFile.None? ||
          (args.datasetIndex.Some? && PyIndex(mappingFile.value, args.datasetIndex.value).None?))))
      && (r.Ok? ==>
        && r.value.args == args
        && r.value.dpath == (if SelectedPath(args, mappingFile).Some? then SelectedPath(args, mappingFile).value else args.dpath)
        && (r.value.ftype == "File" <==> SelectedPath(args, mappingFile) == Some("/dev/null"))
        && (r.value.ftype == "File" || r.value.ftype == "Directory")
        && (r.value.mapping.Some? <==> Truthy(args.datasetMapping))
        && r.value.storageHost == StorageHost(args.storageType, args.storageHost))
  {
  }

  /** With every default, the object mounts `/mnt/disks/ssd0` as a directory and uses Google storage. */
  lemma DefaultConfig(mappingFile: Option<seq<MappingEntry>>)
    ensures Configure(DefaultArgs, mappingFile)
      == Ok(Config(DefaultArgs, "Directory", "/mnt/disks/ssd0", None, "https://storage.googleapis.com"))
  {
  }

  /** `_dataset_files` as written: `globMatches` stands for `glob.glob('datasets_s3/' + pattern)`. */
  function DatasetFilesAsWritten(cfg: Config, globMatches: seq<string>): (r: Result<seq<string>, Exception>)
    ensures Truthy(cfg.args.datasetPattern) ==> r == Ok(globMatches)
    ensures !Truthy(cfg.args.datasetPattern) && cfg.mapping.None? ==> r == Err(AttributeError("dataset_mapping"))
  {
    if Truthy(cfg.args.datasetPattern) then Ok(globMatches)
    else if cfg.mapping.None? then Err(AttributeError("dataset_mapping"))
    else FromMapping(cfg.mapping.value, cfg.args.datasetIndex)
  }

  /** `self.dataset_mapping[self.dataset_index]['datasets']`, or `[]` for an empty (falsy) mapping. */
  function FromMapping(entries: seq<MappingEntry>, index: Option<int>): (r: Result<seq<string>, Exception>)
    ensures entries == [] ==> r == Ok([])
    ensures r.Ok? && entries != [] ==>
      (index.Some? && PyIndex(entries, index.value).Some?
        && PyIndex(entries, index.value).value.datasets == Some(r.value))
  {
    if entries == [] then Ok([])
    else if index.None? then Err(TypeError)
    else match PyIndex(entries, index.value)
      case None => Err(IndexError)
      case Some(entry) => if entry.datasets.None? then Err(KeyError("datasets")) else Ok(entry.datasets.value)
  }

  /**
   * `_dataset_files` as evidently intended: with neither a pattern nor a
   * mapping there are no dataset files.
   */
  function DatasetFiles(cfg: Config, globMatches: seq<string>): (r: Result<seq<string>, Exception>)
    ensures Truthy(cfg.args.datasetPattern) ==> r == Ok(globMatches)
    ensures !Truthy(cfg.args.datasetPattern) && cfg.mapping.None? ==> r == Ok([])
    ensures cfg.mapping.Some? ==> r == DatasetFilesAsWritten(cfg, globMatches)
  {
    if Truthy(cfg.args.datasetPattern) then Ok(globMatches)
    else if cfg.mapping.None? then Ok([])
    else FromMapping(cfg.mapping.value, cfg.args.datasetIndex)
  }

  /**
   * The `submit` command run without `--dataset-pattern` and without
   * `--dataset-mapping` constructs the object with both unset; `_dataset_files`
   * as written then raises `AttributeError` where `[]` was intended.
   */
  lemma DatasetFilesWithoutSources(globMatches: seq<string>)
    ensures var args := DefaultArgs.(datasetPattern := None);
      && Configure(args, None).Ok?
      && DatasetFilesAsWritten(Configure(args, None).value, globMatches) == Err(AttributeError("dataset_mapping"))
      && DatasetFiles(Configure(args, None).value, globMatches) == Ok([])
  {
  }
}
