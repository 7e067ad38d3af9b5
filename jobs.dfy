/**
 * What `submit` decides for every event file: whether it is collision data
 * or simulation, its year, stream and luminosity record, its job number,
 * and the parameter map the job manifest is rendered from. The loops of
 * `submit` are specified here as left folds over the dataset files and
 * their lines; the class method that runs them is proved against these.
 */
module Jobs {
  import opened Wrappers
  import opened Errors
  import opened Text
  import opened Naming
  import opened Settings

  const DataConfig: string := "/configs/demoanalyzer_cfg_level4data.py"
  const SimulationConfig: string := "/configs/demoanalyzer_cfg_level4MC.py"

  /** A full set of collision data (not simulation) has `cms_run` in its name. */
  predicate IsData(fullsetname: string) {
    Contains(fullsetname, "cms_run")
  }

  /** The data-taking year: `2012` if named, then overridden by `2011` if named. */
  function Year(eventfile: string): Option<int> {
    var year := if Contains(eventfile, "2012") then Some(2012) else None;
    if Contains(eventfile, "2011") then Some(2011) else year
  }

  /** `2011` wins over `2012`; a file naming neither has no year. */
  lemma YearSpec(eventfile: string)
    ensures Year(eventfile) == Some(2011) <==> Contains(eventfile, "2011")
    ensures Year(eventfile) == Some(2012) <==> !Contains(eventfile, "2011") && Contains(eventfile, "2012")
    ensures Year(eventfile).None? <==> !Contains(eventfile, "2011") && !Contains(eventfile, "2012")
  {
  }

  /** The trigger stream: `el_stream` if `DoubleEl` is named, then overridden by `mu_stream` if `DoubleMu` is. */
  function Stream(eventfile: string): Option<string> {
    var stream := if Contains(eventfile, "DoubleEl") then Some("el_stream") else None;
    if Contains(eventfile, "DoubleMu") then Some("mu_stream") else stream
  }

  /** `mu_stream` wins over `el_stream`; a file naming neither has no stream. */
  lemma StreamSpec(eventfile: string)
    ensures Stream(eventfile) == Some("mu_stream") <==> Contains(eventfile, "DoubleMu")
    ensures Stream(eventfile) == Some("el_stream") <==> !Contains(eventfile, "DoubleMu") && Contains(eventfile, "DoubleEl")
    ensures Stream(eventfile).None? <==> !Contains(eventfile, "DoubleMu") && !Contains(eventfile, "DoubleEl")
  {
  }

  /** The key of an event file in the luminosity file: its path on the CERN open-data server. */
  function EosPath(eventfile: string): string {
    Replace(eventfile, "s3/higgs-demo", "root://eospublic.cern.ch/")
  }

  /**
   * A loaded `lumi/<fullset>.json`: event file path to the JSON text of its
   * luminosity, `None` for a JSON `null`.
   */
  type LumiTable = map<string, Option<string>>

  /** `lumi_data.get(key)`: `None` when absent or `null`. */
  function LumiValue(table: LumiTable, key: string): Option<string> {
    if key in table then table[key] else None
  }

  /** The luminosity record handed to a job: `'{stream}_{year}'` and the value. */
  datatype LumiRecord = LumiRecord(stream: string, value: string)

  /** `json.dumps` of the luminosity record, or `null` when there is none. */
  function LumiJson(lumi: Option<LumiRecord>): string {
    match lumi
    case None => "null"
    case Some(LumiRecord(stream, value)) => "{\"stream\": \"" + stream + "\", \"value\": " + value + "}"
  }

  /** The analysis configuration, certification file and luminosity record of one event file. */
  datatype Calibration = Calibration(config: string, jsonfile: string, lumi: Option<LumiRecord>)

  /**
   * The per-file branch of `submit`: data files get the data configuration,
   * the certification file of their year (a `KeyError` without a year) and a
   * luminosity record when year, stream and value are all known; simulation
   * gets the simulation configuration and no certification or record.
   */
  function Calibrate(fullsetname: string, eventfile: string, table: LumiTable): Result<Calibration, Exception> {
    if IsData(fullsetname) then
      var year, stream := Year(eventfile), Stream(eventfile);
      var value := LumiValue(table, EosPath(eventfile));
      var lumi := if year.Some? && stream.Some? && value.Some?
        then Some(LumiRecord(stream.value + "_" + IntToString(year.value), value.value)) else None;
      match CertificationFile(year)
      case Err(e) => Err(e)
      case Ok(jsonfile) => Ok(Calibration(DataConfig, jsonfile, lumi))
    else Ok(Calibration(SimulationConfig, "", None))
  }

  /** The calibration rules, stated against year, stream and value. */
  lemma CalibrateSpec(fullsetname: string, eventfile: string, table: LumiTable)
    ensures var r := Calibrate(fullsetname, eventfile, table);
      && (!IsData(fullsetname) ==> r == Ok(Calibration(SimulationConfig, "", None)))
      && (IsData(fullsetname) ==>
        && (r.Ok? <==> Contains(eventfile, "2011") || Contains(eventfile, "2012"))
        && (r.Err? ==> r.error.KeyError?)
        && (r.Ok? ==>
          && r.value.config == DataConfig
          && r.value.jsonfile == CertificationFile(Year(eventfile)).value
          && (r.value.lumi.Some? <==> Stream(eventfile).Some? && LumiValue(table, EosPath(eventfile)).Some?)
          && (r.value.lumi.Some? ==>
            r.value.lumi.value == LumiRecord(Stream(eventfile).value + "_" + IntToString(Year(eventfile).value),
              LumiValue(table, EosPath(eventfile)).value))))
  {
    if IsData(fullsetname) {
      YearSpec(eventfile);
      if Year(eventfile).Some? {
        StreamSpec(eventfile);
        assert Year(eventfile) == Some(2011) || Year(eventfile) == Some(2012);
      }
    }
  }

  /** A 2011 muon file whose luminosity is known is recorded as `mu_stream_2011`. */
  lemma MuonStream2011(fullsetname: string, eventfile: string, table: LumiTable)
    requires IsData(fullsetname) && Contains(eventfile, "2011") && Contains(eventfile, "DoubleMu")
    requires LumiValue(table, EosPath(eventfile)).Some?
    ensures Calibrate(fullsetname, eventfile, table).Ok?
    ensures Calibrate(fullsetname, eventfile, table).value.lumi
      == Some(LumiRecord("mu_stream_2011", LumiValue(table, EosPath(eventfile)).value))
  {
    YearSpec(eventfile);
    StreamSpec(eventfile);
    assert Year(eventfile) == Some(2011) && Stream(eventfile) == Some("mu_stream");
    assert "mu_stream" + "_" + "2011" == "mu_stream_2011";
    assert IntToString(2011) == "2011" by {
      assert NatToString(2011) == NatToString(201) + [DigitChar(1)];
      assert NatToString(201) == NatToString(20) + [DigitChar(1)];
      assert NatToString(20) == NatToString(2) + [DigitChar(0)];
    }
  }

  /** One job of `submit`: names, number, event file and calibration. */
  datatype Job = Job(datasetname: string, fullsetname: string, number: nat, eventfile: string, calibration: Calibration)

  /** The `eventfile` parameter: `s3` replaced by the storage type, `higgs-demo` by the bucket. */
  function EventPath(eventfile: string, storageType: string, bucket: string): string {
    Replace(Replace(Strip(eventfile), "s3", storageType), "higgs-demo", bucket)
  }

  /** On `s3` storage in the `higgs-demo` bucket the event path is passed on unchanged. */
  lemma EventPathOriginalStorage(eventfile: string)
    ensures EventPath(eventfile, "s3", "higgs-demo") == Strip(eventfile)
  {
    ReplaceBySelf(Strip(eventfile), "s3");
    ReplaceBySelf(Strip(eventfile), "higgs-demo");
  }

  /** A path naming neither `s3` nor `higgs-demo` is passed on unchanged whatever the storage. */
  lemma EventPathUntouched(eventfile: string, storageType: string, bucket: string)
    requires !Contains(Strip(eventfile), "s3") && !Contains(Strip(eventfile), "higgs-demo")
    ensures EventPath(eventfile, storageType, bucket) == Strip(eventfile)
  {
    ReplaceAbsent(Strip(eventfile), "s3", storageType);
    ReplaceAbsent(Strip(eventfile), "higgs-demo", bucket);
  }

  /** The credential keys of one storage type. */
  function AccessKey(st: string): string { st + "_access_key" }
  function SecretKey(st: string): string { st + "_secret_key" }
  function HostKey(st: string): string { st + "_host" }

  /**
   * The credential part of the parameter map: the `s3` and `gs` keys first
   * set to `''`, then the keys of the configured storage type set.
   */
  function Credentials(params: map<string, string>, storageType: string, access: string, secret: string, host: string): map<string, string> {
    var blank := params[AccessKey("s3") := ""][SecretKey("s3") := ""][HostKey("s3") := ""]
      [AccessKey("gs") := ""][SecretKey("gs") := ""][HostKey("gs") := ""];
    blank[AccessKey(storageType) := access][SecretKey(storageType) := secret][HostKey(storageType) := host]
  }

  /** Keys of two storage types coincide only when the types do, and keys of different kinds never. */
  lemma CredentialKeysDistinct(a: string, b: string)
    ensures AccessKey(a) == AccessKey(b) ==> a == b
    ensures SecretKey(a) == SecretKey(b) ==> a == b
    ensures HostKey(a) == HostKey(b) ==> a == b
    ensures AccessKey(a) != SecretKey(b) && AccessKey(a) != HostKey(b) && SecretKey(a) != HostKey(b)
  {
    if AccessKey(a) == AccessKey(b) { assert a == AccessKey(a)[..|a|]; }
    if SecretKey(a) == SecretKey(b) { assert a == SecretKey(a)[..|a|]; }
    if HostKey(a) == HostKey(b) { assert a == HostKey(a)[..|a|]; }
    assert AccessKey(a)[|a| + 1] == 'a' && AccessKey(a)[|a| + 7] == '_';
    assert SecretKey(b)[|b| + 1] == 's';
    assert SecretKey(a)[|a| + 7] == '_';
    assert HostKey(b)[|b| + 1] == 'h';
  }

  /** The keys the credential step may write. */
  function CredentialKeys(st: string): set<string> {
    {AccessKey(st), SecretKey(st), HostKey(st), AccessKey("s3"), SecretKey("s3"), HostKey("s3"),
      AccessKey("gs"), SecretKey("gs"), HostKey("gs")}
  }

  /**
   * Credential isolation: the configured storage type's three keys carry the
   * configured credentials and host; the `s3` and `gs` keys of any other type
   * are empty; every other parameter is left as it was.
   */
  lemma CredentialsSpec(params: map<string, string>, st: string, access: string, secret: string, host: string)
    ensures var r := Credentials(params, st, access, secret, host);
      && r[AccessKey(st)] == access && r[SecretKey(st)] == secret && r[HostKey(st)] == host
      && (forall b :: (b == "s3" || b == "gs") && b != st ==>
        AccessKey(b) in r && r[AccessKey(b)] == "" && SecretKey(b) in r && r[SecretKey(b)] == ""
          && HostKey(b) in r && r[HostKey(b)] == "")
      && (forall k :: k in params && k !in CredentialKeys(st) ==> k in r && r[k] == params[k])
  {
    CredentialsOwn(params, st, access, secret, host);
    forall b | (b == "s3" || b == "gs") && b != st
      ensures var r := Credentials(params, st, access, secret, host);
        AccessKey(b) in r && r[AccessKey(b)] == "" && SecretKey(b) in r && r[SecretKey(b)] == ""
          && HostKey(b) in r && r[HostKey(b)] == ""
    {
      CredentialsBlank(params, st, access, secret, host, b);
    }
    CredentialsKeep(params, st, access, secret, host);
  }

  lemma CredentialsOwn(params: map<string, string>, st: string, access: string, secret: string, host: string)
    ensures var r := Credentials(params, st, access, secret, host);
      r[AccessKey(st)] == access && r[SecretKey(st)] == secret && r[HostKey(st)] == host
  {
    CredentialKeysDistinct(st, st);
  }

  lemma CredentialsBlank(params: map<string, string>, st: string, access: string, secret: string, host: string, b: string)
    requires (b == "s3" || b == "gs") && b != st
    ensures var r := Credentials(params, st, access, secret, host);
      AccessKey(b) in r && r[AccessKey(b)] == "" && SecretKey(b) in r && r[SecretKey(b)] == ""
        && HostKey(b) in r && r[HostKey(b)] == ""
  {
    CredentialKeysDistinct(b, st);
    CredentialKeysDistinct(st, b);
  }

  lemma CredentialsKeep(params: map<string, string>, st: string, access: string, secret: string, host: string)
    ensures var r := Credentials(params, st, access, secret, host);
      forall k :: k in params && k !in CredentialKeys(st) ==> k in r && r[k] == params[k]
  {
  }

  /** The parameter map of a job, as `submit` builds it before rendering. */
  function Params(cfg: Config, basedir: string, job: Job): map<string, string> {
    var a := cfg.args;
    var base := map[
      "datasetname" := job.datasetname, "namespace" := a.namespace,
      "fullsetname" := job.fullsetname, "eventfile" := EventPath(job.eventfile, a.storageType, a.bucket),
      "jobname" := JobName(job.datasetname, job.number),
      "s3_outputpath" := OutputPath(job.fullsetname, job.number),
      "config" := job.calibration.config, "jsonfile" := job.calibration.jsonfile,
      "image" := a.image, "s3_basedir" := basedir,
      "cpu_limit" := a.cpuLimit, "backoff_limit" := IntToString(a.backoffLimit),
      "multipart_threads" := IntToString(a.multipartThreads),
      "output_file" := a.outputFile, "output_json_file" := a.outputJsonFile,
      "redis_host" := a.redisHost, "download_max_kb" := IntToString(a.downloadMaxKb),
      "upload_max_kb" := IntToString(a.uploadMaxKb), "gs_project_id" := a.gcsProjectId,
      "lumi_data" := LumiJson(job.calibration.lumi), "dpath" := cfg.dpath, "ftype" := cfg.ftype];
    Credentials(base, a.storageType, a.accessKey, a.secretKey, cfg.storageHost)
  }

  /** `self._dataset_job_counter.get(fullset, 0)`. */
  function Count(counter: map<string, nat>, fullsetname: string): nat {
    if fullsetname in counter then counter[fullsetname] else 0
  }

  /** The state of `submit`'s loops: jobs planned so far, the counter, and what was raised. */
  datatype Plan = Plan(jobs: seq<Job>, counter: map<string, nat>, raised: Option<Exception>)

  /**
   * One line of a dataset file: strip it, calibrate it, then bump the
   * full set's counter and plan a job with the new number.
   */
  function StepLine(p: Plan, datasetname: string, fullsetname: string, table: LumiTable, line: string): (r: Plan)
    ensures p.raised.Some? ==> r == p
    ensures r.raised.Some? ==> r.jobs == p.jobs && r.counter == p.counter
    ensures p.raised.None? && r.raised.None? ==>
      && |r.jobs| == |p.jobs| + 1 && r.jobs[..|p.jobs|] == p.jobs
      && r.jobs[|p.jobs|].fullsetname == fullsetname && r.jobs[|p.jobs|].datasetname == datasetname
      && r.jobs[|p.jobs|].number == Count(p.counter, fullsetname) + 1
      && r.counter == p.counter[fullsetname := r.jobs[|p.jobs|].number]
    ensures p.raised.None? ==>
      (r.raised.None? <==> Calibrate(fullsetname, Strip(line), table).Ok?)
  {
    if p.raised.Some? then p
    else
      var eventfile := Strip(line);
      match Calibrate(fullsetname, eventfile, table)
      case Err(e) => p.(raised := Some(e))
      case Ok(cal) =>
        var n := Count(p.counter, fullsetname) + 1;
        var jobs := p.jobs + [Job(datasetname, fullsetname, n, eventfile, cal)];
        assert jobs[..|p.jobs|] == p.jobs;
        Plan(jobs, p.counter[fullsetname := n], None)
  }

  /** The lines of one dataset file, in order. */
  function StepLines(p: Plan, datasetname: string, fullsetname: string, table: LumiTable, lines: seq<string>): (r: Plan)
    ensures |r.jobs| >= |p.jobs| && r.jobs[..|p.jobs|] == p.jobs
  {
    if lines == [] then p
    else StepLine(StepLines(p, datasetname, fullsetname, table, lines[..|lines| - 1]),
      datasetname, fullsetname, table, lines[|lines| - 1])
  }

  /** The file `submit` loads the luminosities of a data full set from. */
  function LumiFileName(fullsetname: string): string {
    "lumi/" + fullsetname + ".json"
  }

  /**
   * The inputs `submit` reads from disk: the lines of each existing dataset
   * file, the parsed luminosity files, and the regex hits of each dataset
   * file name.
   */
  datatype Disk = Disk(lines: map<string, seq<string>>, lumiFiles: map<string, LumiTable>,
    hits: map<string, seq<Option<string>>>)

  function HitsOf(disk: Disk, path: string): seq<Option<string>> {
    if path in disk.hits then disk.hits[path] else []
  }

  /**
   * One dataset file: name it, load the luminosities of a data full set
   * (before the file's existence is checked), skip a missing file, then
   * plan its lines.
   */
  function StepFile(p: Plan, disk: Disk, path: string): Plan {
    if p.raised.Some? then p
    else
      var ds := DatasetName(path, HitsOf(disk, path));
      var fs := FullSetName(ds);
      if IsData(fs) && LumiFileName(fs) !in disk.lumiFiles then p.(raised := Some(FileNotFoundError(LumiFileName(fs))))
      else
        var table := if IsData(fs) then disk.lumiFiles[LumiFileName(fs)] else map[];
        if path !in disk.lines then p
        else StepLines(p, ds, fs, table, disk.lines[path])
  }

  /** All dataset files, in order. */
  function StepFiles(p: Plan, disk: Disk, paths: seq<string>): Plan {
    if paths == [] then p
    else StepFile(StepFiles(p, disk, paths[..|paths| - 1]), disk, paths[|paths| - 1])
  }

  /** Once a line has raised, the remaining lines change nothing. */
  lemma {:induction false} StepLinesStuck(p: Plan, ds: string, fs: string, table: LumiTable, lines: seq<string>)
    requires p.raised.Some?
    ensures StepLines(p, ds, fs, table, lines) == p
    decreases |lines|
  {
    if lines != [] {
      StepLinesStuck(p, ds, fs, table, lines[..|lines| - 1]);
    }
  }

  /** Planning `a + b` is planning `a`, then `b` from where `a` left off. */
  lemma {:induction false} StepLinesAppend(p: Plan, ds: string, fs: string, table: LumiTable, a: seq<string>, b: seq<string>)
    ensures StepLines(p, ds, fs, table, a + b) == StepLines(StepLines(p, ds, fs, table, a), ds, fs, table, b)
    decreases |b|
  {
    if b == [] {
      assert a + b == a;
    } else {
      StepLinesAppend(p, ds, fs, table, a, b[..|b| - 1]);
      assert (a + b)[..|a + b| - 1] == a + b[..|b| - 1];
    }
  }

  /** Once a file has raised, the remaining files change nothing. */
  lemma {:induction false} StepFilesStuck(p: Plan, disk: Disk, paths: seq<string>)
    requires p.raised.Some?
    ensures StepFiles(p, disk, paths) == p
    decreases |paths|
  {
    if paths != [] {
      StepFilesStuck(p, disk, paths[..|paths| - 1]);
    }
  }

  /** Planning files `a + b` is planning `a`, then `b` from where `a` left off. */
  lemma {:induction false} StepFilesAppend(p: Plan, disk: Disk, a: seq<string>, b: seq<string>)
    ensures StepFiles(p, disk, a + b) == StepFiles(StepFiles(p, disk, a), disk, b)
    decreases |b|
  {
    if b == [] {
      assert a + b == a;
    } else {
      StepFilesAppend(p, disk, a, b[..|b| - 1]);
      assert (a + b)[..|a + b| - 1] == a + b[..|b| - 1];
    }
  }

  /** How many of `jobs` belong to full set `fs`. */
  function CountIn(jobs: seq<Job>, fs: string): nat {
    if jobs == [] then 0
    else CountIn(jobs[..|jobs| - 1], fs) + (if jobs[|jobs| - 1].fullsetname == fs then 1 else 0)
  }

  /**
   * The numbering invariant relative to the counter `c0` the plan started
   * from: each job's number is one more than the jobs of its full set before
   * it (on top of `c0`), and the counter holds the totals.
   */
  ghost predicate Numbered(c0: map<string, nat>, jobs: seq<Job>, counter: map<string, nat>) {
    && (forall i :: 0 <= i < |jobs| ==>
      jobs[i].number == Count(c0, jobs[i].fullsetname) + CountIn(jobs[..i], jobs[i].fullsetname) + 1)
    && (forall fs :: Count(counter, fs) == Count(c0, fs) + CountIn(jobs, fs))
  }

  lemma StepLineNumbered(c0: map<string, nat>, p: Plan, ds: string, fs: string, table: LumiTable, line: string)
    requires Numbered(c0, p.jobs, p.counter)
    ensures var r := StepLine(p, ds, fs, table, line); Numbered(c0, r.jobs, r.counter)
  {
    var r := StepLine(p, ds, fs, table, line);
    if p.raised.None? && r.raised.None? {
      AppendNumbered(c0, p.jobs, p.counter, r.jobs, r.counter);
    }
  }

  /** Appending one job numbered from the counter, and bumping the counter, keeps the numbering invariant. */
  lemma AppendNumbered(c0: map<string, nat>, jobs: seq<Job>, counter: map<string, nat>, jobs': seq<Job>, counter': map<string, nat>)
    requires Numbered(c0, jobs, counter)
    requires |jobs'| == |jobs| + 1 && jobs'[..|jobs|] == jobs
    requires jobs'[|jobs|].number == Count(counter, jobs'[|jobs|].fullsetname) + 1
    requires counter' == counter[jobs'[|jobs|].fullsetname := jobs'[|jobs|].number]
    ensures Numbered(c0, jobs', counter')
  {
    var n := |jobs|;
    forall i | 0 <= i < |jobs'|
      ensures jobs'[i].number == Count(c0, jobs'[i].fullsetname) + CountIn(jobs'[..i], jobs'[i].fullsetname) + 1
    {
      if i < n {
        assert jobs'[..i] == jobs[..i];
      }
    }
    forall f ensures Count(counter', f) == Count(c0, f) + CountIn(jobs', f) {
      assert jobs'[..|jobs'| - 1] == jobs;
    }
  }

  lemma {:induction false} StepLinesNumbered(c0: map<string, nat>, p: Plan, ds: string, fs: string, table: LumiTable, lines: seq<string>)
    requires Numbered(c0, p.jobs, p.counter)
    ensures var r := StepLines(p, ds, fs, table, lines); Numbered(c0, r.jobs, r.counter)
  {
    if lines != [] {
      StepLinesNumbered(c0, p, ds, fs, table, lines[..|lines| - 1]);
      StepLineNumbered(c0, StepLines(p, ds, fs, table, lines[..|lines| - 1]), ds, fs, table, lines[|lines| - 1]);
    }
  }

  lemma {:induction false} StepFilesNumbered(c0: map<string, nat>, p: Plan, disk: Disk, paths: seq<string>)
    requires Numbered(c0, p.jobs, p.counter)
    ensures var r := StepFiles(p, disk, paths); Numbered(c0, r.jobs, r.counter)
  {
    if paths != [] {
      var q := StepFiles(p, disk, paths[..|paths| - 1]);
      StepFilesNumbered(c0, p, disk, paths[..|paths| - 1]);
      var path := paths[|paths| - 1];
      if q.raised.None? {
        var ds := DatasetName(path, HitsOf(disk, path));
        var fs := FullSetName(ds);
        if !(IsData(fs) && LumiFileName(fs) !in disk.lumiFiles) && path in disk.lines {
          var table := if IsData(fs) then disk.lumiFiles[LumiFileName(fs)] else map[];
          StepLinesNumbered(c0, q, ds, fs, table, disk.lines[path]);
        }
      }
    }
  }

  /**
   * Numbering, whether or not `submit` gets to the end: starting from
   * counter `c0`, the k-th job (1-based) of a full set gets number
   * `c0[fs] + k`, so on a fresh object numbering starts at `0001`, and the
   * counter ends at the number of jobs planned per full set.
   */
  lemma JobNumbering(c0: map<string, nat>, disk: Disk, paths: seq<string>)
    ensures var p := StepFiles(Plan([], c0, None), disk, paths);
      && (forall i :: 0 <= i < |p.jobs| ==>
        p.jobs[i].number == Count(c0, p.jobs[i].fullsetname) + CountIn(p.jobs[..i], p.jobs[i].fullsetname) + 1)
      && (forall fs :: Count(p.counter, fs) == Count(c0, fs) + CountIn(p.jobs, fs))
  {
    StepFilesNumbered(c0, Plan([], c0, None), disk, paths);
  }

  /** Jobs of one full set come in strictly increasing numbers. */
  lemma {:induction false} CountInGrows(jobs: seq<Job>, i: nat, j: nat, fs: string)
    requires i < j <= |jobs| && jobs[i].fullsetname == fs
    ensures CountIn(jobs[..i], fs) < CountIn(jobs[..j], fs)
    decreases j
  {
    if j == i + 1 {
      assert jobs[..j][..i] == jobs[..i];
    } else {
      CountInGrows(jobs, i, j - 1, fs);
      assert jobs[..j][..j - 1] == jobs[..j - 1];
    }
  }

  /**
   * Two jobs of the same full set planned by one `submit` never share an
   * output path, and never share a job name when their dataset names agree.
   */
  lemma DistinctJobNames(c0: map<string, nat>, disk: Disk, paths: seq<string>, i: nat, j: nat)
    requires var p := StepFiles(Plan([], c0, None), disk, paths);
      i < j < |p.jobs| && p.jobs[i].fullsetname == p.jobs[j].fullsetname
    ensures var p := StepFiles(Plan([], c0, None), disk, paths);
      && OutputPath(p.jobs[i].fullsetname, p.jobs[i].number) != OutputPath(p.jobs[j].fullsetname, p.jobs[j].number)
      && (p.jobs[i].datasetname == p.jobs[j].datasetname ==>
        JobName(p.jobs[i].datasetname, p.jobs[i].number) != JobName(p.jobs[j].datasetname, p.jobs[j].number))
  {
    var p := StepFiles(Plan([], c0, None), disk, paths);
    JobNumbering(c0, disk, paths);
    CountInGrows(p.jobs, i, j, p.jobs[i].fullsetname);
    OutputPathsDistinct(p.jobs[i].fullsetname, p.jobs[i].number, p.jobs[j].number);
    JobNamesDistinct(p.jobs[i].datasetname, p.jobs[i].number, p.jobs[j].number);
  }
}
