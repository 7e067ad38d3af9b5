/**
 * How `submit` names things: the dataset name derived from a dataset index
 * file, the full-set name it belongs to, the job name and output path built
 * from the per-full-set job number, the output base directory and the
 * certification file of a data-taking year.
 */
module Naming {
  import opened Wrappers
  import opened Errors
  import opened Text

  /**
   * `datasetname.replace(hit, '')` for each regex search result in order; a
   * search that found nothing (`None`) leaves the name alone.
   */
  function RemoveHits(name: string, hits: seq<Option<string>>): (r: string)
    ensures forall c :: c in r ==> c in name
    decreases |hits|
  {
    if hits == [] then name
    else
      var name' := if hits[0].None? then name else Replace(name, hits[0].value, "");
      if hits[0].Some? then ReplaceChars(name, hits[0].value, ""); RemoveHits(name', hits[1..])
      else RemoveHits(name', hits[1..])
  }

  /** The abbreviations `_datasetname` applies, in the order it applies them. */
  const Abbreviations: seq<(string, string)> := [
    ("summer", "sm"), ("powheg", "pw"), ("jhugenv3", "j3"), ("pythia", "py"),
    ("madgraph-tarball-tauola", "mgtt"), ("madgraph-tauola", "mgt"), ("tunez2star", "tz2")]

  /** A character a dataset name may hold: no upper-case letter and no path separator. */
  predicate NameChar(c: char) {
    !IsUpper(c) && c != '/'
  }

  /** `.replace(long, short)` for the abbreviations from index `i` on. */
  function Abbreviate(s: string, i: nat): (r: string)
    requires i <= |Abbreviations|
    ensures (forall c :: c in s ==> NameChar(c)) ==> forall c :: c in r ==> NameChar(c)
    decreases |Abbreviations| - i
  {
    if i == |Abbreviations| then s
    else
      var (long, short) := Abbreviations[i];
      assert forall c :: c in short ==> NameChar(c);
      ReplaceChars(s, long, short);
      Abbreviate(Replace(s, long, short), i + 1)
  }

  /**
   * `_datasetname(filename)`: the base name with the regex hits removed,
   * lower-cased, then abbreviated. The regex searches themselves are not
   * modelled: `hits` are their results on `filename`.
   */
  function DatasetName(filename: string, hits: seq<Option<string>>): (r: string)
    ensures forall c :: c in r ==> NameChar(c)
  {
    Abbreviate(Lower(RemoveHits(Basename(filename), hits)), 0)
  }

  /** Abbreviating a text that holds none of the long forms changes nothing. */
  lemma {:induction false} AbbreviateNothing(s: string, i: nat)
    requires i <= |Abbreviations|
    requires forall j :: i <= j < |Abbreviations| ==> !Contains(s, Abbreviations[j].0)
    ensures Abbreviate(s, i) == s
    decreases |Abbreviations| - i
  {
    if i < |Abbreviations| {
      assert |Abbreviations[i].0| > 0;
      ReplaceAbsent(s, Abbreviations[i].0, Abbreviations[i].1);
      AbbreviateNothing(s, i + 1);
    }
  }

  /** Lower-casing a text without upper-case letters changes nothing. */
  lemma LowerUnchanged(s: string)
    requires forall c :: c in s ==> !IsUpper(c)
    ensures Lower(s) == s
  {
    assert forall i :: 0 <= i < |s| ==> Lower(s)[i] == s[i];
  }

  /**
   * A file whose base name is already lower-case, matched no regex and
   * holds none of the long forms keeps its base name as dataset name.
   */
  lemma DatasetNameOfPlainFile(filename: string, hits: seq<Option<string>>)
    requires forall j :: 0 <= j < |hits| ==> hits[j].None?
    requires forall c :: c in Basename(filename) ==> !IsUpper(c)
    requires forall j :: 0 <= j < |Abbreviations| ==> !Contains(Basename(filename), Abbreviations[j].0)
    ensures DatasetName(filename, hits) == Basename(filename)
  {
    NoHits(Basename(filename), hits);
    LowerUnchanged(Basename(filename));
    AbbreviateNothing(Basename(filename), 0);
  }

  lemma {:induction false} NoHits(name: string, hits: seq<Option<string>>)
    requires forall j :: 0 <= j < |hits| ==> hits[j].None?
    ensures RemoveHits(name, hits) == name
  {
    if hits != [] {
      NoHits(name, hits[1..]);
    }
  }

  /** `_fullsetname`: the text before the last underscore, or the whole name when there is none. */
  function FullSetName(datasetname: string): (r: string)
    ensures '_' !in datasetname ==> r == datasetname
    ensures '_' in datasetname ==>
      |r| < |datasetname| && datasetname[..|r|] == r && datasetname[|r|] == '_' && '_' !in datasetname[|r| + 1..]
  {
    BeforeLast(datasetname, '_')
  }

  /** `str(n).zfill(4)`: the job number as it appears in names. */
  function Padded(n: nat): string {
    ZFill(NatToString(n), 4)
  }

  /** `_jobname`: `'{dataset}-{number}'` with every underscore removed. */
  function JobName(datasetname: string, n: nat): string {
    Replace(datasetname + "-" + Padded(n), "_", "")
  }

  /** `_s3_outputpath`: `'{fullset}-{number}.json'`, underscores kept. */
  function OutputPath(fullsetname: string, n: nat): string {
    fullsetname + "-" + Padded(n) + ".json"
  }

  /** `_s3_basedir`: where the jobs of a run put their event selection. */
  function BaseDir(storageType: string, bucket: string, run: string): (r: string)
    ensures StartsWith(r, storageType + "/" + bucket + "/")
    ensures EndsWith(r, "/" + run + "/eventselection")
  {
    var r := storageType + "/" + bucket + "/testoutputs/higgs4lbucket/" + run + "/eventselection";
    assert r[..|storageType + "/" + bucket + "/"|] == storageType + "/" + bucket + "/";
    assert r[|r| - |"/" + run + "/eventselection"|..] == "/" + run + "/eventselection";
    r
  }

  /** A padded job number is all digits, at least four of them, and reads back as the number. */
  lemma PaddedRoundTrip(n: nat)
    ensures AllDigits(Padded(n)) && |Padded(n)| >= 4
    ensures ParseInt(Padded(n)) == Some(n)
  {
    ZFillRoundTrip(n, 4);
  }

  /** Removing a one-character pattern distributes over concatenation. */
  lemma {:induction false} RemoveCharConcat(a: string, b: string, c: char)
    ensures Replace(a + b, [c], "") == Replace(a, [c], "") + Replace(b, [c], "")
  {
    if a != [] {
      RemoveCharConcat(a[1..], b, c);
      assert (a + b)[1..] == a[1..] + b;
    } else {
      assert a + b == b;
    }
  }

  /** Removing a character leaves none of it. */
  lemma {:induction false} RemoveCharGone(s: string, c: char)
    ensures c !in Replace(s, [c], "")
  {
    if s != [] {
      RemoveCharGone(s[1..], c);
    }
  }

  /** A text without character `c` does not contain the text `[c]`. */
  lemma {:induction false} AbsentChar(s: string, c: char)
    requires c !in s
    ensures !Contains(s, [c])
  {
    if s != [] {
      AbsentChar(s[1..], c);
      assert s[..1][0] == s[0];
    }
  }

  /** The text after the last `sep`, when there is one. */
  function AfterLast(s: string, sep: char): (r: string)
    requires sep in s
    ensures sep !in r && EndsWith(s, r)
  {
    var b := BeforeLast(s, sep);
    assert s[|b| + 1..] == s[|s| - |s[|b| + 1..]|..];
    s[|b| + 1..]
  }

  /** The last `-` of `x + "-" + p` is the one before `p` when `p` has none. */
  lemma SplitAtLastDash(x: string, p: string)
    requires '-' !in p
    ensures BeforeLast(x + "-" + p, '-') == x
    ensures AfterLast(x + "-" + p, '-') == p
  {
    var s := x + "-" + p;
    assert s[|x|] == '-';
    assert s[|x| + 1..] == p;
  }

  /** The job number a job name carries: the integer after its last `-`. */
  function JobNumber(jobname: string): Option<int> {
    if '-' in jobname then ParseInt(AfterLast(jobname, '-')) else None
  }

  /**
   * A job name is the dataset name without underscores, a dash and the
   * padded number; it holds no underscore and its number reads back.
   */
  lemma JobNameShape(datasetname: string, n: nat)
    ensures JobName(datasetname, n) == Replace(datasetname, "_", "") + "-" + Padded(n)
    ensures '_' !in JobName(datasetname, n)
    ensures JobNumber(JobName(datasetname, n)) == Some(n)
  {
    var pad := Padded(n);
    PaddedRoundTrip(n);
    assert '-' !in pad && '_' !in pad;
    JobNameSplit(datasetname, pad);
    RemoveCharGone(datasetname + "-" + pad, '_');
    SplitAtLastDash(Replace(datasetname, "_", ""), pad);
  }

  lemma JobNameSplit(datasetname: string, pad: string)
    requires '_' !in pad
    ensures Replace(datasetname + "-" + pad, "_", "") == Replace(datasetname, "_", "") + "-" + pad
  {
    RemoveCharConcat(datasetname + "-", pad, '_');
    RemoveCharConcat(datasetname, "-", '_');
    assert Replace("-", "_", "") == "-";
    AbsentChar(pad, '_');
    ReplaceAbsent(pad, "_", "");
  }

  /** Different job numbers of one dataset give different job names. */
  lemma JobNamesDistinct(datasetname: string, n: nat, m: nat)
    requires n != m
    ensures JobName(datasetname, n) != JobName(datasetname, m)
  {
    JobNameShape(datasetname, n);
    JobNameShape(datasetname, m);
  }

  /** Output paths keep the full-set name and end in `.json`. */
  lemma OutputPathShape(fullsetname: string, n: nat)
    ensures StartsWith(OutputPath(fullsetname, n), fullsetname + "-")
    ensures EndsWith(OutputPath(fullsetname, n), ".json")
  {
    var p := OutputPath(fullsetname, n);
    assert p[..|fullsetname + "-"|] == fullsetname + "-";
    assert p[|p| - 5..] == ".json";
  }

  /** Different job numbers of one full set give different output paths. */
  lemma OutputPathsDistinct(fullsetname: string, n: nat, m: nat)
    requires n != m
    ensures OutputPath(fullsetname, n) != OutputPath(fullsetname, m)
  {
    var p, q := OutputPath(fullsetname, n), OutputPath(fullsetname, m);
    var k := |fullsetname| + 1;
    assert Padded(n) == p[k..|p| - 5];
    assert Padded(m) == q[k..|q| - 5];
    PaddedRoundTrip(n);
    PaddedRoundTrip(m);
  }

  /** The certification file of a year (`_jsonfile`): 2011 and 2012 only, anything else a `KeyError`. */
  function CertificationFile(year: Option<int>): (r: Result<string, Exception>)
    ensures r.Ok? <==> year == Some(2011) || year == Some(2012)
    ensures r.Err? ==> r.error.KeyError?
  {
    match year
    case Some(2011) => Ok("/json_files/Cert_160404-180252_7TeV_ReRecoNov08_Collisions11_JSON.txt")
    case Some(2012) => Ok("/json_files/Cert_190456-208686_8TeV_22Jan2013ReReco_Collisions12_JSON.txt")
    case Some(y) => Err(KeyError(IntToString(y)))
    case None => Err(KeyError("None"))
  }

  /** The two years certify against different files. */
  lemma CertificationFilesDiffer()
    ensures CertificationFile(Some(2011)) != CertificationFile(Some(2012))
  {
    var a := CertificationFile(Some(2011)).value;
    var b := CertificationFile(Some(2012)).value;
    assert a == "/json_files/Cert_160404-180252_7TeV_ReRecoNov08_Collisions11_JSON.txt";
    assert b == "/json_files/Cert_190456-208686_8TeV_22Jan2013ReReco_Collisions12_JSON.txt";
    assert |a| != |b|;
  }
}
