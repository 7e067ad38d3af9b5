/**
 * The batching of `_kube_submit`: the manifest list is cut into slices of at
 * most `limit` manifests and each slice becomes one multi-document YAML text,
 * every manifest preceded by a `---` document separator line.
 */
module Batching {
  import opened Wrappers
  import opened Errors
  import opened Chunking

  /** The supporting config map created (errors ignored) before any batch. */
  const ConfigMapFile: string := "cm-runjob.yaml"

  const Separator: string := "\n---\n"

  /** One `utils.create_from_yaml` call: a YAML file of the repository, or a batch text. */
  datatype CreateRequest = FromFile(path: string) | FromText(text: string)

  /** The cluster's first refusal of a batch creation, if any: batch index and status. */
  datatype Rejection = Rejection(batch: nat, status: int)

  /** The total length of the manifests. */
  function Size(ms: seq<string>): nat {
    if ms == [] then 0 else Size(ms[..|ms| - 1]) + |ms[|ms| - 1]|
  }

  /**
   * One multi-document text: `"\n---\n" + m` for each manifest, in order.
   * It is exactly one separator per manifest longer than the manifests.
   */
  function Join(ms: seq<string>): (text: string)
    ensures |text| == |Separator| * |ms| + Size(ms)
  {
    if ms == [] then [] else Join(ms[..|ms| - 1]) + Separator + ms[|ms| - 1]
  }

  /**
   * Read from the front: a non-empty batch text starts with a separator and
   * the first manifest, followed by the text of the rest.
   */
  lemma JoinFirst(ms: seq<string>)
    requires ms != []
    ensures Join(ms) == Separator + ms[0] + Join(ms[1..])
  {
    assert ms == [ms[0]] + ms[1..];
    JoinAppend([ms[0]], ms[1..]);
    assert [ms[0]][..0] == [];
  }

  /** Joining distributes over concatenation of the manifest list. */
  lemma {:induction false} JoinAppend(a: seq<string>, b: seq<string>)
    ensures Join(a + b) == Join(a) + Join(b)
    decreases |b|
  {
    if b == [] {
      assert a + b == a;
    } else {
      var b', last := b[..|b| - 1], b[|b| - 1];
      JoinAppend(a, b');
      assert (a + b)[..|a + b| - 1] == a + b' && (a + b)[|a + b| - 1] == last;
      assert Join(a + b) == Join(a + b') + Separator + last;
      assert Join(b) == Join(b') + Separator + last;
    }
  }

  /** The texts of the batches: one joined text per slice of at most `limit` manifests. */
  function Batches(ms: seq<string>, limit: nat): (texts: seq<string>)
    requires limit > 0
    ensures |texts| == |Chunks(ms, limit)|
    ensures forall i :: 0 <= i < |texts| ==> texts[i] == Join(Chunks(ms, limit)[i])
  {
    var chunks := Chunks(ms, limit);
    seq(|chunks|, i requires 0 <= i < |chunks| => Join(chunks[i]))
  }

  /** Concatenation of texts. */
  function Concat(texts: seq<string>): string {
    if texts == [] then [] else texts[0] + Concat(texts[1..])
  }

  /**
   * `_kube_submit` issues ceil(n / limit) batch creations; an empty manifest
   * list submits no batch at all.
   */
  lemma BatchCount(ms: seq<string>, limit: nat)
    requires limit > 0
    ensures |Batches(ms, limit)| == (|ms| + limit - 1) / limit
    ensures ms == [] <==> Batches(ms, limit) == []
  {
    if ms != [] {
      assert |Chunks(ms, limit)| > 0;
    }
  }

  /**
   * Batch `i` holds exactly the manifests `ms[i * limit .. (i + 1) * limit]`
   * (clipped to the list), never more than `limit` of them and never none.
   */
  lemma BatchAt(ms: seq<string>, limit: nat, i: nat)
    requires limit > 0 && i < |Batches(ms, limit)|
    ensures var hi := if (i + 1) * limit <= |ms| then (i + 1) * limit else |ms|;
      i * limit < hi && hi - i * limit <= limit && Batches(ms, limit)[i] == Join(ms[i * limit .. hi])
  {
    ChunkAt(ms, limit, i);
    ChunkSizes(ms, limit);
  }

  /** No manifest is lost or repeated: the batch texts concatenate to the join of all manifests. */
  lemma BatchesCoverAll(ms: seq<string>, limit: nat)
    requires limit > 0
    ensures Concat(Batches(ms, limit)) == Join(ms)
  {
    FlattenChunks(ms, limit);
    ConcatJoined(Chunks(ms, limit));
  }

  lemma {:induction false} ConcatJoined(chunks: seq<seq<string>>)
    ensures Concat(seq(|chunks|, i requires 0 <= i < |chunks| => Join(chunks[i]))) == Join(Flatten(chunks))
  {
    var texts := seq(|chunks|, i requires 0 <= i < |chunks| => Join(chunks[i]));
    if chunks != [] {
      ConcatJoined(chunks[1..]);
      assert texts[1..] == seq(|chunks[1..]|, i requires 0 <= i < |chunks[1..]| => Join(chunks[1..][i]));
      JoinAppend(chunks[0], Flatten(chunks[1..]));
    }
  }

  /** One creation call per batch text. */
  function Creations(texts: seq<string>): (calls: seq<CreateRequest>)
    ensures |calls| == |texts|
    ensures forall i :: 0 <= i < |texts| ==> calls[i] == FromText(texts[i])
  {
    seq(|texts|, i requires 0 <= i < |texts| => FromText(texts[i]))
  }

  /**
   * The creation calls `_kube_submit` makes and what it raises: first the
   * config map, whose failure is ignored; then, for `range(0, n, limit)`, one
   * call per batch up to and including the first one the cluster rejects. A
   * zero `limit` raises `ValueError` from `range`; a negative one makes the
   * range empty.
   */
  function Submission(ms: seq<string>, limit: int, rejection: Option<Rejection>): (r: (seq<CreateRequest>, Option<Exception>))
    ensures |r.0| >= 1 && r.0[0] == FromFile(ConfigMapFile)
    ensures forall i :: 1 <= i < |r.0| ==> r.0[i].FromText?
    ensures r.1.Some? ==> r.1.value.ValueError? || r.1.value.FailToCreateError?
    ensures r.1.Some? && r.1.value.FailToCreateError? ==> rejection.Some? && |r.0| == rejection.value.batch + 2
  {
    var head := [FromFile(ConfigMapFile)];
    if limit == 0 then (head, Some(ValueError("range() arg 3 must not be zero")))
    else if limit < 0 then (head, None)
    else
      var calls := Creations(Batches(ms, limit));
      match rejection
      case Some(Rejection(b, status)) =>
        if b < |calls| then (head + calls[..b + 1], Some(FailToCreateError(status))) else (head + calls, None)
      case None => (head + calls, None)
  }

  /**
   * When the cluster accepts every batch, the config map is created first and
   * then every manifest goes out exactly once, in order, within
   * ceil(n / limit) calls.
   */
  lemma SubmissionWhenAccepted(ms: seq<string>, limit: nat)
    requires limit > 0
    ensures var (calls, raised) := Submission(ms, limit, None);
      && raised == None
      && |calls| == 1 + (|ms| + limit - 1) / limit
      && calls[0] == FromFile(ConfigMapFile)
      && (forall i :: 1 <= i < |calls| ==> calls[i] == FromText(Batches(ms, limit)[i - 1]))
  {
    BatchCount(ms, limit);
  }

  /** The texts of a run of batch creations. */
  function Texts(calls: seq<CreateRequest>): (texts: seq<string>)
    requires forall i :: 0 <= i < |calls| ==> calls[i].FromText?
    ensures |texts| == |calls|
    ensures forall i :: 0 <= i < |calls| ==> texts[i] == calls[i].text
  {
    seq(|calls|, i requires 0 <= i < |calls| && calls[i].FromText? => calls[i].text)
  }

  /**
   * When the cluster accepts every batch, the batch creations carry exactly
   * the manifests: their texts concatenate to the join of all of them.
   */
  lemma SubmissionCarriesAll(ms: seq<string>, limit: nat)
    requires limit > 0
    ensures var calls := Submission(ms, limit, None).0;
      && |calls| == 1 + (|ms| + limit - 1) / limit
      && calls[0] == FromFile(ConfigMapFile)
      && (forall i :: 1 <= i < |calls| ==> calls[i].FromText?)
      && Concat(Texts(calls[1..])) == Join(ms)
  {
    var calls := Submission(ms, limit, None).0;
    SubmissionWhenAccepted(ms, limit);
    BatchesCoverAll(ms, limit);
    assert Texts(calls[1..]) == Batches(ms, limit);
  }

  /** A rejection of batch `b` stops the submission after that batch's creation call. */
  lemma SubmissionRejected(ms: seq<string>, limit: int, b: nat, status: int)
    requires limit > 0 && b < |Batches(ms, limit)|
    ensures Submission(ms, limit, Some(Rejection(b, status)))
      == ([FromFile(ConfigMapFile)] + Creations(Batches(ms, limit))[..b + 1], Some(FailToCreateError(status)))
  {
  }
}
